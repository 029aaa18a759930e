/** The page a verification link opens (`src/components/VerifyItem.js`):
    it looks the code up once per mount, keeps a successful lookup in
    session storage for the rest of the browser session, and offers the
    claim button while the item can still be claimed. */
module VerifyItem {
  import opened Common
  import opened Codec
  import opened Service

  // ---------------------------------------------------------------- the session cache

  const FLAG_PREFIX := "verified_"
  const DETAILS_PREFIX := "itemDetails_"

  /** The key under which the page records that a code was verified. */
  function FlagKey(code: string): string {
    FLAG_PREFIX + code
  }

  /** The key under which the page keeps the looked-up details. */
  function DetailsKey(code: string): string {
    DETAILS_PREFIX + code
  }

  /** The two writes after a successful lookup. */
  function Store(entries: map<string, string>, code: string, details: Option<Item>): map<string, string> {
    entries[FlagKey(code) := "true"][DetailsKey(code) := Stringify(details)]
  }

  /** What the page shows without asking the backend: the flag must read
      `"true"` and the stored details must parse to an item. A missing entry,
      `null` and text that does not parse all fall through to a lookup. */
  function CachedDetails(entries: map<string, string>, code: string): (r: Option<Item>)
    ensures r.Some? <==> FlagKey(code) in entries && entries[FlagKey(code)] == "true" &&
                         Parse(if DetailsKey(code) in entries then Some(entries[DetailsKey(code)]) else None).Value?
    ensures r.Some? ==> DetailsKey(code) in entries && Parse(Some(entries[DetailsKey(code)])) == Value(r.value)
  {
    if FlagKey(code) in entries && entries[FlagKey(code)] == "true" then
      match Parse(if DetailsKey(code) in entries then Some(entries[DetailsKey(code)]) else None)
      case Value(it) => Some(it)
      case _ => None
    else None
  }

  /** Keys of different codes never collide, and a flag key is never a details key. */
  lemma KeysDistinct(c: string, d: string)
    ensures FlagKey(c) == FlagKey(d) ==> c == d
    ensures DetailsKey(c) == DetailsKey(d) ==> c == d
    ensures FlagKey(c) != DetailsKey(d)
  {
    assert FlagKey(c)[0] != DetailsKey(d)[0];
    if FlagKey(c) == FlagKey(d) {
      assert c == FlagKey(c)[|FLAG_PREFIX|..];
    }
    if DetailsKey(c) == DetailsKey(d) {
      assert c == DetailsKey(c)[|DETAILS_PREFIX|..];
    }
  }

  /** After a lookup that returned details, the same code is served from the cache with those details. */
  lemma CachedAfterStore(entries: map<string, string>, code: string, it: Item)
    ensures CachedDetails(Store(entries, code, Some(it)), code) == Some(it)
  {
    KeysDistinct(code, code);
    ParseStringify(Some(it));
  }

  /** A lookup that returned no details leaves nothing to serve: the next mount asks again. */
  lemma NothingCachedWithoutDetails(entries: map<string, string>, code: string)
    ensures CachedDetails(Store(entries, code, None), code) == None
  {
  }

  /** Storing the result for one code does not change what is cached for another. */
  lemma StoreIsolated(entries: map<string, string>, code: string, other: string, details: Option<Item>)
    requires other != code
    ensures CachedDetails(Store(entries, code, details), other) == CachedDetails(entries, other)
  {
    KeysDistinct(code, other);
    KeysDistinct(other, code);
  }

  /** `window.sessionStorage`. */
  class SessionStorage {
    var entries: map<string, string>

    constructor (entries: map<string, string>)
      ensures this.entries == entries
    {
      this.entries := entries;
    }

    function GetItem(key: string): Option<string>
      reads this
    {
      if key in entries then Some(entries[key]) else None
    }

    method SetItem(key: string, value: string)
      modifies this
      ensures entries == old(entries)[key := value]
    {
      entries := entries[key := value];
    }
  }

  // ---------------------------------------------------------------- the claim button

  /** `itemDetails.status === 'pending_handover' && itemDetails.claimedByUserId`:
      someone has already claimed the item. */
  predicate ClaimPending(item: Item) {
    item.status == Some(PENDING_HANDOVER) && Truthy(item.claimedByUserId)
  }

  /** The section holding the claim button: details present and not handed over. */
  predicate ClaimSectionShown(details: Option<Item>) {
    details.Some? && details.value.status != Some(HANDED_OVER)
  }

  datatype Phase = Loading | Success | Failed | Claimed

  /** The button is rendered only on a successful lookup. */
  predicate ClaimButtonShown(phase: Phase, details: Option<Item>) {
    ClaimSectionShown(details) && phase == Success
  }

  predicate ClaimButtonDisabled(isClaiming: bool, item: Item) {
    isClaiming || ClaimPending(item)
  }

  /** The button can be pressed exactly when the lookup succeeded, the item
      is neither handed over nor already claimed, and no claim is in flight. */
  lemma ClaimButtonUsable(phase: Phase, details: Option<Item>, isClaiming: bool)
    ensures (ClaimButtonShown(phase, details) && !ClaimButtonDisabled(isClaiming, details.value)) <==>
            (phase == Success && details.Some? && !isClaiming &&
             details.value.status != Some(HANDED_OVER) &&
             !(details.value.status == Some(PENDING_HANDOVER) && Truthy(details.value.claimedByUserId)))
  {
  }

  /** An item whose status is anything but `pending_handover` or `handed_over`
      (including no status at all) can be claimed once the lookup succeeded. */
  lemma ClaimableWhenOpen(item: Item)
    requires item.status != Some(PENDING_HANDOVER) && item.status != Some(HANDED_OVER)
    ensures ClaimButtonShown(Success, Some(item)) && !ClaimButtonDisabled(false, item)
  {
  }

  /** A pending item with no recorded claimant is still offered for claiming. */
  lemma PendingWithoutClaimantClaimable(item: Item)
    requires item.status == Some(PENDING_HANDOVER) && !Truthy(item.claimedByUserId)
    ensures ClaimButtonShown(Success, Some(item)) && !ClaimButtonDisabled(false, item)
  {
  }

  function ClaimButtonLabel(isClaiming: bool, item: Item): string {
    if isClaiming then "Claiming..." else if ClaimPending(item) then "Claim Initiated" else "Claim This Item"
  }

  /** The label says why a disabled button is disabled. */
  lemma DisabledButtonLabel(isClaiming: bool, item: Item)
    ensures ClaimButtonDisabled(isClaiming, item) <==> ClaimButtonLabel(isClaiming, item) != "Claim This Item"
  {
  }

  // ---------------------------------------------------------------- the page

  const NO_CODE := "No verification code provided in the URL."
  const LOOKUP_FALLBACK := "Network error or unexpected issue during verification."
  const CLAIM_SUCCESS := "Item successfully claimed!"
  const CLAIM_FALLBACK := "Failed to claim item. Please ensure you are logged in and eligible."
  const PROFILE_PATH := "/my-profile"

  class VerifyPage {
    const verificationCode: string
    var phase: Phase
    var itemDetails: Option<Item>
    var error: Option<string>
    var isClaiming: bool
    var claimMessage: string
    var claimMessageType: string
    /** `hasFetchedRef.current`. */
    var hasFetched: bool
    /** The path passed to `navigate`, if any. */
    var navigatedTo: Option<string>

    constructor (verificationCode: string)
      ensures this.verificationCode == verificationCode && phase == Loading && itemDetails == None
      ensures error == None && !isClaiming && claimMessage == "" && claimMessageType == ""
      ensures !hasFetched && navigatedTo == None
    {
      this.verificationCode := verificationCode;
      phase, itemDetails, error := Loading, None, None;
      isClaiming, claimMessage, claimMessageType := false, "", "";
      hasFetched, navigatedTo := false, None;
    }

    /** The effect that runs on mount (and, in strict mode, once more). */
    method RunEffect(storage: SessionStorage, net: Network, session: AuthSession)
      modifies this`phase, this`itemDetails, this`error, this`hasFetched, storage, net
      ensures old(hasFetched) ==>
                unchanged(this) && storage.entries == old(storage.entries) && net.trace == old(net.trace)
      ensures !old(hasFetched) && verificationCode == "" ==>
                phase == Failed && error == Some(NO_CODE) && !hasFetched && itemDetails == old(itemDetails) &&
                storage.entries == old(storage.entries) && net.trace == old(net.trace)
      ensures !old(hasFetched) && verificationCode != "" &&
              CachedDetails(old(storage.entries), verificationCode).Some? ==>
                phase == Success && itemDetails == CachedDetails(old(storage.entries), verificationCode) &&
                error == None && !hasFetched &&
                storage.entries == old(storage.entries) && net.trace == old(net.trace)
      ensures !old(hasFetched) && verificationCode != "" &&
              CachedDetails(old(storage.entries), verificationCode).None? ==>
                var outcome := ActionStep(net.ReplyAt(|old(net.trace)|), LOOKUP_FAILED);
                hasFetched &&
                net.trace == old(net.trace) + [VerifyGet(verificationCode, AuthHeader(GetAuthToken(session)))] &&
                (outcome.Ok? ==>
                   phase == Success && itemDetails == outcome.value.ItemDetails() && error == None &&
                   storage.entries == Store(old(storage.entries), verificationCode, outcome.value.ItemDetails())) &&
                (outcome.Err? ==>
                   phase == Failed && error == Some(OrElse(Some(outcome.message), LOOKUP_FALLBACK)) &&
                   itemDetails == old(itemDetails) && storage.entries == old(storage.entries))
    {
      if hasFetched {
        return;
      }
      if verificationCode == "" {
        phase := Failed;
        error := Some(NO_CODE);
        return;
      }
      var flag := storage.GetItem(FlagKey(verificationCode));
      if flag == Some("true") {
        var stored := Parse(storage.GetItem(DetailsKey(verificationCode)));
        if stored.Value? {
          itemDetails := Some(stored.item);
          phase := Success;
          error := None;
          return;
        }
      }
      hasFetched := true;
      phase := Loading;
      error := None;
      var data := GetItemByCode(net, session, verificationCode);
      if data.Ok? {
        itemDetails := data.value.ItemDetails();
        phase := Success;
        storage.SetItem(FlagKey(verificationCode), "true");
        storage.SetItem(DetailsKey(verificationCode), Stringify(data.value.ItemDetails()));
      } else {
        error := Some(OrElse(Some(data.message), LOOKUP_FALLBACK));
        phase := Failed;
      }
    }

    /** Strict mode runs the mount effect twice; the page still asks the backend at most once. */
    method MountTwice(storage: SessionStorage, net: Network, session: AuthSession)
      modifies this`phase, this`itemDetails, this`error, this`hasFetched, storage, net
      requires !hasFetched
      ensures |net.trace| <= |old(net.trace)| + 1
    {
      RunEffect(storage, net, session);
      RunEffect(storage, net, session);
    }

    /** `handleClaimItem`. */
    method HandleClaim(net: Network, session: AuthSession)
      modifies this`isClaiming, this`claimMessage, this`claimMessageType, this`phase, this`navigatedTo, net
      ensures var run := ClaimPlan(GetAuthToken(session), verificationCode, net.ReplyAt(|old(net.trace)|));
              net.trace == old(net.trace) + run.calls && !isClaiming &&
              (run.result.Ok? ==>
                 claimMessage == OrElse(run.result.value.Message(), CLAIM_SUCCESS) &&
                 claimMessageType == "success" && phase == Phase.Claimed && navigatedTo == Some(PROFILE_PATH)) &&
              (run.result.Err? ==>
                 claimMessage == OrElse(Some(run.result.message), CLAIM_FALLBACK) &&
                 claimMessageType == "error" && phase == old(phase) && navigatedTo == old(navigatedTo))
    {
      isClaiming := true;
      claimMessage := "";
      claimMessageType := "";
      var result := ClaimItem(net, session, verificationCode);
      if result.Ok? {
        claimMessage := OrElse(result.value.Message(), CLAIM_SUCCESS);
        claimMessageType := "success";
        phase := Phase.Claimed;
        navigatedTo := Some(PROFILE_PATH);
      } else {
        claimMessage := OrElse(Some(result.message), CLAIM_FALLBACK);
        claimMessageType := "error";
      }
      isClaiming := false;
    }
  }

  /** After a successful claim the page no longer offers the button. */
  lemma NoButtonAfterClaim(details: Option<Item>)
    ensures !ClaimButtonShown(Phase.Claimed, details)
  {
  }

  /** Without a session, claiming issues no request and asks the user to log in. */
  lemma ClaimNeedsLogin(reason: Option<string>, code: string, reply: Reply)
    ensures ClaimPlan(GetAuthToken(NoSession(reason)), code, reply) == Run(Err(CLAIM_LOGIN), [])
    ensures OrElse(Some(CLAIM_LOGIN), CLAIM_FALLBACK) == CLAIM_LOGIN
  {
  }
}
