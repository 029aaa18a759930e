/** The signed-in user's profile (`src/components/UserProfile.js`): the two
    listings loaded on mount, the status badge, and the uploader's
    confirmation that an item was handed over. */
module UserProfile {
  import opened Common
  import opened Service
  import VerifyItem

  const LOGIN_TO_VIEW := "You need to be logged in to view your profile."
  const UPLOADED_FALLBACK := "Failed to load your uploaded items."
  const CLAIMED_FALLBACK := "Failed to load your claimed items."
  const HANDOVER_DONE := "Handover confirmed successfully!"
  const HANDOVER_ALERT := "Failed to confirm handover: "

  // ---------------------------------------------------------------- status

  /** `status.replace(/_/g, ' ')`. */
  function SpaceUnderscores(s: string): (r: string)
    ensures |r| == |s|
    ensures forall i :: 0 <= i < |s| ==> r[i] == if s[i] == '_' then ' ' else s[i]
  {
    if s == [] then [] else [if s[0] == '_' then ' ' else s[0]] + SpaceUnderscores(s[1..])
  }

  /** The badge text: the status with underscores shown as spaces, or
      `Unknown` when the status is absent or empty. A badge never shows an
      underscore, and a present status keeps its length. */
  function StatusLabel(status: Option<string>): (badge: string)
    ensures '_' !in badge
    ensures Truthy(status) ==> |badge| == |status.value|
    ensures !Truthy(status) ==> badge == "Unknown"
  {
    if Truthy(status) then SpaceUnderscores(status.value) else "Unknown"
  }

  /** A status without underscores is shown as it is. */
  lemma StatusLabelPlain(s: string)
    requires s != "" && '_' !in s
    ensures StatusLabel(Some(s)) == s
  {
  }

  /** The three lifecycle states get three different badges; `active` is shown as it is. */
  lemma StatusLabelsOfLifecycle()
    ensures StatusLabel(Some(ACTIVE)) == ACTIVE
    ensures StatusLabel(Some(PENDING_HANDOVER)) != StatusLabel(Some(HANDED_OVER))
    ensures StatusLabel(Some(PENDING_HANDOVER)) != StatusLabel(Some(ACTIVE))
    ensures StatusLabel(Some(HANDED_OVER)) != StatusLabel(Some(ACTIVE))
  {
    StatusLabelPlain(ACTIVE);
    assert StatusLabel(Some(PENDING_HANDOVER))[0] == 'p';
    assert StatusLabel(Some(HANDED_OVER))[0] == 'h';
  }

  /** The badge tells statuses without underscores apart. */
  lemma StatusLabelInjective(a: string, b: string)
    requires a != "" && b != "" && '_' !in a && '_' !in b
    requires StatusLabel(Some(a)) == StatusLabel(Some(b))
    ensures a == b
  {
  }

  // ---------------------------------------------------------------- handover

  /** The "Confirm Handover" button on an uploaded item: claimed and awaiting handover. */
  predicate ConfirmShown(item: Item)
    ensures ConfirmShown(item) ==> item.status == Some(PENDING_HANDOVER)
  {
    item.status == Some(PENDING_HANDOVER) && Truthy(item.claimedByUserId)
  }

  /** The uploader is offered the confirmation exactly when the verification
      page shows the claim as initiated and disables its claim button. */
  lemma ConfirmMatchesClaimPending(item: Item)
    ensures ConfirmShown(item) <==> VerifyItem.ClaimPending(item)
  {
  }

  /** The local update after a confirmed handover: every item with the id
      becomes `handed_over`; all other items, and all other fields, stay. */
  function MarkHandedOver(items: seq<Item>, itemId: string): (r: seq<Item>)
    ensures |r| == |items|
    ensures forall i :: 0 <= i < |items| ==>
              if items[i].itemId == itemId then r[i] == items[i].(status := Some(HANDED_OVER)) else r[i] == items[i]
  {
    if items == [] then []
    else
      var head := if items[0].itemId == itemId then items[0].(status := Some(HANDED_OVER)) else items[0];
      [head] + MarkHandedOver(items[1..], itemId)
  }

  /** Once handed over, the item offers neither the confirm button here nor
      the claim button on the verification page. */
  lemma HandedOverIsFinal(items: seq<Item>, itemId: string)
    ensures var r := MarkHandedOver(items, itemId);
            forall i :: 0 <= i < |r| && r[i].itemId == itemId ==>
              !ConfirmShown(r[i]) && !VerifyItem.ClaimSectionShown(Some(r[i]))
  {
  }

  /** Ids, order and count are kept, so the same item stays at the same place. */
  lemma MarkKeepsIds(items: seq<Item>, itemId: string)
    ensures var r := MarkHandedOver(items, itemId);
            forall i :: 0 <= i < |r| ==> r[i].itemId == items[i].itemId
  {
  }

  /** With unique ids, confirming the item at `k` changes that one element,
      only in its status, and no other. */
  lemma MarkChangesOneElement(items: seq<Item>, k: int)
    requires 0 <= k < |items|
    requires forall i, j :: 0 <= i < j < |items| ==> items[i].itemId != items[j].itemId
    ensures var r := MarkHandedOver(items, items[k].itemId);
            r[k] == items[k].(status := Some(HANDED_OVER)) &&
            forall i :: 0 <= i < |items| && i != k ==> r[i] == items[i]
  {
  }

  /** Confirming twice gives the same list as confirming once. */
  lemma MarkIdempotent(items: seq<Item>, itemId: string)
    ensures MarkHandedOver(MarkHandedOver(items, itemId), itemId) == MarkHandedOver(items, itemId)
  {
  }

  /** An id not in the list leaves the list as it is. */
  lemma MarkUnknownIdNoop(items: seq<Item>, itemId: string)
    requires forall i :: 0 <= i < |items| ==> items[i].itemId != itemId
    ensures MarkHandedOver(items, itemId) == items
  {
  }

  // ---------------------------------------------------------------- the page

  /** What the page renders: the spinner, the error box (with a home link
      when nobody is signed in), or the two lists. */
  datatype Screen = Spinner | ErrorBox(message: string, offerLogin: bool) | Lists

  function ProfileScreen(isLoadingUploaded: bool, isLoadingClaimed: bool, errorUploaded: Option<string>,
                         errorClaimed: Option<string>, user: Option<string>): (s: Screen)
    ensures s.Spinner? <==> isLoadingUploaded || isLoadingClaimed
    ensures s.Lists? <==> !isLoadingUploaded && !isLoadingClaimed && !Truthy(errorUploaded) && !Truthy(errorClaimed)
  {
    if isLoadingUploaded || isLoadingClaimed then Spinner
    else if Truthy(errorUploaded) || Truthy(errorClaimed) then
      ErrorBox(if Truthy(errorUploaded) then errorUploaded.value else errorClaimed.value, user.None?)
    else Lists
  }

  /** Signed out: the page asks the user to log in and offers the way home. */
  lemma SignedOutScreen(user: Option<string>)
    requires user.None?
    ensures ProfileScreen(false, false, Some(LOGIN_TO_VIEW), Some(LOGIN_TO_VIEW), user) == ErrorBox(LOGIN_TO_VIEW, true)
  {
  }

  /** An error for the uploaded list is shown ahead of one for the claimed list. */
  lemma UploadedErrorFirst(a: string, b: Option<string>, user: Option<string>)
    requires a != ""
    ensures ProfileScreen(false, false, Some(a), b, user).message == a
  {
  }

  /** The message a failed listing leaves on the page. */
  function ListingError(r: Result<seq<Item>>, fallback: string): Option<string> {
    if r.Err? then Some(OrElse(Some(r.message), fallback)) else None
  }

  class ProfilePage {
    var user: Option<string>
    var uploadedItems: seq<Item>
    var claimedItems: seq<Item>
    var isLoadingUploaded: bool
    var isLoadingClaimed: bool
    var errorUploaded: Option<string>
    var errorClaimed: Option<string>

    constructor ()
      ensures user == None && uploadedItems == [] && claimedItems == []
      ensures isLoadingUploaded && isLoadingClaimed && errorUploaded == None && errorClaimed == None
    {
      user, uploadedItems, claimedItems := None, [], [];
      isLoadingUploaded, isLoadingClaimed := true, true;
      errorUploaded, errorClaimed := None, None;
    }

    /** The mount effect. `authUser` is what `Auth.currentAuthenticatedUser`
        resolves to (`None` when it throws); the service looks up its own token. */
    method Mount(authUser: Option<string>, net: Network, session: AuthSession)
      modifies this, net
      ensures !isLoadingUploaded && !isLoadingClaimed
      ensures authUser.None? ==>
                user == None && errorUploaded == Some(LOGIN_TO_VIEW) && errorClaimed == Some(LOGIN_TO_VIEW) &&
                uploadedItems == old(uploadedItems) && claimedItems == old(claimedItems) &&
                net.trace == old(net.trace)
      ensures authUser.Some? ==>
                var k := |old(net.trace)|;
                var token := GetAuthToken(session);
                var up := UserItemsPlan(Uploaded, token, net.ReplyAt(k));
                var cl := UserItemsPlan(Claimed, token, net.ReplyAt(k + |up.calls|));
                user == authUser && net.trace == old(net.trace) + up.calls + cl.calls &&
                uploadedItems == (if up.result.Ok? then up.result.value else old(uploadedItems)) &&
                claimedItems == (if cl.result.Ok? then cl.result.value else old(claimedItems)) &&
                errorUploaded == (if up.result.Err? then ListingError(up.result, UPLOADED_FALLBACK) else old(errorUploaded)) &&
                errorClaimed == (if cl.result.Err? then ListingError(cl.result, CLAIMED_FALLBACK) else old(errorClaimed))
    {
      if authUser.None? {
        errorUploaded := Some(LOGIN_TO_VIEW);
        errorClaimed := Some(LOGIN_TO_VIEW);
        isLoadingUploaded := false;
        isLoadingClaimed := false;
        user := None;
        return;
      }
      user := authUser;
      var uploaded := GetUploadedItems(net, session);
      if uploaded.Ok? {
        uploadedItems := uploaded.value;
      } else {
        errorUploaded := ListingError(uploaded, UPLOADED_FALLBACK);
      }
      isLoadingUploaded := false;
      var claimed := GetClaimedItems(net, session);
      if claimed.Ok? {
        claimedItems := claimed.value;
      } else {
        errorClaimed := ListingError(claimed, CLAIMED_FALLBACK);
      }
      isLoadingClaimed := false;
    }

    /** `handleConfirmHandover(itemId)`; `confirmed` is the answer to the
        confirmation dialog, and the result is the alert shown, if any. */
    method HandleConfirmHandover(itemId: string, confirmed: bool, net: Network, session: AuthSession)
      returns (alert: Option<string>)
      modifies this`uploadedItems, net
      ensures !confirmed ==> alert == None && uploadedItems == old(uploadedItems) && net.trace == old(net.trace)
      ensures confirmed ==>
                var run := HandoverPlan(GetAuthToken(session), itemId, net.ReplyAt(|old(net.trace)|));
                net.trace == old(net.trace) + run.calls &&
                (run.result.Ok? ==>
                   alert == Some(HANDOVER_DONE) && uploadedItems == MarkHandedOver(old(uploadedItems), itemId)) &&
                (run.result.Err? ==>
                   alert == Some(HANDOVER_ALERT + run.result.message) && uploadedItems == old(uploadedItems))
    {
      alert := None;
      if confirmed {
        var result := ConfirmHandover(net, session, itemId);
        if result.Ok? {
          alert := Some(HANDOVER_DONE);
          uploadedItems := MarkHandedOver(uploadedItems, itemId);
        } else {
          alert := Some(HANDOVER_ALERT + result.message);
        }
      }
    }
  }
}
