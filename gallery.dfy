/** The public gallery (`src/components/LostItemsGallery.js`): the
    filter / search / sort pipeline over the loaded items, the filter reset,
    and the verification-link generation with its error classification. */
module Gallery {
  import opened Common
  import opened Service

  const ALL := "all"
  const NEWEST := "newest"
  const OLDEST := "oldest"
  const NAME_ASC := "name-asc"
  const NAME_DESC := "name-desc"

  // ---------------------------------------------------------------- filtering

  /** `Array.prototype.filter`. */
  function Filter(s: seq<Item>, p: Item -> bool): (r: seq<Item>)
    ensures |r| <= |s|
    ensures forall i :: 0 <= i < |r| ==> p(r[i])
    ensures forall x :: multiset(r)[x] == if p(x) then multiset(s)[x] else 0
    ensures IsSubsequence(r, s)
  {
    if s == [] then []
    else
      assert s == [s[0]] + s[1..];
      var rest := Filter(s[1..], p);
      if p(s[0]) then
        assert ([s[0]] + rest)[1..] == rest;
        [s[0]] + rest
      else rest
  }

  /** `r` is `s` with some elements dropped and the rest in their original order. */
  ghost predicate IsSubsequence<T>(r: seq<T>, s: seq<T>)
    decreases |s|
  {
    r == [] ||
    (s != [] && ((r[0] == s[0] && IsSubsequence(r[1..], s[1..])) || IsSubsequence(r, s[1..])))
  }

  predicate MatchesType(item: Item, itemType: string) {
    itemType == ALL || item.itemType == itemType
  }

  /** A present, non-empty field whose lower-cased text contains `term`. */
  predicate FieldMatches(field: Option<string>, term: string) {
    Truthy(field) && Contains(Lower(field.value), term)
  }

  /** The search predicate; an empty search term matches everything. */
  predicate MatchesSearch(item: Item, searchTerm: string) {
    searchTerm == "" ||
    var term := Lower(searchTerm);
    FieldMatches(item.itemName, term) || FieldMatches(item.description, term) ||
    FieldMatches(item.location, term)
  }

  function TypeFilter(items: seq<Item>, itemType: string): seq<Item> {
    if itemType != ALL then Filter(items, (item: Item) => item.itemType == itemType) else items
  }

  function SearchFilter(items: seq<Item>, searchTerm: string): seq<Item> {
    if searchTerm != "" then Filter(items, (item: Item) => MatchesSearch(item, searchTerm)) else items
  }

  lemma {:induction false} SubsequenceTrans<T>(a: seq<T>, b: seq<T>, c: seq<T>)
    requires IsSubsequence(a, b) && IsSubsequence(b, c)
    ensures IsSubsequence(a, c)
    decreases |c|
  {
    if a != [] {
      assert c != [];
      if b != [] && b[0] == c[0] && IsSubsequence(b[1..], c[1..]) {
        if a[0] == b[0] && IsSubsequence(a[1..], b[1..]) {
          SubsequenceTrans(a[1..], b[1..], c[1..]);
        } else {
          SubsequenceTrans(a, b[1..], c[1..]);
        }
      } else {
        SubsequenceTrans(a, b, c[1..]);
      }
    }
  }

  lemma {:induction false} SubsequenceRefl<T>(s: seq<T>)
    ensures IsSubsequence(s, s)
    decreases |s|
  {
    if s != [] {
      SubsequenceRefl(s[1..]);
    }
  }

  /** The type filter and the search keep exactly the items matching both,
      in their original order, and do not touch the source list. */
  lemma FilteredExactly(items: seq<Item>, itemType: string, searchTerm: string)
    ensures var r := SearchFilter(TypeFilter(items, itemType), searchTerm);
            IsSubsequence(r, items) &&
            (forall i :: 0 <= i < |r| ==> MatchesType(r[i], itemType) && MatchesSearch(r[i], searchTerm)) &&
            (forall x :: multiset(r)[x] ==
               if MatchesType(x, itemType) && MatchesSearch(x, searchTerm) then multiset(items)[x] else 0)
  {
    var t := TypeFilter(items, itemType);
    var r := SearchFilter(t, searchTerm);
    SubsequenceRefl(items);
    SubsequenceRefl(t);
    SubsequenceTrans(r, t, items);
    forall i | 0 <= i < |t| ensures MatchesType(t[i], itemType) {
    }
  }

  /** With a non-empty search term, every kept item has the lower-cased term
      inside the lower-cased text of one of its three fields; absent fields never match. */
  lemma SearchMeaning(item: Item, searchTerm: string)
    requires searchTerm != "" && MatchesSearch(item, searchTerm)
    ensures (item.itemName.Some? && Contains(Lower(item.itemName.value), Lower(searchTerm))) ||
            (item.description.Some? && Contains(Lower(item.description.value), Lower(searchTerm))) ||
            (item.location.Some? && Contains(Lower(item.location.value), Lower(searchTerm)))
  {
  }

  // ---------------------------------------------------------------- sorting

  predicate IsSortKey(sortBy: string) {
    sortBy == NEWEST || sortBy == OLDEST || sortBy == NAME_ASC || sortBy == NAME_DESC
  }

  /** `new Date(createdAt || 0)`. */
  function DateKey(item: Item): int {
    item.createdAt.GetOr(0)
  }

  /** `itemName || ''`. */
  function NameKey(item: Item): string {
    item.itemName.GetOr("")
  }

  /** Lexicographic order on character codes, standing in for `localeCompare`. */
  predicate LexLess(a: string, b: string) {
    if a == [] then b != []
    else b != [] && (a[0] < b[0] || (a[0] == b[0] && LexLess(a[1..], b[1..])))
  }

  lemma {:induction false} LexLessAsymmetric(a: string, b: string)
    requires LexLess(a, b)
    ensures !LexLess(b, a)
  {
    if a != [] && a[0] == b[0] {
      LexLessAsymmetric(a[1..], b[1..]);
    }
  }

  /** The sort comparator returns a negative number: `a` goes before `b`. */
  predicate Precedes(a: Item, b: Item, sortBy: string) {
    if sortBy == NEWEST then DateKey(a) > DateKey(b)
    else if sortBy == OLDEST then DateKey(a) < DateKey(b)
    else if sortBy == NAME_ASC then LexLess(NameKey(a), NameKey(b))
    else if sortBy == NAME_DESC then LexLess(NameKey(b), NameKey(a))
    else false
  }

  lemma PrecedesAsymmetric(a: Item, b: Item, sortBy: string)
    requires Precedes(a, b, sortBy)
    ensures !Precedes(b, a, sortBy)
  {
    if sortBy == NAME_ASC {
      LexLessAsymmetric(NameKey(a), NameKey(b));
    } else if sortBy == NAME_DESC {
      LexLessAsymmetric(NameKey(b), NameKey(a));
    }
  }

  /** No item is placed after one it should precede. */
  ghost predicate Sorted(s: seq<Item>, sortBy: string) {
    forall i :: 0 < i < |s| ==> !Precedes(s[i], s[i - 1], sortBy)
  }

  /** Inserting `x` into a sorted list after every item it does not strictly precede. */
  function Insert(x: Item, s: seq<Item>, sortBy: string): seq<Item> {
    if s == [] then [x]
    else if Precedes(x, s[|s| - 1], sortBy) then Insert(x, s[..|s| - 1], sortBy) + [s[|s| - 1]]
    else s + [x]
  }

  /** The stable sort of `s` by the comparator of `sortBy`. */
  function SortSpec(s: seq<Item>, sortBy: string): seq<Item> {
    if s == [] then [] else Insert(s[|s| - 1], SortSpec(s[..|s| - 1], sortBy), sortBy)
  }

  lemma SortedAppend(s: seq<Item>, y: Item, sortBy: string)
    requires Sorted(s, sortBy)
    requires s != [] ==> !Precedes(y, s[|s| - 1], sortBy)
    ensures Sorted(s + [y], sortBy)
  {
  }

  /** Insertion adds one copy of the element, and the new last element is
      either the inserted one or the old last one. */
  lemma {:induction false} InsertPermutes(x: Item, s: seq<Item>, sortBy: string)
    ensures var r := Insert(x, s, sortBy);
            |r| == |s| + 1 && multiset(r) == multiset(s) + multiset{x} &&
            (r[|r| - 1] == x || (s != [] && r[|r| - 1] == s[|s| - 1]))
    decreases |s|
  {
    if s != [] {
      var last := s[|s| - 1];
      var init := s[..|s| - 1];
      assert s == init + [last];
      if Precedes(x, last, sortBy) {
        InsertPermutes(x, init, sortBy);
      }
    }
  }

  /** Insertion into a sorted list keeps it sorted. */
  lemma {:induction false} InsertSorted(x: Item, s: seq<Item>, sortBy: string)
    requires Sorted(s, sortBy)
    ensures Sorted(Insert(x, s, sortBy), sortBy)
    decreases |s|
  {
    if s == [] {
      SortedAppend([], x, sortBy);
      assert Insert(x, s, sortBy) == [] + [x];
    } else {
      var last := s[|s| - 1];
      var init := s[..|s| - 1];
      assert Sorted(init, sortBy);
      if Precedes(x, last, sortBy) {
        InsertSorted(x, init, sortBy);
        InsertPermutes(x, init, sortBy);
        var r0 := Insert(x, init, sortBy);
        if r0[|r0| - 1] == x {
          PrecedesAsymmetric(x, last, sortBy);
        } else {
          assert r0[|r0| - 1] == s[|s| - 2];
        }
        SortedAppend(r0, last, sortBy);
      } else {
        SortedAppend(s, x, sortBy);
      }
    }
  }

  lemma {:induction false} SortSpecFacts(s: seq<Item>, sortBy: string)
    ensures |SortSpec(s, sortBy)| == |s|
    ensures multiset(SortSpec(s, sortBy)) == multiset(s)
    ensures Sorted(SortSpec(s, sortBy), sortBy)
    decreases |s|
  {
    if s != [] {
      var init := s[..|s| - 1];
      assert s == init + [s[|s| - 1]];
      SortSpecFacts(init, sortBy);
      InsertPermutes(s[|s| - 1], SortSpec(init, sortBy), sortBy);
      InsertSorted(s[|s| - 1], SortSpec(init, sortBy), sortBy);
    }
  }

  /** Sorting what is already sorted changes nothing; in particular sorting is idempotent. */
  lemma {:induction false} SortSpecOfSorted(s: seq<Item>, sortBy: string)
    requires Sorted(s, sortBy)
    ensures SortSpec(s, sortBy) == s
    decreases |s|
  {
    if s != [] {
      var init := s[..|s| - 1];
      assert Sorted(init, sortBy);
      SortSpecOfSorted(init, sortBy);
      assert s == init + [s[|s| - 1]];
    }
  }

  /** Newest first means non-increasing dates, oldest first non-decreasing,
      over every pair of positions (missing dates count as 0). */
  lemma {:induction false} SortedByDate(s: seq<Item>, sortBy: string)
    requires sortBy == NEWEST || sortBy == OLDEST
    requires Sorted(s, sortBy)
    ensures forall i, j :: 0 <= i < j < |s| ==>
              if sortBy == NEWEST then DateKey(s[i]) >= DateKey(s[j]) else DateKey(s[i]) <= DateKey(s[j])
    decreases |s|
  {
    if s != [] {
      var init := s[..|s| - 1];
      assert Sorted(init, sortBy);
      SortedByDate(init, sortBy);
      forall i, j | 0 <= i < j < |s|
        ensures if sortBy == NEWEST then DateKey(s[i]) >= DateKey(s[j]) else DateKey(s[i]) <= DateKey(s[j])
      {
        if j < |s| - 1 {
          assert s[i] == init[i] && s[j] == init[j];
        } else if i < j - 1 {
          assert s[i] == init[i] && s[j - 1] == init[j - 1];
        }
      }
    }
  }

  /** `result.sort(comparator)` for a recognised key, in place and stable. */
  method SortInPlace(a: array<Item>, sortBy: string)
    modifies a
    ensures a[..] == SortSpec(old(a[..]), sortBy)
  {
    ghost var orig := a[..];
    var i := 0;
    while i < a.Length
      invariant 0 <= i <= a.Length
      invariant a[..i] == SortSpec(orig[..i], sortBy)
      invariant a[i..] == orig[i..]
    {
      assert orig[..i + 1] == orig[..i] + [orig[i]];
      assert a[i] == orig[i];
      InsertLast(a, i, sortBy);
      i := i + 1;
    }
    assert orig[..a.Length] == orig;
  }

  /** One pass of insertion sort: moves `a[i]` left past every element it precedes. */
  method InsertLast(a: array<Item>, i: int, sortBy: string)
    requires 0 <= i < a.Length
    modifies a
    ensures a[..i + 1] == Insert(old(a[i]), old(a[..i]), sortBy)
    ensures a[i + 1..] == old(a[i + 1..])
  {
    ghost var sorted := a[..i];
    ghost var tail := a[i + 1..];
    var x := a[i];
    var j := i;
    assert InsertInvariant(a[..], x, j, i, sorted, tail, sortBy);
    while j > 0 && Precedes(x, a[j - 1], sortBy)
      invariant 0 <= j <= i && a.Length == |a[..]|
      invariant InsertInvariant(a[..], x, j, i, sorted, tail, sortBy)
    {
      ghost var before := a[..];
      a[j - 1], a[j] := a[j], a[j - 1];
      ShiftStep(before, a[..], x, j, i, sorted, tail, sortBy);
      j := j - 1;
    }
    InsertDone(a[..], x, j, i, sorted, tail, sortBy);
  }

  /** The state of `InsertLast` with `x` at position `j`: the elements other
      than `x` are the sorted prefix, and inserting `x` there still gives
      the same result as inserting it into the part left of `j`. */
  ghost predicate InsertInvariant(s: seq<Item>, x: Item, j: int, i: int, sorted: seq<Item>,
                                  tail: seq<Item>, sortBy: string)
  {
    0 <= j <= i < |s| && s[j] == x && s[..j] + s[j + 1..i + 1] == sorted &&
    Insert(x, sorted, sortBy) == Insert(x, s[..j], sortBy) + s[j + 1..i + 1] &&
    s[i + 1..] == tail
  }

  lemma ShiftStep(s: seq<Item>, t: seq<Item>, x: Item, j: int, i: int, sorted: seq<Item>,
                  tail: seq<Item>, sortBy: string)
    requires InsertInvariant(s, x, j, i, sorted, tail, sortBy)
    requires 0 < j && Precedes(x, s[j - 1], sortBy)
    requires t == s[j - 1 := x][j := s[j - 1]]
    ensures InsertInvariant(t, x, j - 1, i, sorted, tail, sortBy)
  {
    assert s[..j] == s[..j - 1] + [s[j - 1]];
    assert t[..j - 1] == s[..j - 1];
    assert t[j..i + 1] == [s[j - 1]] + s[j + 1..i + 1];
    assert t[i + 1..] == s[i + 1..];
  }

  lemma InsertDone(s: seq<Item>, x: Item, j: int, i: int, sorted: seq<Item>,
                   tail: seq<Item>, sortBy: string)
    requires InsertInvariant(s, x, j, i, sorted, tail, sortBy)
    requires j == 0 || !Precedes(x, s[j - 1], sortBy)
    ensures s[..i + 1] == Insert(x, sorted, sortBy) && s[i + 1..] == tail
  {
  }

  /** The switch on `sortBy`: an unrecognised key leaves the order as it is. */
  function SortedView(s: seq<Item>, sortBy: string): seq<Item> {
    if IsSortKey(sortBy) then SortSpec(s, sortBy) else s
  }

  /** What the gallery shows for the given items, filters and search term. */
  function View(items: seq<Item>, itemType: string, searchTerm: string, sortBy: string): seq<Item> {
    SortedView(SearchFilter(TypeFilter(items, itemType), searchTerm), sortBy)
  }

  /** The shown list holds exactly the matching items, as many times as the
      source list does; it is sorted by a recognised key, and otherwise keeps
      the source order. */
  lemma ViewSpec(items: seq<Item>, itemType: string, searchTerm: string, sortBy: string)
    ensures var v := View(items, itemType, searchTerm, sortBy);
            (forall x :: multiset(v)[x] ==
               if MatchesType(x, itemType) && MatchesSearch(x, searchTerm) then multiset(items)[x] else 0) &&
            (IsSortKey(sortBy) ==> Sorted(v, sortBy)) &&
            (!IsSortKey(sortBy) ==> IsSubsequence(v, items))
  {
    FilteredExactly(items, itemType, searchTerm);
    SortSpecFacts(SearchFilter(TypeFilter(items, itemType), searchTerm), sortBy);
  }

  // ---------------------------------------------------------------- verification link

  const LOGIN_TO_GENERATE := "You must be logged in to generate a verification link. Please log in."
  const UPLOADER_ONLY := "Unauthorized: You can only generate a verification link for items you have uploaded."
  const NOT_UPLOADER := "You are not authorized to generate a link for this item. Only the uploader can do so."
  const QR_FALLBACK := "Failed to generate QR code for verification."
  const GENERATE_FALLBACK := "Failed to generate verification code."
  const NO_CURRENT_USER := "No current user"
  const NOT_AUTHENTICATED := "User not authenticated"

  /** The message shown when generating a link fails with an error whose
      `message` is `message`: never empty, and one of the three fixed texts
      or the message itself. */
  function QrErrorMessage(message: string): (r: string)
    ensures r != ""
    ensures r == LOGIN_TO_GENERATE || r == NOT_UPLOADER || r == QR_FALLBACK || r == message
    ensures Contains(message, NO_CURRENT_USER) || Contains(message, NOT_AUTHENTICATED) ==> r == LOGIN_TO_GENERATE
    ensures message == "" ==> r == QR_FALLBACK
  {
    if Contains(message, NO_CURRENT_USER) || Contains(message, NOT_AUTHENTICATED) then LOGIN_TO_GENERATE
    else if Contains(message, UPLOADER_ONLY) then NOT_UPLOADER
    else if message != "" then message
    else QR_FALLBACK
  }

  /** An error object whose message says there is no current user, and every
      "not authenticated" error the service layer throws, asks the user to log in.
      (A session lookup that rejects with a bare value never reaches the
      classifier: see `Gallery.GenerateQR`.) */
  lemma AuthErrorsAskForLogin(listing: Listing)
    ensures QrErrorMessage(NO_CURRENT_USER) == LOGIN_TO_GENERATE
    ensures QrErrorMessage(NotAuthenticatedMessage(listing)) == LOGIN_TO_GENERATE
    ensures QrErrorMessage(CLAIM_LOGIN) == LOGIN_TO_GENERATE
    ensures QrErrorMessage(HANDOVER_LOGIN) == LOGIN_TO_GENERATE
  {
    ContainsAt(NO_CURRENT_USER, NO_CURRENT_USER, 0);
    ContainsAt(NotAuthenticatedMessage(listing), NOT_AUTHENTICATED, 0);
    ContainsAt(CLAIM_LOGIN, NOT_AUTHENTICATED, 0);
    ContainsAt(HANDOVER_LOGIN, NOT_AUTHENTICATED, 0);
  }

  /** The backend's uploader-only refusal, wherever it sits in the message, gives
      the not-authorised text unless the message also names a missing user. */
  lemma UploaderRefusalIsNotAuthorized(prefix: string, suffix: string)
    requires var m := prefix + UPLOADER_ONLY + suffix;
             !Contains(m, NO_CURRENT_USER) && !Contains(m, NOT_AUTHENTICATED)
    ensures QrErrorMessage(prefix + UPLOADER_ONLY + suffix) == NOT_UPLOADER
  {
    var m := prefix + UPLOADER_ONLY + suffix;
    assert m[|prefix|..|prefix| + |UPLOADER_ONLY|] == UPLOADER_ONLY;
    ContainsAt(m, UPLOADER_ONLY, |prefix|);
  }

  /** Any other non-empty message is shown as it is. */
  lemma OtherErrorsShownVerbatim(message: string)
    requires message != ""
    requires !Contains(message, NO_CURRENT_USER) && !Contains(message, NOT_AUTHENTICATED)
    requires !Contains(message, UPLOADER_ONLY)
    ensures QrErrorMessage(message) == message
  {
  }

  const VERIFY_PREFIX := "/verify/"

  /** `${window.location.origin}/verify/${data.verificationCode}`; a response
      without a code prints it as `undefined`. */
  function VerificationUrl(origin: string, code: Option<string>): (url: string)
    ensures StartsWith(url, origin + VERIFY_PREFIX)
    ensures code.Some? ==> url[|origin + VERIFY_PREFIX|..] == code.value
    ensures code.None? ==> url[|origin + VERIFY_PREFIX|..] == "undefined"
  {
    origin + VERIFY_PREFIX + (if code.Some? then code.value else "undefined")
  }

  /** The `:verificationCode` parameter of the route `/verify/:verificationCode`. */
  function CodeFromPath(path: string): Option<string> {
    if StartsWith(path, VERIFY_PREFIX) && |path| > |VERIFY_PREFIX| && '/' !in path[|VERIFY_PREFIX|..]
    then Some(path[|VERIFY_PREFIX|..])
    else None
  }

  /** The link is the origin followed by a path from which the verification
      route reads back exactly the returned code. */
  lemma VerificationUrlRoundTrip(origin: string, code: string)
    requires code != "" && '/' !in code
    ensures var url := VerificationUrl(origin, Some(code));
            StartsWith(url, origin) && CodeFromPath(url[|origin|..]) == Some(code)
  {
  }

  /** Reading the code-generation response. */
  function GenerateStep(reply: Reply): (r: Result<Option<string>>)
    ensures r.Ok? <==> reply.Ok() && reply.body.Parsed?
    ensures r.Ok? ==> r.value == reply.body.json.VerificationCode()
    ensures reply.Response? && reply.body.Parsed? && !reply.Ok() ==>
              r.message == OrElse(reply.body.json.Message(), GENERATE_FALLBACK)
    ensures reply.Rejected? ==> r == Err(reply.message)
    ensures reply.Response? && reply.body.Malformed? ==> r == Err(reply.body.error)
  {
    match reply
    case Rejected(m) => Err(m)
    case Response(_, _, _, body) =>
      match body
      case Malformed(e) => Err(e)
      case Parsed(j) =>
        if reply.Ok() then Ok(j.VerificationCode())
        else Err(OrElse(j.Message(), GENERATE_FALLBACK))
  }

  // ---------------------------------------------------------------- the component

  class Gallery {
    var items: seq<Item>
    var filteredItems: seq<Item>
    var selectedItem: Option<Item>
    var showQRModal: bool
    var generatedVerificationCode: string
    var isLoading: bool
    var isGeneratingQR: bool
    var searchTerm: string
    var itemTypeFilter: string
    var sortBy: string
    var error: Option<string>

    constructor ()
      ensures items == [] && filteredItems == [] && selectedItem == None && !showQRModal
      ensures generatedVerificationCode == "" && isLoading && !isGeneratingQR
      ensures searchTerm == "" && itemTypeFilter == ALL && sortBy == NEWEST && error == None
    {
      items, filteredItems, selectedItem, showQRModal := [], [], None, false;
      generatedVerificationCode, isLoading, isGeneratingQR := "", true, false;
      searchTerm, itemTypeFilter, sortBy, error := "", ALL, NEWEST, None;
    }

    /** The mount effect. The service never throws, so the page's
        "Failed to load items" branch is never taken. */
    method Load(net: Network)
      modifies this`items, this`filteredItems, this`error, this`isLoading, net
      ensures net.trace == old(net.trace) + [GalleryGet]
      ensures items == GalleryOutcome(net.ReplyAt(|old(net.trace)|))
      ensures filteredItems == items && error == None && !isLoading
    {
      var data := GetLostItems(net);
      items := data;
      filteredItems := data;
      error := None;
      isLoading := false;
    }

    /** The filter effect: copy, filter by type, filter by search term, sort in place. */
    method ApplyFilters()
      modifies this`filteredItems
      ensures filteredItems == View(items, itemTypeFilter, searchTerm, sortBy)
    {
      var result := items;
      var itemType := itemTypeFilter;
      if itemType != ALL {
        result := Filter(result, (item: Item) => item.itemType == itemType);
      }
      assert result == TypeFilter(items, itemTypeFilter);
      if searchTerm != "" {
        var term := searchTerm;
        result := Filter(result, (item: Item) => MatchesSearch(item, term));
      }
      assert result == SearchFilter(TypeFilter(items, itemTypeFilter), searchTerm);
      if IsSortKey(sortBy) {
        var a := new Item[|result|](i requires 0 <= i < |result| => result[i]);
        assert a[..] == result;
        SortInPlace(a, sortBy);
        result := a[..];
      }
      filteredItems := result;
    }

    /** `handleCloseQRModal`. */
    method CloseQRModal()
      modifies this`showQRModal, this`selectedItem, this`generatedVerificationCode, this`error, this`isGeneratingQR
      ensures !showQRModal && selectedItem == None && generatedVerificationCode == "" && error == None && !isGeneratingQR
    {
      showQRModal := false;
      selectedItem := None;
      generatedVerificationCode := "";
      error := None;
      isGeneratingQR := false;
    }

    method ResetFilters()
      modifies this`searchTerm, this`itemTypeFilter, this`sortBy
      ensures searchTerm == "" && itemTypeFilter == ALL && sortBy == NEWEST
    {
      searchTerm := "";
      itemTypeFilter := ALL;
      sortBy := NEWEST;
    }

    /** `handleGenerateQR(item)`: ask the backend for a code and show its link.
        When the session lookup rejects with a value that has no `message`,
        the catch block's `err.message.includes` throws in turn: `error`
        stays cleared, and only the `finally` block still runs. */
    method GenerateQR(item: Item, session: AuthSession, net: Network, origin: string)
      modifies this`selectedItem, this`generatedVerificationCode, this`error, this`isGeneratingQR,
               this`showQRModal, net
      ensures selectedItem == Some(item) && showQRModal && !isGeneratingQR
      ensures session.NoSession? ==> net.trace == old(net.trace) && generatedVerificationCode == ""
      ensures session.NoSession? && session.reason.Some? ==> error == Some(QrErrorMessage(session.reason.value))
      ensures session.NoSession? && session.reason.None? ==> error == None
      ensures session.Session? ==>
                net.trace == old(net.trace) + [GenerateCodePost(item.itemId, "Bearer " + session.idToken)]
      ensures session.Session? ==>
                var outcome := GenerateStep(net.ReplyAt(|old(net.trace)|));
                (outcome.Ok? ==> generatedVerificationCode == VerificationUrl(origin, outcome.value) && error == None) &&
                (outcome.Err? ==> generatedVerificationCode == "" && error == Some(QrErrorMessage(outcome.message)))
    {
      selectedItem := Some(item);
      generatedVerificationCode := "";
      error := None;
      isGeneratingQR := true;
      showQRModal := true;
      if session.NoSession? {
        if session.reason.Some? {
          error := Some(QrErrorMessage(session.reason.value));
        }
      } else {
        var response := net.Fetch(GenerateCodePost(item.itemId, "Bearer " + session.idToken));
        var outcome := GenerateStep(response);
        if outcome.Ok? {
          generatedVerificationCode := VerificationUrl(origin, outcome.value);
        } else {
          error := Some(QrErrorMessage(outcome.message));
        }
      }
      isGeneratingQR := false;
    }
  }
}
