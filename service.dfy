/** The client's service layer (`src/dynamoService.js`): every backend call
    the app makes. The network is an oracle: a `Network` holds the replies it
    will give, in order, and records every request issued in `trace`, so that
    "which calls were made, in which order" is part of the state.
    Each operation is stated twice: a pure plan (the result and the requests
    issued, given the replies) whose contract states what the source promises,
    and a method over the `Network` that performs the steps and is proved to
    follow the plan. */
module Service {
  import opened Common

  /** What `Auth.currentSession()` gives: a rejection, or a session's id token.
      A rejection carries the `message` of the value it rejects with, or
      `None` when that value has no `message` (a bare string, say). */
  datatype AuthSession = NoSession(reason: Option<string>) | Session(idToken: string)

  /** The image the user picked. */
  datatype File = File(name: string, fileType: string)

  /** The upload form's fields, as handed to `saveItemToDynamoDB`. */
  datatype Draft = Draft(itemType: string, itemName: string, description: string, location: string, dateLost: string)

  /** The metadata record posted to the upload endpoint. */
  datatype Record = Record(
    itemId: string, status: string, itemName: string, description: string,
    location: string, createdAt: string, itemType: string, imageUrl: Option<string>)

  /** The parsed JSON body of a response: an object with the fields the client
      reads (an absent field is `None`), or an array of items. */
  datatype Json =
    | Object(message: Option<string>, uploadUrl: Option<string>, fileUrl: Option<string>,
             verificationCode: Option<string>, itemDetails: Option<Item>)
    | List(items: seq<Item>)
  {
    function Message(): Option<string> { if Object? then message else None }
    function UploadUrl(): Option<string> { if Object? then uploadUrl else None }
    function FileUrl(): Option<string> { if Object? then fileUrl else None }
    function VerificationCode(): Option<string> { if Object? then verificationCode else None }
    function ItemDetails(): Option<Item> { if Object? then itemDetails else None }
  }

  /** What `response.json()` gives: the parsed body, or the parse error's message. */
  datatype Body = Parsed(json: Json) | Malformed(error: string)

  /** What a `fetch` gives: a rejection (network failure) with its message, or a response. */
  datatype Reply =
    | Rejected(message: string)
    | Response(status: nat, statusText: string, text: string, body: Body)
  {
    /** `response.ok`. */
    predicate Ok() { Response? && 200 <= status <= 299 }
  }

  datatype Listing = Uploaded | Claimed

  /** The requests the client issues (URL encoding of path and query parts is not modelled). */
  datatype Request =
    | PresignGet(fileName: string, fileType: string, itemType: string, authorization: string)
    | S3Put(uploadUrl: Option<string>, contentType: string, file: File)
    | MetadataPost(record: Record, authorization: string)
    | GalleryGet
    | UserItemsGet(listing: Listing, authorization: string)
    | VerifyGet(code: string, bearer: Option<string>)
    | ClaimPost(code: string, authorization: string)
    | HandoverPost(itemId: string, authorization: string)
    | GenerateCodePost(itemId: string, authorization: string)

  /** The network seen as an oracle: the k-th request issued gets `ReplyAt(k)`. */
  class Network {
    const script: seq<Reply>
    var trace: seq<Request>

    constructor (script: seq<Reply>)
      ensures this.script == script && trace == []
    {
      this.script := script;
      trace := [];
    }

    /** Requests beyond the script are met by a network failure. */
    function ReplyAt(k: nat): Reply {
      if k < |script| then script[k] else Rejected("Failed to fetch")
    }

    method Fetch(req: Request) returns (reply: Reply)
      modifies this
      ensures trace == old(trace) + [req]
      ensures reply == ReplyAt(|old(trace)|)
    {
      reply := ReplyAt(|trace|);
      trace := trace + [req];
    }
  }

  /** The result of an operation and the requests it issued, in order. */
  datatype Run<T> = Run(result: Result<T>, calls: seq<Request>)

  /** What `saveItemToDynamoDB` returns. */
  datatype Saved = Saved(itemId: string, verificationCode: Option<string>)

  /** Where step 1 of the upload says to put the image, and where it will be readable. */
  datatype Slot = Slot(uploadUrl: Option<string>, fileUrl: Option<string>)

  const IMAGE_REQUIRED := "An image file is required for item upload."
  const CLAIM_LOGIN := "User not authenticated. Please log in to claim an item."
  const HANDOVER_LOGIN := "User not authenticated. Please log in to confirm handover."

  /** `getAuthToken`: never throws; a failed session lookup gives `null`. */
  function GetAuthToken(session: AuthSession): (t: Option<string>)
    ensures t.None? <==> session.NoSession?
    ensures session.Session? ==> t == Some(session.idToken)
  {
    match session
    case NoSession(_) => None
    case Session(token) => Some(token)
  }

  /** The header value `Bearer ${userToken}`, which prints a missing token as `null`. */
  function Bearer(token: Option<string>): string {
    "Bearer " + (if token.Some? then token.value else "null")
  }

  function HttpStatusError(status: nat): string {
    "HTTP error! status: " + NatToString(status)
  }

  // ---------------------------------------------------------------- upload

  function PresignRequest(file: File, itemData: Draft, token: Option<string>): Request {
    PresignGet(file.name, file.fileType, itemData.itemType, Bearer(token))
  }

  /** Step 1: reading the presigned-URL response. The body is parsed on
      every path; a refusal reports the body's message, or "Unknown error". */
  function PresignStep(reply: Reply): (r: Result<Slot>)
    ensures r.Ok? <==> reply.Ok() && reply.body.Parsed?
    ensures r.Ok? ==> r.value == Slot(reply.body.json.UploadUrl(), reply.body.json.FileUrl())
    ensures reply.Response? && reply.body.Parsed? && !reply.Ok() ==>
              r.message == PRESIGN_FAILED + OrElse(reply.body.json.Message(), "Unknown error")
    ensures reply.Rejected? ==> r == Err(reply.message)
    ensures reply.Response? && reply.body.Malformed? ==> r == Err(reply.body.error)
  {
    match reply
    case Rejected(m) => Err(m)
    case Response(_, _, _, body) =>
      match body
      case Malformed(e) => Err(e)
      case Parsed(j) =>
        if reply.Ok() then Ok(Slot(j.UploadUrl(), j.FileUrl()))
        else Err(PRESIGN_FAILED + OrElse(j.Message(), "Unknown error"))
  }

  const PRESIGN_FAILED := "Failed to get presigned URL: "
  const S3_FAILED := "Failed to upload image to S3: "

  const OPEN_TAG := "<Message>"
  const CLOSE_TAG := "</Message>"

  /** The text of the first `<Message>` element of an XML error body, if it
      is closed: from the first opening tag up to the first closing tag after it. */
  function XmlMessage(text: string): (m: Option<string>)
    ensures m.Some? ==> IndexOf(text, OPEN_TAG).Some? &&
                        OccursAt(text, OPEN_TAG + m.value + CLOSE_TAG, IndexOf(text, OPEN_TAG).value)
    ensures m.Some? ==> !Contains(m.value, CLOSE_TAG)
    ensures !Contains(text, OPEN_TAG) ==> m.None?
  {
    match IndexOf(text, OPEN_TAG)
    case None => None
    case Some(i) =>
      match IndexFrom(text, CLOSE_TAG, i + |OPEN_TAG|)
      case None => None
      case Some(j) =>
        XmlElementText(text, i, j);
        Some(text[i + |OPEN_TAG|..j])
  }

  /** The text between an opening tag at `i` and the first closing tag after it at `j`. */
  lemma XmlElementText(text: string, i: nat, j: nat)
    requires OccursAt(text, OPEN_TAG, i) && i + |OPEN_TAG| <= j && OccursAt(text, CLOSE_TAG, j)
    requires forall k :: i + |OPEN_TAG| <= k < j ==> !OccursAt(text, CLOSE_TAG, k)
    ensures OccursAt(text, OPEN_TAG + text[i + |OPEN_TAG|..j] + CLOSE_TAG, i)
    ensures !Contains(text[i + |OPEN_TAG|..j], CLOSE_TAG)
  {
    var start := i + |OPEN_TAG|;
    var m := text[start..j];
    assert text[i..j + |CLOSE_TAG|] == OPEN_TAG + m + CLOSE_TAG;
    forall k: nat | k + |CLOSE_TAG| <= |m|
      ensures !OccursAt(m, CLOSE_TAG, k)
    {
      assert start <= start + k < j;
      SubSlice(text, start, j, k, k + |CLOSE_TAG|);
      assert !OccursAt(text, CLOSE_TAG, start + k);
    }
    ContainsIff(m, CLOSE_TAG);
  }

  /** Two occurrences of the closing tag never overlap: its `<` appears only at its start. */
  lemma CloseTagsApart(text: string, k: nat, j: nat)
    requires OccursAt(text, CLOSE_TAG, k) && OccursAt(text, CLOSE_TAG, j) && k < j
    ensures k + |CLOSE_TAG| <= j
  {
    assert text[j] == text[j..j + |CLOSE_TAG|][0] == '<';
    assert forall d :: 0 < d < |CLOSE_TAG| ==> CLOSE_TAG[d] != '<';
  }

  /** The three parts of a closed element `<Message>x</Message>` at `i`. */
  lemma ElementParts(text: string, i: nat, x: string)
    requires OccursAt(text, OPEN_TAG + x + CLOSE_TAG, i)
    ensures OccursAt(text, OPEN_TAG, i)
    ensures text[i + |OPEN_TAG|..i + |OPEN_TAG| + |x|] == x
    ensures OccursAt(text, CLOSE_TAG, i + |OPEN_TAG| + |x|)
  {
    var e := OPEN_TAG + x + CLOSE_TAG;
    var start := i + |OPEN_TAG|;
    var j := start + |x|;
    assert text[i..i + |e|] == e;
    assert text[i..start] == e[..|OPEN_TAG|] == OPEN_TAG;
    assert text[start..j] == e[|OPEN_TAG|..|OPEN_TAG| + |x|] == x;
    assert text[j..j + |CLOSE_TAG|] == e[|OPEN_TAG| + |x|..] == CLOSE_TAG;
  }

  /** No closing tag starts inside the text of a closed element whose text holds none. */
  lemma NoCloseTagInside(text: string, i: nat, x: string)
    requires OccursAt(text, OPEN_TAG + x + CLOSE_TAG, i)
    requires !Contains(x, CLOSE_TAG)
    ensures forall k :: i + |OPEN_TAG| <= k < i + |OPEN_TAG| + |x| ==> !OccursAt(text, CLOSE_TAG, k)
  {
    ElementParts(text, i, x);
    var start := i + |OPEN_TAG|;
    var j := start + |x|;
    forall k | start <= k < j
      ensures !OccursAt(text, CLOSE_TAG, k)
    {
      if k + |CLOSE_TAG| <= j {
        SubSlice(text, start, j, k - start, k - start + |CLOSE_TAG|);
        ContainsIff(x, CLOSE_TAG);
        assert !OccursAt(x, CLOSE_TAG, k - start);
      } else if OccursAt(text, CLOSE_TAG, k) {
        CloseTagsApart(text, k, j);
      }
    }
  }

  /** A closed `<Message>x</Message>` element that starts at the first opening
      tag, with no closing tag inside `x`, is the message found. */
  lemma XmlMessageOfElement(text: string, i: nat, x: string)
    requires OccursAt(text, OPEN_TAG + x + CLOSE_TAG, i)
    requires forall k :: 0 <= k < i ==> !OccursAt(text, OPEN_TAG, k)
    requires !Contains(x, CLOSE_TAG)
    ensures XmlMessage(text) == Some(x)
  {
    ElementParts(text, i, x);
    NoCloseTagInside(text, i, x);
    var start := i + |OPEN_TAG|;
    var j := start + |x|;
    assert IndexOf(text, OPEN_TAG) == Some(i);
    assert IndexFrom(text, CLOSE_TAG, start) == Some(j);
  }

  /** A body holding a closed `<Message>` element always yields a message. */
  lemma XmlMessageFindsClosedElement(text: string, x: string)
    requires Contains(text, OPEN_TAG + x + CLOSE_TAG)
    ensures XmlMessage(text).Some?
  {
    var k := IndexOf(text, OPEN_TAG + x + CLOSE_TAG).value;
    ElementParts(text, k, x);
    var i := IndexOf(text, OPEN_TAG).value;
    assert i + |OPEN_TAG| <= k + |OPEN_TAG| + |x|;
  }

  /** The diagnostic of a failed S3 PUT: the `<Message>` text of an XML body
      (when there is a non-empty one), otherwise the raw body. */
  function S3Detail(text: string): (d: string)
    ensures !StartsWith(text, "<?xml") ==> d == text
    ensures StartsWith(text, "<?xml") && XmlMessage(text).Some? && XmlMessage(text).value != "" ==>
              d == XmlMessage(text).value
    ensures StartsWith(text, "<?xml") && (XmlMessage(text).None? || XmlMessage(text).value == "") ==> d == text
    ensures d == text || Contains(text, OPEN_TAG + d + CLOSE_TAG)
  {
    if StartsWith(text, "<?xml") then
      match XmlMessage(text)
      case Some(m) =>
        if m != "" then
          ContainsAt(text, OPEN_TAG + m + CLOSE_TAG, IndexOf(text, OPEN_TAG).value);
          m
        else text
      case None => text
    else text
  }

  function S3UploadError(status: nat, statusText: string, text: string): string {
    S3_FAILED + NatToString(status) + " " + statusText + " - " + S3Detail(text)
  }

  /** Step 2: the S3 PUT. Only the status decides; a failure reads the body as text. */
  function PutStep(reply: Reply): (r: Result<()>)
    ensures r.Ok? <==> reply.Ok()
    ensures reply.Response? && !reply.Ok() ==> StartsWith(r.message, S3_FAILED + NatToString(reply.status) + " ")
    ensures reply.Rejected? ==> r == Err(reply.message)
  {
    match reply
    case Rejected(m) => Err(m)
    case Response(status, statusText, text, _) =>
      if reply.Ok() then Ok(()) else Err(S3UploadError(status, statusText, text))
  }

  /** The record of step 3: fresh id, status "active", the date lost as
      `createdAt`, and the public image URL step 1 returned. */
  function NewRecord(itemId: string, itemData: Draft, imageUrl: Option<string>): Record {
    Record(itemId, ACTIVE, itemData.itemName, itemData.description, itemData.location,
           itemData.dateLost, itemData.itemType, imageUrl)
  }

  /** Step 3: the metadata POST's response. Success keeps the id the client
      drew and copies the code the backend returned. */
  function CommitStep(reply: Reply, itemId: string): (r: Result<Saved>)
    ensures r.Ok? <==> reply.Ok() && reply.body.Parsed?
    ensures r.Ok? ==> r.value == Saved(itemId, reply.body.json.VerificationCode())
    ensures reply.Response? && reply.body.Parsed? && !reply.Ok() ==>
              r.message == OrElse(reply.body.json.Message(), HttpStatusError(reply.status))
    ensures reply.Rejected? ==> r == Err(reply.message)
    ensures reply.Response? && reply.body.Malformed? ==> r == Err(reply.body.error)
  {
    match reply
    case Rejected(m) => Err(m)
    case Response(status, _, _, body) =>
      match body
      case Malformed(e) => Err(e)
      case Parsed(j) =>
        if reply.Ok() then Ok(Saved(itemId, j.VerificationCode()))
        else Err(OrElse(j.Message(), HttpStatusError(status)))
  }

  /** `saveItemToDynamoDB` given the replies to its (at most three) requests. */
  function SavePlan(token: Option<string>, itemData: Draft, imageFile: Option<File>, itemId: string,
                    r1: Reply, r2: Reply, r3: Reply): (run: Run<Saved>)
    ensures imageFile.None? ==> run == Run(Err(IMAGE_REQUIRED), [])
    ensures imageFile.Some? ==> |run.calls| >= 1 && run.calls[0] == PresignRequest(imageFile.value, itemData, token)
    ensures |run.calls| <= 3
    ensures imageFile.Some? && PresignStep(r1).Err? ==> |run.calls| == 1 && run.result == Err(PresignStep(r1).message)
    ensures PresignStep(r1).Ok? && PutStep(r2).Err? && imageFile.Some? ==>
              |run.calls| == 2 && run.result == Err(PutStep(r2).message)
    ensures forall k :: 0 <= k < |run.calls| && run.calls[k].MetadataPost? ==>
              k == 2 && PresignStep(r1).Ok? && PutStep(r2).Ok? &&
              run.calls[k].record == NewRecord(itemId, itemData, PresignStep(r1).value.fileUrl)
    ensures imageFile.Some? && PresignStep(r1).Ok? ==>
              |run.calls| >= 2 &&
              run.calls[1] == S3Put(PresignStep(r1).value.uploadUrl, imageFile.value.fileType, imageFile.value)
    ensures imageFile.Some? && PresignStep(r1).Ok? && PutStep(r2).Ok? ==>
              |run.calls| == 3 &&
              run.calls[2] == MetadataPost(NewRecord(itemId, itemData, PresignStep(r1).value.fileUrl), Bearer(token)) &&
              run.result == CommitStep(r3, itemId)
    ensures run.result.Ok? ==> |run.calls| == 3 && run.calls[2].MetadataPost?
    ensures run.result.Ok? ==> run.result.value.itemId == itemId
    ensures run.result.Ok? ==>
              r3.Response? && r3.body.Parsed? &&
              run.result.value.verificationCode == r3.body.json.VerificationCode()
  {
    if imageFile.None? then Run(Err(IMAGE_REQUIRED), [])
    else
      var file := imageFile.value;
      var presign := PresignRequest(file, itemData, token);
      match PresignStep(r1)
      case Err(m) => Run(Err(m), [presign])
      case Ok(slot) =>
        var put := S3Put(slot.uploadUrl, file.fileType, file);
        match PutStep(r2)
        case Err(m) => Run(Err(m), [presign, put])
        case Ok(_) =>
          var post := MetadataPost(NewRecord(itemId, itemData, slot.fileUrl), Bearer(token));
          Run(CommitStep(r3, itemId), [presign, put, post])
  }

  /** `saveItemToDynamoDB(itemData, imageFile)`; `newId` is what `uuidv4()` returns. */
  method SaveItem(net: Network, session: AuthSession, itemData: Draft, imageFile: Option<File>, newId: string)
    returns (r: Result<Saved>)
    modifies net
    ensures var n := |old(net.trace)|;
            var run := SavePlan(GetAuthToken(session), itemData, imageFile, newId,
                                net.ReplyAt(n), net.ReplyAt(n + 1), net.ReplyAt(n + 2));
            r == run.result && net.trace == old(net.trace) + run.calls
  {
    var userToken := GetAuthToken(session);
    var imageUrl: Option<string> := None;
    if imageFile.None? {
      return Err(IMAGE_REQUIRED);
    }
    var file := imageFile.value;
    var presignReply := net.Fetch(PresignRequest(file, itemData, userToken));
    var slot := PresignStep(presignReply);
    if slot.Err? {
      return Err(slot.message);
    }
    imageUrl := slot.value.fileUrl;
    var putReply := net.Fetch(S3Put(slot.value.uploadUrl, file.fileType, file));
    var put := PutStep(putReply);
    if put.Err? {
      return Err(put.message);
    }
    var dataToSend := NewRecord(newId, itemData, imageUrl);
    var postReply := net.Fetch(MetadataPost(dataToSend, Bearer(userToken)));
    r := CommitStep(postReply, dataToSend.itemId);
  }

  /** The upload never checks the token it fetched: without a session it still
      sends all three requests, authorised as `Bearer null`. */
  lemma SaveIgnoresMissingToken(itemData: Draft, file: File, itemId: string, r1: Reply, r2: Reply, r3: Reply)
    requires PresignStep(r1).Ok? && PutStep(r2).Ok?
    ensures var run := SavePlan(None, itemData, Some(file), itemId, r1, r2, r3);
            |run.calls| == 3 && run.calls[0].authorization == "Bearer null" &&
            run.calls[2].authorization == "Bearer null"
  {
  }

  /** A failed S3 PUT whose XML body holds a non-empty first `<Message>`
      element reports that element's text. */
  lemma PutFailureReportsXmlMessage(status: nat, statusText: string, text: string, body: Body, i: nat, x: string)
    requires !(200 <= status <= 299) && StartsWith(text, "<?xml")
    requires OccursAt(text, OPEN_TAG + x + CLOSE_TAG, i)
    requires forall k :: 0 <= k < i ==> !OccursAt(text, OPEN_TAG, k)
    requires x != "" && !Contains(x, CLOSE_TAG)
    ensures PutStep(Response(status, statusText, text, body)) ==
            Err("Failed to upload image to S3: " + NatToString(status) + " " + statusText + " - " + x)
  {
    XmlMessageOfElement(text, i, x);
  }

  /** A failed S3 PUT that answered with a non-XML body reports that body verbatim. */
  lemma PutFailureReportsBody(status: nat, statusText: string, text: string, body: Body)
    requires !(200 <= status <= 299) && !StartsWith(text, "<?xml")
    ensures PutStep(Response(status, statusText, text, body)) ==
            Err("Failed to upload image to S3: " + NatToString(status) + " " + statusText + " - " + text)
  {
  }

  // ---------------------------------------------------------------- listings

  /** The list a response body holds; a body that is not an array is read as empty. */
  function ListItems(j: Json): seq<Item> {
    if j.List? then j.items else []
  }

  /** `getLostItemsFromDynamoDB`'s result: it never throws, and any failure gives `[]`. */
  function GalleryOutcome(reply: Reply): (items: seq<Item>)
    ensures !reply.Ok() ==> items == []
    ensures reply.Ok() && reply.body.Parsed? && reply.body.json.List? ==> items == reply.body.json.items
    ensures reply.Ok() && !(reply.body.Parsed? && reply.body.json.List?) ==> items == []
  {
    if reply.Ok() && reply.body.Parsed? then ListItems(reply.body.json) else []
  }

  method GetLostItems(net: Network) returns (items: seq<Item>)
    modifies net
    ensures net.trace == old(net.trace) + [GalleryGet]
    ensures items == GalleryOutcome(net.ReplyAt(|old(net.trace)|))
  {
    var response := net.Fetch(GalleryGet);
    if response.Rejected? {
      return [];
    }
    if !response.body.Parsed? {
      return [];
    }
    if !response.Ok() {
      return [];
    }
    items := ListItems(response.body.json);
  }

  function ListingName(listing: Listing): string {
    match listing
    case Uploaded => "uploaded"
    case Claimed => "claimed"
  }

  function NotAuthenticatedMessage(listing: Listing): string {
    "User not authenticated for fetching " + ListingName(listing) + " items."
  }

  function UnauthorizedMessage(listing: Listing): string {
    "Unauthorized to view your " + ListingName(listing) + " items. Please ensure you are logged in correctly."
  }

  /** Reading a user-listing response: the body is parsed first; then 401 and
      403 give a fixed message, other failures the body's message or the status. */
  function ListingStep(listing: Listing, reply: Reply): (r: Result<seq<Item>>)
    ensures r.Ok? <==> reply.Ok() && reply.body.Parsed?
    ensures r.Ok? ==> r.value == ListItems(reply.body.json)
    ensures r.Ok? && reply.body.json.List? ==> r.value == reply.body.json.items
    ensures reply.Rejected? ==> r == Err(reply.message)
    ensures reply.Response? && reply.body.Malformed? ==> r == Err(reply.body.error)
    ensures reply.Response? && reply.body.Parsed? && !reply.Ok() && reply.status != 401 && reply.status != 403 ==>
              r == Err(OrElse(reply.body.json.Message(), HttpStatusError(reply.status)))
    ensures reply.Response? && reply.body.Parsed? && (reply.status == 401 || reply.status == 403) ==>
              r == Err(UnauthorizedMessage(listing))
    ensures reply.Response? && reply.body.Parsed? && !reply.Ok() && reply.status != 401 && reply.status != 403 &&
            !Truthy(reply.body.json.Message()) ==>
              r == Err(HttpStatusError(reply.status)) && r.message != UnauthorizedMessage(listing)
  {
    match reply
    case Rejected(m) => Err(m)
    case Response(status, _, _, body) =>
      match body
      case Malformed(e) => Err(e)
      case Parsed(j) =>
        if reply.Ok() then Ok(ListItems(j))
        else if status == 401 || status == 403 then Err(UnauthorizedMessage(listing))
        else
          assert HttpStatusError(status)[0] != UnauthorizedMessage(listing)[0];
          Err(OrElse(j.Message(), HttpStatusError(status)))
  }

  function UserItemsPlan(listing: Listing, token: Option<string>, reply: Reply): (run: Run<seq<Item>>)
    ensures !Truthy(token) ==> run == Run(Err(NotAuthenticatedMessage(listing)), [])
    ensures Truthy(token) ==> run.calls == [UserItemsGet(listing, "Bearer " + token.value)]
    ensures run.result.Ok? ==> Truthy(token) && reply.Ok() && reply.body.Parsed? &&
                               run.result.value == ListItems(reply.body.json)
    ensures Truthy(token) ==> run.result == ListingStep(listing, reply)
    ensures Truthy(token) && reply.Ok() && reply.body.Parsed? ==> run.result == Ok(ListItems(reply.body.json))
    ensures Truthy(token) && reply.Response? && reply.body.Parsed? && (reply.status == 401 || reply.status == 403) ==>
              run.result == Err(UnauthorizedMessage(listing))
  {
    if !Truthy(token) then Run(Err(NotAuthenticatedMessage(listing)), [])
    else Run(ListingStep(listing, reply), [UserItemsGet(listing, "Bearer " + token.value)])
  }

  method GetUserItems(net: Network, session: AuthSession, listing: Listing) returns (r: Result<seq<Item>>)
    modifies net
    ensures var run := UserItemsPlan(listing, GetAuthToken(session), net.ReplyAt(|old(net.trace)|));
            r == run.result && net.trace == old(net.trace) + run.calls
  {
    var userToken := GetAuthToken(session);
    if !Truthy(userToken) {
      return Err(NotAuthenticatedMessage(listing));
    }
    var response := net.Fetch(UserItemsGet(listing, "Bearer " + userToken.value));
    r := ListingStep(listing, response);
  }

  /** `getUploadedItemsFromDynamoDB`. */
  method GetUploadedItems(net: Network, session: AuthSession) returns (r: Result<seq<Item>>)
    modifies net
    ensures var run := UserItemsPlan(Uploaded, GetAuthToken(session), net.ReplyAt(|old(net.trace)|));
            r == run.result && net.trace == old(net.trace) + run.calls
  {
    r := GetUserItems(net, session, Uploaded);
  }

  /** `getClaimedItemsFromDynamoDB`. */
  method GetClaimedItems(net: Network, session: AuthSession) returns (r: Result<seq<Item>>)
    modifies net
    ensures var run := UserItemsPlan(Claimed, GetAuthToken(session), net.ReplyAt(|old(net.trace)|));
            r == run.result && net.trace == old(net.trace) + run.calls
  {
    r := GetUserItems(net, session, Claimed);
  }

  // ---------------------------------------------------------------- verification, claim, handover

  /** The `Authorization` header of a code lookup: attached only when a token exists. */
  function AuthHeader(token: Option<string>): Option<string> {
    if Truthy(token) then Some("Bearer " + token.value) else None
  }

  /** Reading the response of a code lookup, a claim or a handover: the body
      is parsed first; a failure throws the body's message or `fallback` and the status. */
  function ActionStep(reply: Reply, fallback: string): (r: Result<Json>)
    ensures r.Ok? <==> reply.Ok() && reply.body.Parsed?
    ensures r.Ok? ==> r.value == reply.body.json
    ensures reply.Rejected? ==> r == Err(reply.message)
    ensures reply.Response? && reply.body.Malformed? ==> r == Err(reply.body.error)
    ensures reply.Response? && reply.body.Parsed? && !reply.Ok() ==>
              r == Err(OrElse(reply.body.json.Message(), fallback + NatToString(reply.status)))
  {
    match reply
    case Rejected(m) => Err(m)
    case Response(status, _, _, body) =>
      match body
      case Malformed(e) => Err(e)
      case Parsed(j) =>
        if reply.Ok() then Ok(j)
        else Err(OrElse(j.Message(), fallback + NatToString(status)))
  }

  const LOOKUP_FAILED := "HTTP error! status: "
  const CLAIM_FAILED := "Failed to claim item. Status: "
  const HANDOVER_FAILED := "Failed to confirm handover. Status: "

  /** `getLostItemByVerificationCode(code)`: one request, authorised only if a token exists. */
  method GetItemByCode(net: Network, session: AuthSession, code: string) returns (r: Result<Json>)
    modifies net
    ensures var token := GetAuthToken(session);
            net.trace == old(net.trace) + [VerifyGet(code, AuthHeader(token))]
    ensures r == ActionStep(net.ReplyAt(|old(net.trace)|), LOOKUP_FAILED)
  {
    var userToken := GetAuthToken(session);
    var authorization: Option<string> := None;
    if Truthy(userToken) {
      authorization := Some("Bearer " + userToken.value);
    }
    var response := net.Fetch(VerifyGet(code, authorization));
    r := ActionStep(response, LOOKUP_FAILED);
  }

  function ClaimPlan(token: Option<string>, code: string, reply: Reply): (run: Run<Json>)
    ensures !Truthy(token) ==> run == Run(Err(CLAIM_LOGIN), [])
    ensures Truthy(token) ==> run.calls == [ClaimPost(code, "Bearer " + token.value)]
    ensures run.result.Ok? ==> Truthy(token) && reply.Ok()
    ensures Truthy(token) ==> run.result == ActionStep(reply, CLAIM_FAILED)
    ensures Truthy(token) && reply.Ok() && reply.body.Parsed? ==> run.result == Ok(reply.body.json)
  {
    if !Truthy(token) then Run(Err(CLAIM_LOGIN), [])
    else Run(ActionStep(reply, CLAIM_FAILED), [ClaimPost(code, "Bearer " + token.value)])
  }

  /** `claimItem(code)`. */
  method ClaimItem(net: Network, session: AuthSession, code: string) returns (r: Result<Json>)
    modifies net
    ensures var run := ClaimPlan(GetAuthToken(session), code, net.ReplyAt(|old(net.trace)|));
            r == run.result && net.trace == old(net.trace) + run.calls
  {
    var userToken := GetAuthToken(session);
    if !Truthy(userToken) {
      return Err(CLAIM_LOGIN);
    }
    var response := net.Fetch(ClaimPost(code, "Bearer " + userToken.value));
    r := ActionStep(response, CLAIM_FAILED);
  }

  function HandoverPlan(token: Option<string>, itemId: string, reply: Reply): (run: Run<Json>)
    ensures !Truthy(token) ==> run == Run(Err(HANDOVER_LOGIN), [])
    ensures Truthy(token) ==> run.calls == [HandoverPost(itemId, "Bearer " + token.value)]
    ensures run.result.Ok? ==> Truthy(token) && reply.Ok()
    ensures Truthy(token) ==> run.result == ActionStep(reply, HANDOVER_FAILED)
    ensures Truthy(token) && reply.Ok() && reply.body.Parsed? ==> run.result == Ok(reply.body.json)
  {
    if !Truthy(token) then Run(Err(HANDOVER_LOGIN), [])
    else Run(ActionStep(reply, HANDOVER_FAILED), [HandoverPost(itemId, "Bearer " + token.value)])
  }

  /** `confirmHandover(itemId)`. */
  method ConfirmHandover(net: Network, session: AuthSession, itemId: string) returns (r: Result<Json>)
    modifies net
    ensures var run := HandoverPlan(GetAuthToken(session), itemId, net.ReplyAt(|old(net.trace)|));
            r == run.result && net.trace == old(net.trace) + run.calls
  {
    var userToken := GetAuthToken(session);
    if !Truthy(userToken) {
      return Err(HANDOVER_LOGIN);
    }
    var response := net.Fetch(HandoverPost(itemId, "Bearer " + userToken.value));
    r := ActionStep(response, HANDOVER_FAILED);
  }
}
