# LOSTit client protocol core, in Dafny

LOSTit is a React client for a lost-and-found service. A user reports a lost
or found item with a photo. The item appears in a public gallery. The
uploader generates a verification link (shown as a QR code) for an item. Whoever
opens that link sees the item and may claim it. The uploader then confirms
the handover from their profile.

This project models the client-side logic behind that flow:

- `service.dfy` (`src/dynamoService.js`):
  - the three-step upload (presigned URL, S3 PUT, metadata POST);
  - the gallery listing and the two user listings;
  - the code lookup, the claim and the handover confirmation.

  The network is an oracle. A `Network` object holds a script of replies and
  records every request in `trace`, so properties about the order of requests,
  of aborting and of "no request made" become statements about that trace.
  Each method is proved against a pure *plan* function
  (`SavePlan`, `UserItemsPlan`, `ClaimPlan`, `HandoverPlan`) that gives the
  result and the requests issued; the properties are proved about the plans.
  Amplify's session is the `AuthSession` parameter.
- `gallery.dfy` (`src/components/LostItemsGallery.js`): the type filter, the
  case-insensitive search, and the four sort orders. The sort is an in-place
  stable insertion sort on an `array`, proved equal to a functional
  specification (`SortSpec`) that is itself proved sorted, a permutation and
  idempotent. The file also holds the verification-link builder and the
  error classifier of the QR dialog, and the page state as a class.
- `verify_item.dfy` (`src/components/VerifyItem.js`): the session-storage
  cache of verified codes (a `map<string, string>`), the once-per-mount fetch
  guard, the claim handler and the claim-button guard.
- `user_profile.dfy` (`src/components/UserProfile.js`): the mount effect with
  its signed-out branch, the local update after a confirmed handover, the
  confirm-button guard and the status badge.
- `upload_form.dfy` (`src/components/UploadLostItemForm.js`): field edits,
  the image choice and the submission.
- `common.dfy` and `codec.dfy`: the item record, JavaScript truthiness, ASCII
  lower-casing, `includes`/`indexOf`, number printing, and a text encoding
  standing in for `JSON.stringify`/`JSON.parse`. Its round trip is proved.

## Model

| member | source | states |
|---|---|---|
| Service.SavePlan | src/dynamoService.js:26-122 | No image: the error "An image file is required…" and no request at all. Otherwise the presign request comes first, and a failed presign stops after 1 request. After a successful presign the second request is the PUT of the file to the returned upload URL with the file's type, and a failed PUT stops there. After a successful presign and PUT the third request is the metadata POST of `NewRecord(id, form, fileUrl)` (status `active`, `createdAt` = date lost) authorised with the token, and the result is `CommitStep` of its reply: ok iff that reply is ok and parsed, with the sent id and the returned code, and otherwise the body's message or the HTTP status, or the network or parse error passed on. A metadata POST is never sent in any other case. |
| Service.SaveItem | src/dynamoService.js:26-122 | The method issues exactly the requests of `SavePlan` and returns its result. |
| Service.SaveIgnoresMissingToken | src/dynamoService.js:27-104 | Without a session the upload still sends all three requests, authorised as `Bearer null`. The token is never checked. |
| Service.GetAuthToken | src/dynamoService.js:15-23 | The token lookup never fails: a rejected session gives no token, and a session gives its id token. |
| Service.PresignStep | src/dynamoService.js:35-49 | Step 1 succeeds iff the response is ok and parsed, and then yields the body's upload and file URLs. A refusal gives "Failed to get presigned URL: " with the body's message or "Unknown error". A network failure or an unparsable body passes its message on. |
| Service.PutStep | src/dynamoService.js:55-73 | Step 2 succeeds iff the PUT response is ok, whatever its body. A refusal's message starts "Failed to upload image to S3: " and the status. A network failure passes its message on. |
| Service.CommitStep | src/dynamoService.js:98-117 | Step 3 succeeds iff the response is ok and parsed, and then yields the client's id and the code from the body. A refusal gives the body's message or "HTTP error! status: N". A network failure or an unparsable body passes its message on. |
| Service.XmlMessage | src/dynamoService.js:65-68 | A found message `m` is the text of the element `<Message>m</Message>` that starts at the first `<Message>` of the body, and holds no closing tag. A body without `<Message>` gives none. |
| Service.XmlMessageOfElement | src/dynamoService.js:65-68 | A closed element `<Message>x</Message>` at the first opening tag, with no closing tag in `x`, gives exactly `x`. |
| Service.XmlMessageFindsClosedElement | src/dynamoService.js:65-68 | A body that holds any closed `<Message>` element yields a message. |
| Service.XmlElementText | src/dynamoService.js:66-68 | The text between an opening tag and the first closing tag after it forms, with those tags, the element at the opening tag, and contains no closing tag. |
| Service.S3Detail | src/dynamoService.js:63-73 | A body not starting with `<?xml` is reported verbatim. An XML body with a non-empty first `<Message>` reports that message. An XML body without one, or with an empty one, is reported verbatim. |
| Service.PutFailureReportsBody | src/dynamoService.js:63-73 | A failed PUT with a non-XML body gives "Failed to upload image to S3: status statusText - body". |
| Service.PutFailureReportsXmlMessage | src/dynamoService.js:63-73 | A failed PUT whose XML body holds a non-empty first `<Message>x</Message>` gives "Failed to upload image to S3: status statusText - x". |
| Service.GalleryOutcome | src/dynamoService.js:124-141 | The gallery listing never throws. A reply that is not ok gives `[]`. An ok reply whose body is an array gives exactly that array. Any other body gives `[]`. |
| Service.GetLostItems | src/dynamoService.js:124-141 | One GET of the gallery, with `GalleryOutcome` of its reply as the result. |
| Service.ListingStep | src/dynamoService.js:158-170 | The listing succeeds iff the response is ok and parsed, and the value is then the items of the body. A 401/403 gives the fixed "Unauthorized to view your … items" message. Any other refusal gives the body's message, or "HTTP error! status: N" when it has none, which is never the 401/403 message. A network failure or an unparsable body passes its message on. |
| Service.UserItemsPlan | src/dynamoService.js:143-175 | With no token the result is "User not authenticated for fetching … items." and no request is made. With a token there is exactly one authorised GET and the result is `ListingStep` of its reply: an ok parsed reply succeeds with the items of the body, and a 401/403 gives the unauthorised message. Success needs a token and an ok parsed reply. |
| Service.GetUserItems | src/dynamoService.js:143-209 | Issues exactly the requests of `UserItemsPlan` and returns its result. |
| Service.GetUploadedItems | src/dynamoService.js:143-175 | `UserItemsPlan` for the uploaded listing. |
| Service.GetClaimedItems | src/dynamoService.js:177-209 | `UserItemsPlan` for the claimed listing. |
| Service.ActionStep | src/dynamoService.js:227-234 | The result is ok iff the response is ok and its body parses, and the value is the parsed body. A refusal gives the body's message, or the fallback text followed by the status. A network failure or an unparsable body passes its message on. |
| Service.GetItemByCode | src/dynamoService.js:213-239 | One GET for the code. It carries `Authorization: Bearer <token>` exactly when a token exists. |
| Service.ClaimPlan | src/dynamoService.js:242-272 | With no token: the login error and no request. With a token: exactly one authorised claim POST, whose result is `ActionStep` of the reply with the "Failed to claim item. Status: " fallback; an ok parsed reply succeeds with its body. Success needs a token and an ok reply. |
| Service.ClaimItem | src/dynamoService.js:242-272 | Issues exactly the requests of `ClaimPlan` and returns its result. |
| Service.HandoverPlan | src/dynamoService.js:275-305 | With no token: the login error and no request. With a token: exactly one authorised handover POST, whose result is `ActionStep` of the reply with the "Failed to confirm handover. Status: " fallback; an ok parsed reply succeeds with its body. Success needs a token and an ok reply. |
| Service.ConfirmHandover | src/dynamoService.js:275-305 | Issues exactly the requests of `HandoverPlan` and returns its result. |
| Service.Network.Fetch | src/dynamoService.js:225 | Each request is appended to the trace, and the k-th request gets the k-th scripted reply. |
| Gallery.Filter | src/components/LostItemsGallery.js:57-68 | Every kept element satisfies the predicate. Each element is kept as often as it occurs iff it satisfies the predicate. The result is a subsequence of the input. |
| Gallery.FilteredExactly | src/components/LostItemsGallery.js:54-68 | Type filter then search keep exactly the items matching both, with their multiplicities, in their original relative order. With type `all` nothing is filtered by type. |
| Gallery.SearchMeaning | src/components/LostItemsGallery.js:62-68 | With a non-empty term, a kept item has the lower-cased term inside the lower-cased name, description or location. Absent fields never match. |
| Gallery.SubsequenceTrans | src/components/LostItemsGallery.js:54-68 | Filtering a filtered list keeps the original relative order. |
| Gallery.LexLessAsymmetric | src/components/LostItemsGallery.js:81-88 | The name order used for `localeCompare` is asymmetric. |
| Gallery.PrecedesAsymmetric | src/components/LostItemsGallery.js:72-91 | No two items each sort before the other, under any key. |
| Gallery.InsertPermutes | src/components/LostItemsGallery.js:72-91 | Inserting adds exactly one copy of the element and nothing else. |
| Gallery.InsertSorted | src/components/LostItemsGallery.js:72-91 | Inserting into a sorted list keeps it sorted. |
| Gallery.SortedAppend | src/components/LostItemsGallery.js:72-91 | Appending an element that does not sort before the last one keeps a list sorted. |
| Gallery.SortSpecFacts | src/components/LostItemsGallery.js:72-91 | The sort gives a permutation of its input (same multiset), sorted by the chosen key. |
| Gallery.SortSpecOfSorted | src/components/LostItemsGallery.js:72-91 | Sorting a sorted list changes nothing, so sorting is idempotent. |
| Gallery.SortedByDate | src/components/LostItemsGallery.js:73-80 | `newest` gives dates non-increasing over every pair of positions and `oldest` non-decreasing. A missing date counts as 0. |
| Gallery.SortInPlace | src/components/LostItemsGallery.js:72-91 | The in-place array sort leaves exactly `SortSpec` of the original contents. |
| Gallery.InsertLast | src/components/LostItemsGallery.js:72-91 | One pass moves the last element of the prefix to its stable place and leaves the rest of the array alone. |
| Gallery.ShiftStep | src/components/LostItemsGallery.js:72-91 | One swap of the insertion pass keeps that pass's invariant. |
| Gallery.InsertDone | src/components/LostItemsGallery.js:72-91 | When the insertion pass stops, the prefix equals the specified insertion. |
| Gallery.ViewSpec | src/components/LostItemsGallery.js:53-94 | The shown list holds exactly the matching items, as often as the source. It is sorted under a recognised key and keeps the source order under any other key. |
| Gallery.Gallery.ApplyFilters | src/components/LostItemsGallery.js:53-94 | `filteredItems` becomes `View(items, type, search, sortBy)`. `items` is not touched. |
| Gallery.Gallery.Load | src/components/LostItemsGallery.js:34-50 | The mount issues one gallery GET. Items and the filtered list become its outcome, and there is no error. |
| Gallery.Gallery.ResetFilters | src/components/LostItemsGallery.js:157-163 | Search becomes `""`, type `all` and sort `newest`. |
| Gallery.Gallery.GenerateQR | src/components/LostItemsGallery.js:97-145 | Without a session: no request. A session rejection that carries a message shows the classified message. One without a message leaves the error cleared, because the catch block itself throws. With a session: one authorised POST. Success shows `origin/verify/code` and failure the classified message. The dialog is open and not loading afterwards. |
| Gallery.Gallery.CloseQRModal | src/components/LostItemsGallery.js:148-154 | The dialog state is cleared. |
| Gallery.QrErrorMessage | src/components/LostItemsGallery.js:132-141 | The shown error is never empty. It is the login text, the not-uploader text, the fallback or the message itself. A message naming no current user or missing authentication gives the login text, and an empty message the fallback. |
| Gallery.AuthErrorsAskForLogin | src/components/LostItemsGallery.js:134-135 | An error whose message is "No current user", and the service's "User not authenticated…" errors, give the login message. |
| Gallery.UploaderRefusalIsNotAuthorized | src/components/LostItemsGallery.js:136-137 | A message containing the uploader-only refusal anywhere gives the not-authorised message. |
| Gallery.OtherErrorsShownVerbatim | src/components/LostItemsGallery.js:139-141 | Any other non-empty message is shown as it is. |
| Gallery.VerificationUrlRoundTrip | src/components/LostItemsGallery.js:130 | The link is the origin followed by `/verify/` and the code. The `/verify/:verificationCode` route reads back exactly that code. |
| Gallery.VerificationUrl | src/components/LostItemsGallery.js:129-130 | The link starts with the origin and `/verify/`, followed by the returned code, or by `undefined` when the response has none. |
| Gallery.GenerateStep | src/components/LostItemsGallery.js:111-128 | The code request succeeds iff the response is ok and parsed, and yields the body's code. A refusal gives the body's message or "Failed to generate verification code.". A network failure or an unparsable body passes its message on. |
| VerifyItem.CachedDetails | src/components/VerifyItem.js:31-47 | A hit needs the flag `"true"` and details that parse to an item. The hit is exactly the item the stored details parse to. A missing entry, `null` or unparsable text is a miss. |
| VerifyItem.KeysDistinct | src/components/VerifyItem.js:31-32 | The flag and details keys are injective in the code and never collide with each other. |
| VerifyItem.CachedAfterStore | src/components/VerifyItem.js:61-69 | After a successful lookup with details, the next mount for that code is served those details from the cache. |
| VerifyItem.NothingCachedWithoutDetails | src/components/VerifyItem.js:40-69 | A lookup without details stores nothing that counts as a hit, so the next mount fetches again. |
| VerifyItem.StoreIsolated | src/components/VerifyItem.js:68-69 | Storing one code's result leaves the cache answer for every other code unchanged. |
| VerifyItem.VerifyPage.RunEffect | src/components/VerifyItem.js:20-84 | Once fetched, the effect does nothing. An empty code fails with no request and leaves the details as they were. A hit shows the cached details with no request and without setting the guard. Otherwise it sets the guard and issues one lookup. Success shows the details and writes both keys; failure shows the error and writes nothing. |
| VerifyItem.VerifyPage.MountTwice | src/components/VerifyItem.js:18-54 | Running the effect twice, as strict mode does, issues at most one request. |
| VerifyItem.VerifyPage.HandleClaim | src/components/VerifyItem.js:86-104 | One claim per `ClaimPlan`. Success sets the message, status `claimed` and navigation to `/my-profile`. Failure sets the error message and keeps the status. `isClaiming` ends false. |
| VerifyItem.ClaimButtonUsable | src/components/VerifyItem.js:214-219 | The button can be pressed iff the lookup succeeded, details exist, the item is not handed over, no claim is in flight, and it is not pending with a claimant. |
| VerifyItem.ClaimableWhenOpen | src/components/VerifyItem.js:214-219 | An item neither pending nor handed over, including one with no status, is claimable. |
| VerifyItem.PendingWithoutClaimantClaimable | src/components/VerifyItem.js:219 | A pending item with no recorded claimant is still claimable. |
| VerifyItem.DisabledButtonLabel | src/components/VerifyItem.js:219-226 | The label reads "Claim This Item" iff the button is enabled. |
| VerifyItem.NoButtonAfterClaim | src/components/VerifyItem.js:214-216 | After a successful claim the button is gone. |
| VerifyItem.ClaimNeedsLogin | src/components/VerifyItem.js:92-99 | Claiming without a session issues no request, and the page shows the service's login message. |
| UserProfile.MarkHandedOver | src/components/UserProfile.js:69-71 | Same length. Every item with the id gets status `handed_over` with all other fields kept, and every other item is unchanged. |
| UserProfile.MarkChangesOneElement | src/components/UserProfile.js:69-71 | With unique ids exactly the one element changes, and only in its status. |
| UserProfile.MarkKeepsIds | src/components/UserProfile.js:69-71 | Ids and order are preserved. |
| UserProfile.MarkIdempotent | src/components/UserProfile.js:69-71 | Confirming twice is the same as confirming once. |
| UserProfile.MarkUnknownIdNoop | src/components/UserProfile.js:69-71 | An id not in the list changes nothing. |
| UserProfile.HandedOverIsFinal | src/components/UserProfile.js:202-210 | A handed-over item offers neither the confirm button nor the claim button. |
| UserProfile.ConfirmShown | src/components/UserProfile.js:202 | The confirm button is only ever shown for an item pending handover. |
| UserProfile.ConfirmMatchesClaimPending | src/components/UserProfile.js:202 | The confirm button shows exactly when the verification page disables its claim button as "Claim Initiated" (pending with a claimant). |
| UserProfile.ProfilePage.HandleConfirmHandover | src/components/UserProfile.js:62-77 | Declined: no request and no change. Confirmed: one request per `HandoverPlan`. Success alerts and marks the item handed over; failure alerts with the message and leaves the list unchanged. |
| UserProfile.ProfilePage.Mount | src/components/UserProfile.js:19-60 | Signed out: both errors are the login message, both loading flags are false, there is no user and no request. Signed in: the uploaded listing then the claimed listing, each failure setting its own error. |
| UserProfile.ProfileScreen | src/components/UserProfile.js:84-111 | Spinner iff either list is loading. Lists iff nothing is loading and neither error is set. |
| UserProfile.SignedOutScreen | src/components/UserProfile.js:93-107 | Signed out, the page shows the login message with the link home. |
| UserProfile.UploadedErrorFirst | src/components/UserProfile.js:99 | The uploaded-list error is shown ahead of the claimed-list error. |
| UserProfile.SpaceUnderscores | src/components/UserProfile.js:167 | Every `_` becomes a space, and every other character and the length are kept. |
| UserProfile.StatusLabel | src/components/UserProfile.js:167 | A badge never shows `_`. A present status keeps its length. An absent or empty status shows `Unknown`. |
| UserProfile.StatusLabelPlain | src/components/UserProfile.js:167 | A status without underscores is shown as it is. |
| UserProfile.StatusLabelsOfLifecycle | src/components/UserProfile.js:163-167 | The three lifecycle states get three different badges. |
| UserProfile.StatusLabelInjective | src/components/UserProfile.js:167 | Distinct statuses without underscores get distinct badges. |
| UploadForm.WithFieldSpec | src/components/UploadLostItemForm.js:23-29 | An edit sets the named field and leaves every other field unchanged. |
| UploadForm.WithFieldCommutes | src/components/UploadLostItemForm.js:23-29 | Edits of different fields commute, and a later edit of the same field wins. |
| UploadForm.EmptyDraftIsBlankLostReport | src/components/UploadLostItemForm.js:10-16 | The initial and reset form has type `lost` and every text field empty, so its confirmation reads as a lost report. |
| UploadForm.SuccessMessageByType | src/components/UploadLostItemForm.js:61-64 | The message names "lost" iff the type is `lost`, and "found" otherwise. |
| UploadForm.Form.HandleInputChange | src/components/UploadLostItemForm.js:23-29 | The form becomes `WithField(old form, name, value)`. |
| UploadForm.Form.ChooseType | src/components/UploadLostItemForm.js:110-118 | Only the type changes. |
| UploadForm.Form.HandleFileChange | src/components/UploadLostItemForm.js:31-44 | The file becomes the selection. No selection clears the preview. |
| UploadForm.Form.PreviewLoaded | src/components/UploadLostItemForm.js:36-38 | The preview becomes the reader's data URL. |
| UploadForm.Form.HandleSubmit | src/components/UploadLostItemForm.js:46-88 | No file: "Please select an image first!", no request and the form kept. Otherwise the requests of `SavePlan`. Success gives the success message, the returned code, and the form, file and preview reset. Failure gives the error message (or the default), the form and file kept and the code cleared. `isSubmitting` ends false on every path. |
| UploadForm.SubmittedRecordCarriesForm | src/dynamoService.js:85-94 | A successful submission sent the image, then a metadata record carrying the fresh id, status `active` and every form field, with the date lost as `createdAt`. |
| Codec.ParseStringify | src/components/VerifyItem.js:40-69 | Parsing what was stringified gives back the same details, and `null` for none. |
| Codec.DecEncItem | src/components/VerifyItem.js:69 | The item encoding decodes back to the same item and leaves the following text. |
| Common.IndexFrom | src/components/LostItemsGallery.js:65-67 | The first occurrence at or after the start, or a proof that there is none. |
| Common.ContainsIff | src/components/LostItemsGallery.js:65-67 | `includes` holds iff the term occurs at some index. |
| Common.Lower | src/components/LostItemsGallery.js:63-67 | Lower-casing keeps the length and maps each character. |
| Common.ParseNatToString | src/dynamoService.js:111 | The printed status code reads back as the same number. |

## Left out

- Rendering, styling, icons, the QR image, `alert` and `window.confirm` are left out. The confirm dialog's answer is a `bool` parameter, and the alert text is the method's result.
- `fetch` is a scripted oracle. Request URLs are not modelled; each request is a datatype value naming the endpoint's parameters. The request timing and `console` logging are left out.
- Amplify's `Auth.currentSession` is an `AuthSession` parameter, `Auth.currentAuthenticatedUser` an optional user name, and `uuidv4` an id parameter.
- `DOMParser` is left out. `XmlMessage` takes the text between the first `<Message>` and the next `</Message>`, which covers only the flat XML of S3 error bodies: nested `<Message>` elements, attributes on the tag, entities and CDATA are not modelled.
- `JSON.stringify`/`JSON.parse` are replaced by an encoding of the item record with a proved round trip. Only the fields the client reads are kept. `JSON.stringify(undefined)` stores the text `undefined`, which fails to parse; the model stores `null`. Both are cache misses.
- Gallery.DateKey: `createdAt` is an integer timestamp. Parsing date strings (`new Date`) is left out, and so is the `NaN` an unparsable date gives the comparator.
- Gallery.LexLess: `localeCompare` is lexicographic order on character codes, not locale collation.
- Common.Lower: only ASCII letters are lower-cased. Unicode case mapping is left out.
- Service.ListItems: the listings read a response body that is not an array as empty. The source returns such a body as it is.
- Gallery.VerificationUrlRoundTrip: the link inserts the code without `encodeURIComponent`, so a code holding `/` (or `?`, `#`) would not be read back by the route; the round trip is proved only for non-empty codes without `/`, and URL syntax beyond `/` is not modelled.
- `handleEditItem` and the tab switch on the profile page, the `showFilters` toggle in the gallery, and the "Return to Home" buttons are left out: they are placeholders or pure navigation.
- React's asynchronous state updates and effect scheduling are left out. Each handler runs to completion, and state set by a handler is visible when it returns. Strict mode is modelled only as two consecutive runs of the verification effect.
- The gallery page's "Failed to load items" branch is left out: `getLostItemsFromDynamoDB` never throws, so that branch cannot run.
- The backend's own checks (who may claim, atomic status transitions) are not part of this model; the client only sees their replies.
