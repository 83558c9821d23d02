# chat-ebook-client: the client-side rules, modelled in Dafny

chat-ebook-client is a React single-page application. Users upload a PDF,
read it in a virtualised viewer and chat about it with a backend. The
backend talks REST, plus a STOMP message queue for live replies. Most of the
code is presentation. This project models the parts that decide something:

- **Reader geometry and navigation** (`EbookView`, module file `ebook_view.dfy`):
  - the row extent of a page, given its size, the zoom and the rotation;
  - the page reported for a scroll offset;
  - guarded page jumps, clamped zoom steps and quarter-turn rotation;
  - bookmark removal and its persistence in local storage;
  - the list height.
- **Outline and bookmark dispatch** of the reader's sidebar (`PdfSidebar`), and
  the **page guard** of the toolbar (`PdfToolbar`).
- **Live-message normaliser and queue connection state** (`WebSocketQueue`):
  every frame becomes exactly one message, with a fallback for every field.
  The hook reacts to these events: queue created or failed, connect, STOMP
  error, WebSocket error, socket close, frame and cleanup.
- **HTTP interceptors** (`AuthInterceptor`):
  - the bearer header;
  - the classification of error responses;
  - a single-flight token refresh, with a queue of waiting requests.
- **Upload form** (`UploadForm`): the three file tests, the submit-enabled
  condition, the upload status, and `mergeRefs`.
- **Conversation sidebar** (`AppSidebar`): rename and delete state, and sign-out.
- **Mock chat** (`ChatPage`): the blank-input guard, the message list, the
  typing flag and the keyword classifier.
- **Shared JavaScript conventions** (`Js`): truthiness, `trim`,
  `toLowerCase`, `includes`, and the decimal text of numbers.

How the model is built:

- An entity whose fields the source updates in place is a class. Its methods
  are the event handlers, and each states the whole new state through a
  `State()` snapshot. The classes are `Reader`, `QueueHook`, `ApiClient`,
  `UploadPage`, `Sidebar` and `Chat`.
- Pure rules are functions, with lemmas about them.
- Several things are passed in as parameters:
  - the clock, as `now`;
  - `JSON.parse` results, as a `Body` value;
  - `new Date(..).getTime()`, as `toMillis`;
  - the PDF page lookup, as `getPageIndex`;
  - locale time labels, as strings;
  - local storage, as a map.
- Each `await` is a separate event method.

Behaviour of the code worth noting, which the model follows:

- Bookmarks on the reader page can be removed; the page offers no way to add
  one (`ebook-view-page.tsx:266`).
- A page jump outside `[1, numPages]` is ignored rather than moved to the
  nearest page (`ebook-view-page.tsx:101-106`).
- Every frame on the queue becomes a message, whatever its
  `conversation_id` (`use-websocket-queue.ts:108-141`).
- A live message without `sender_type` gets `"bot"`; an unparsable frame gets
  `"error"` (`use-websocket-queue.ts:122`, `:136`).

## Model

| member | source | states |
|---|---|---|
| Js.Trim | src/components/app-sidebar.tsx:93 | `trim()`: the result neither starts nor ends with whitespace (with `TrimStart`/`TrimEnd`, only whitespace is dropped at either end) |
| Js.TrimEmptyIff | src/pages/chat/chat-page.tsx:45 | `!s.trim()` holds exactly when every character of `s` is whitespace |
| Js.TrimIdempotent | src/components/app-sidebar.tsx:101 | trimming a trimmed name changes nothing |
| Js.Truthy | src/components/app-sidebar.tsx:93 | an optional string is truthy exactly when it is present and non-empty, as `!value` tests it |
| Js.ToLower | src/pages/chat/chat-page.tsx:80 | `toLowerCase` maps every character with the ASCII case map and keeps the length |
| Js.ToUpper | src/pages/chat/chat-page.tsx:80 | the inverse case map, used to state case-insensitivity |
| Js.ToLowerIdempotent | src/pages/chat/chat-page.tsx:80 | lower-casing twice is lower-casing once |
| Js.ToLowerOfUpper | src/pages/chat/chat-page.tsx:80 | for ASCII letters: upper-casing a query first does not change its lower-cased form |
| Js.ToLowerAppend | src/pages/chat/chat-page.tsx:80 | lower-casing distributes over concatenation |
| Js.Includes | src/pages/chat/chat-page.tsx:81-85 | `s.includes(w)`: `w` occurs in `s` at some position (and the empty word everywhere) |
| Js.IncludesExtended | src/pages/chat/chat-page.tsx:81-85 | an `includes` match survives text added at either end |
| Js.NatText | src/hooks/use-websocket-queue.ts:119 | the decimal text of a number is non-empty and made of digits, a single digit exactly below 10 |
| Js.IntText | src/hooks/use-websocket-queue.ts:133 | `String(n)` starts with '-' exactly for negative numbers |
| Js.NatTextInjective | src/hooks/use-websocket-queue.ts:119 | distinct natural numbers print differently |
| Js.IntTextInjective | src/hooks/use-websocket-queue.ts:133 | distinct timestamps print differently, so timestamp-derived ids differ |
| Js.PrefixedInjective | src/hooks/use-websocket-queue.ts:119 | two ids with the same prefix are equal exactly when their tails are |
| PdfToolbar.PreviousDisabled | src/components/pdf/pdf-toolbar.tsx:45 | the Previous button is disabled at page 1 or below; `ArrowsAgreeWithGuard` shows this matches the page guard on in-range pages |
| PdfToolbar.NextDisabled | src/components/pdf/pdf-toolbar.tsx:72 | the Next button is disabled at the last page or beyond; `ArrowsAgreeWithGuard` shows this matches the page guard on in-range pages |
| PdfToolbar.GoToPage | src/components/pdf/pdf-toolbar.tsx:36-38 | the page reaches `onPageChange` exactly when it is a number in `[1, numPages]`, and unchanged |
| PdfToolbar.OnChange | src/components/pdf/pdf-toolbar.tsx:55-58 | any parsed integer is forwarded, with no range check; NaN is dropped |
| PdfToolbar.OnBlur | src/components/pdf/pdf-toolbar.tsx:59 | blur applies the range guard to the parsed input, so NaN goes nowhere |
| PdfToolbar.OnKeyDown | src/components/pdf/pdf-toolbar.tsx:60-63 | Enter applies the range guard; any other key does nothing |
| PdfToolbar.PreviousClick | src/components/pdf/pdf-toolbar.tsx:43-45 | a disabled Previous (page ≤ 1) does nothing; otherwise it can only go to page − 1, inside the range |
| PdfToolbar.NextClick | src/components/pdf/pdf-toolbar.tsx:70-72 | a disabled Next (page ≥ numPages) does nothing; otherwise it can only go to page + 1, inside the range |
| PdfToolbar.ArrowsAgreeWithGuard | src/components/pdf/pdf-toolbar.tsx:36-72 | on a page in range, an arrow acts exactly when it is enabled, and goes one page |
| PdfToolbar.OutOfRangeTypingStrandsPrevious | src/components/pdf/pdf-toolbar.tsx:55-58 | a typed page beyond numPages + 1 is forwarded, but from there the enabled Previous button does nothing |
| PdfSidebar.FirstRef | src/components/pdf/pdf-sidebar.tsx:33 | `dest[0]` exists exactly for a non-empty array, and is its first element |
| PdfSidebar.OutlineTarget | src/components/pdf/pdf-sidebar.tsx:28-37 | no document, no destination, or a named destination gives no navigation; a non-zero number goes to itself; an array goes to the looked-up index + 1, or nowhere if the lookup fails |
| PdfSidebar.OutlineTargetInRange | src/components/pdf/pdf-sidebar.tsx:30-35 | when the lookup returns indices inside the document, every outline jump is a page in `[1, numPages]` |
| PdfSidebar.BookmarkClick | src/components/pdf/pdf-sidebar.tsx:104 | clicking a bookmark navigates to its page number |
| PdfSidebar.RemoveClick | src/components/pdf/pdf-sidebar.tsx:110 | remove passes the bookmark's own position in the list |
| EbookView.JsRem | src/pages/view/ebook-view-page.tsx:86 | JavaScript's truncating `%` agrees with Euclidean remainder on non-negative operands |
| EbookView.ItemSize | src/pages/view/ebook-view-page.tsx:81-89 | unknown dimensions give 800 × scale; known positive dimensions with positive scale give a positive extent |
| EbookView.ItemSizeByRotation | src/pages/view/ebook-view-page.tsx:86-88 | 0° and 180° give height × scale; 90° and 270° give width × scale |
| EbookView.ItemSizeUnderRotation | src/pages/view/ebook-view-page.tsx:86-88 | one rotation step swaps width and height; two steps give the first extent back |
| EbookView.PageAtOffset | src/pages/view/ebook-view-page.tsx:94-96 | the page for a scroll offset always lies in `[1, numPages]` |
| EbookView.PageAtOffsetInsideRow | src/pages/view/ebook-view-page.tsx:95-96 | an offset inside row p reports page p |
| EbookView.PageAtOffsetMonotone | src/pages/view/ebook-view-page.tsx:95-96 | scrolling further down never reports an earlier page |
| EbookView.ZoomOut | src/pages/view/ebook-view-page.tsx:223 | zoom-out never goes below 0.5, never zooms in, and steps by exactly 0.2 away from the bound |
| EbookView.ZoomIn | src/pages/view/ebook-view-page.tsx:235 | zoom-in never goes above 3, never zooms out, and steps by exactly 0.2 away from the bound |
| EbookView.ZoomSteps | src/pages/view/ebook-view-page.tsx:223-235 | both steps keep the scale in `[0.5, 3]`; away from the bounds, in-then-out and out-then-in return to the start |
| EbookView.NextRotation | src/pages/view/ebook-view-page.tsx:245 | `(r + 90) % 360` lies strictly between −360 and 360 |
| EbookView.RotationCycle | src/pages/view/ebook-view-page.tsx:245 | quarter turns stay quarter turns, each step changes the rotation, and four steps return to the start |
| EbookView.RotationNormalises | src/pages/view/ebook-view-page.tsx:245 | from a non-negative rotation the result is in `[0, 360)` |
| EbookView.ListHeight | src/pages/view/ebook-view-page.tsx:55-59 | the list is 80 shorter than its container exactly when controls are shown, and never taller |
| EbookView.WithoutIndexEntries | src/pages/view/ebook-view-page.tsx:266 | removing index i drops exactly that entry: one fewer, the others in their order, the same multiset bar the removed one |
| EbookView.FilterOutIndex | src/pages/view/ebook-view-page.tsx:266 | the `filter((_, i) => i !== index)` loop computes the list without that index |
| EbookView.Reader.constructor | src/pages/view/ebook-view-page.tsx:39-50 | page 1, scale 1, rotation 0, controls shown, bookmarks read from storage (or empty), then written back |
| EbookView.Reader.DocumentLoaded | src/pages/view/ebook-view-page.tsx:37 | the page count and first-page dimensions become known, and loading ends |
| EbookView.Reader.DocumentFailed | src/pages/view/ebook-view-page.tsx:37 | loading ends with no document |
| EbookView.Reader.OnScroll | src/pages/view/ebook-view-page.tsx:91-97 | with no document or no pages nothing changes; otherwise only the current page changes, to the page at the offset, inside `[1, numPages]` |
| EbookView.Reader.GoToPage | src/pages/view/ebook-view-page.tsx:101-106 | an in-range page with the list mounted scrolls there and becomes current; anything else changes nothing, with no clamping |
| EbookView.Reader.PreviousPage | src/pages/view/ebook-view-page.tsx:195-196 | the previous-page button goes through the same guard with page − 1 |
| EbookView.Reader.NextPage | src/pages/view/ebook-view-page.tsx:210-211 | the next-page button goes through the same guard with page + 1 |
| EbookView.Reader.ZoomOutClick | src/pages/view/ebook-view-page.tsx:223 | only the scale changes, to the clamped zoom-out |
| EbookView.Reader.ZoomInClick | src/pages/view/ebook-view-page.tsx:235 | only the scale changes, to the clamped zoom-in |
| EbookView.Reader.RotateClick | src/pages/view/ebook-view-page.tsx:245 | only the rotation changes, a quarter turn on |
| EbookView.Reader.SetScale | src/pages/view/ebook-view-page.tsx:282 | the settings slider sets the scale to its value |
| EbookView.Reader.SetRotation | src/pages/view/ebook-view-page.tsx:283 | the settings panel sets a quarter-turn rotation |
| EbookView.Reader.RemoveBookmark | src/pages/view/ebook-view-page.tsx:266 | the bookmark at the index is removed, and the whole new list is written under `pdf-bookmarks` |
| EbookView.Reader.OutlineClicked | src/pages/view/ebook-view-page.tsx:259-266 | an outline click jumps through the page guard to the outline target, if any |
| EbookView.Reader.BookmarkClicked | src/pages/view/ebook-view-page.tsx:265 | a bookmark click jumps through the page guard to its page |
| EbookView.Reader.ToggleControls | src/pages/view/ebook-view-page.tsx:138 | controls flip, and the list height is recomputed for the new setting |
| EbookView.Reader.Resized | src/pages/view/ebook-view-page.tsx:63-64 | a resize recomputes the list height and nothing else |
| WebSocketQueue.FirstTruthy | src/hooks/use-websocket-queue.ts:111 | an `a \|\| b \|\| fallback` chain gives the first truthy candidate, or the fallback when none is |
| WebSocketQueue.CreatedAt | src/hooks/use-websocket-queue.ts:112-116 | a truthy `created_at` wins; otherwise a truthy timestamp converted; otherwise now |
| WebSocketQueue.Normalise | src/hooks/use-websocket-queue.ts:108-141 | a parse failure gives the fallback message (id `error-<now>`, the raw body, sender `error`, conversation `unknown`); a payload gives each field by its fallback chain |
| WebSocketQueue.NormalisedFieldsFilled | src/hooks/use-websocket-queue.ts:111-123 | every field of a normalised payload message is non-empty |
| WebSocketQueue.ErrorSenderOnlyFromFallback | src/hooks/use-websocket-queue.ts:122-136 | the sender is `error` exactly for the parse-failure fallback or a payload that says so; a failure keeps the raw body |
| WebSocketQueue.NormaliseRoundTrip | src/hooks/use-websocket-queue.ts:110-124 | a message whose fields are all filled is normalised back to itself |
| WebSocketQueue.SynthesisedIdsDistinct | src/hooks/use-websocket-queue.ts:119-133 | two synthesised ids of the same kind at different times differ |
| WebSocketQueue.FallbackAndSynthesisedIdsDiffer | src/hooks/use-websocket-queue.ts:119-133 | a fallback id never equals a synthesised payload id |
| WebSocketQueue.StompErrorText | src/hooks/use-websocket-queue.ts:147-157 | `STOMP Error: <message header>`, with `undefined` for a missing header |
| WebSocketQueue.SubscriptionFor | src/hooks/use-websocket-queue.ts:97-107 | destination `/queue/<name>` and id `sub-<name>` |
| WebSocketQueue.QueueHook.constructor | src/hooks/use-websocket-queue.ts:46-77 | the queue is requested once, on mount; no client, no messages, no error |
| WebSocketQueue.QueueHook.Error | src/hooks/use-websocket-queue.ts:196-197 | `error` is the connection error when set, otherwise the queue failure; it is present exactly when `isError` holds |
| WebSocketQueue.QueueHook.QueueSucceeded | src/hooks/use-websocket-queue.ts:57-61 | the queue name is set, and only then is one broker client created and activated (a non-empty name) |
| WebSocketQueue.QueueHook.QueueFailed | src/hooks/use-websocket-queue.ts:63-72 | the error is "Failed to create queue", reported with type queue; `isError` then holds |
| WebSocketQueue.QueueHook.Connected | src/hooks/use-websocket-queue.ts:93-107 | connected, error cleared, one subscription to the queue's destination and id |
| WebSocketQueue.QueueHook.StompFailure | src/hooks/use-websocket-queue.ts:147-157 | the error becomes `STOMP Error: <message header>` and `connected` is left as it was |
| WebSocketQueue.QueueHook.WebSocketFailure | src/hooks/use-websocket-queue.ts:159-169 | the error is set and `connected` becomes false |
| WebSocketQueue.QueueHook.FrameReceived | src/hooks/use-websocket-queue.ts:108-141 | exactly one normalised message is appended at the end; earlier messages are untouched |
| WebSocketQueue.QueueHook.SocketClosed | src/hooks/use-websocket-queue.ts:80-91 | a closed socket clears only the client's own `connected`; the hook sets no close handler, so its state is unchanged |
| WebSocketQueue.QueueHook.Cleanup | src/hooks/use-websocket-queue.ts:174-179 | as written: deactivates exactly when the client itself reports connected, whatever the hook's `connected` says; otherwise nothing changes |
| WebSocketQueue.QueueHook.CleanupDeactivating | src/hooks/use-websocket-queue.ts:174-179 | corrected: the client is always deactivated and marked disconnected |
| WebSocketQueue.UnmountAfterSocketClosed | src/hooks/use-websocket-queue.ts:93-179 | after connect, an ERROR frame and a socket close, the hook still shows connected but the cleanup as written leaves the client running; the corrected cleanup stops it |
| WebSocketQueue.UnmountBeforeConnect | src/hooks/use-websocket-queue.ts:171-179 | as written, a client unmounted before connecting is still active afterwards |
| WebSocketQueue.UnmountBeforeConnectDeactivating | src/hooks/use-websocket-queue.ts:171-179 | with the corrected cleanup it is not |
| AuthInterceptor.AuthorizationHeader | src/api/config.ts:42-49 | `Bearer <token>` when a non-empty access token is stored, otherwise the header the request had |
| AuthInterceptor.HeaderOnlyWithToken | src/api/config.ts:44-47 | a request without a header gains one exactly when a non-empty access token is stored |
| AuthInterceptor.ClassifyAsWritten | src/api/config.ts:60-71 | as written: an error with no response ends in a TypeError rejection; with a response it agrees with the corrected classification |
| AuthInterceptor.Classify | src/api/config.ts:60-95 | sign-out exactly for a 401; refresh only for 403 with `ERR.TOK0105` on a request not retried; a retried request, a 403 with any other code, any other status and a missing response all reject; never a TypeError |
| AuthInterceptor.NoResponseRejectsWithTypeError | src/api/config.ts:68 | a response-less error: a TypeError as written, a plain rejection once corrected |
| AuthInterceptor.RefreshExactly | src/api/config.ts:67-71 | the refresh branch is taken exactly for an expired-token 403 on a request not yet retried |
| AuthInterceptor.Resends | src/api/config.ts:37-40 | one re-send per queued request, in push order, each with the new bearer header |
| AuthInterceptor.WithHeaderForEntries | src/api/config.ts:76-78 | every queued request gets the new header; other requests keep theirs |
| AuthInterceptor.Drain | src/api/config.ts:37-40 | the `forEach` loop sets the headers and re-sends exactly as `Resends` and `WithHeaderFor` say |
| AuthInterceptor.ApiClient.constructor | src/api/config.ts:12-13 | not refreshing, no subscribers, nothing sent |
| AuthInterceptor.ApiClient.PrepareRequest | src/api/config.ts:42-49 | only that request's header changes, as the request interceptor says |
| AuthInterceptor.ApiClient.ResponseError | src/api/config.ts:53-95 | 401: only the access token removed, redirect, reject. Reject: only the rejection. Refresh while refreshing: marked `_retry` and queued. Otherwise the request is marked, the refresh starts and it owns it |
| AuthInterceptor.ApiClient.StartRefresh | src/api/config.ts:15-33 | the refresh starts, owned by the request: the stored refresh token is posted, or with none both tokens are removed and the page goes to sign-in |
| AuthInterceptor.ApiClient.OnRefreshed | src/api/config.ts:37-40 | every queued request is re-sent once in push order with the new token, and the queue is emptied |
| AuthInterceptor.ApiClient.RefreshSettled | src/api/config.ts:85-95 | the flag is cleared. With a token: the queue is drained, then the owner is re-sent. Without one: the owner is rejected and the queue stays as it is |
| AuthInterceptor.NewToken | src/api/config.ts:15-34 | `refreshToken()` yields a truthy token only from a sent refresh that got a reply carrying it |
| AuthInterceptor.StorageAfterRefresh | src/api/config.ts:24-31 | a success stores only the new access token and keeps the refresh token; a failure removes both; other keys stay |
| AuthInterceptor.ThreeConcurrentExpiries | src/api/config.ts:74-91 | three expiring requests make one refresh call, and all three are re-sent with the new token |
| AuthInterceptor.RetriedRequestIsRejected | src/api/config.ts:67-72 | a request that expires again after its retry is rejected, and no second refresh is made |
| AuthInterceptor.FailedRefreshStrandsQueue | src/api/config.ts:83-95 | after a failed refresh the queued requests are neither re-sent nor rejected, and the refresh token is gone |
| UploadForm.FileRequired | src/pages/upload/upload-file-page.tsx:20-24 | the `fileRequired` test: a non-empty file list; with `Validate`, its failure is reported first |
| UploadForm.FileTypeOk | src/pages/upload/upload-file-page.tsx:25-30 | the `fileType` test: the first file's type is in the allowed list, and it passes with nothing selected (`EmptySelectionFailsOnlyRequired`) |
| UploadForm.FileSizeOk | src/pages/upload/upload-file-page.tsx:31-36 | the `fileSize` test: the first file is at most 10 MiB, inclusive (`SizeBoundInclusive`), and it passes with nothing selected |
| UploadForm.ErrorMessage | src/pages/upload/upload-file-page.tsx:21-31 | every validation error has a message |
| UploadForm.Validate | src/pages/upload/upload-file-page.tsx:17-37 | no error exactly when all three tests pass; otherwise the first failing test in declared order (required, type, size) |
| UploadForm.EmptySelectionFailsOnlyRequired | src/pages/upload/upload-file-page.tsx:20-36 | with no list or an empty list, only the required test fails |
| UploadForm.SizeBoundInclusive | src/pages/upload/upload-file-page.tsx:33 | exactly 10 MiB (10485760 bytes) passes; one byte more fails |
| UploadForm.OnlyFirstFileValidated | src/pages/upload/upload-file-page.tsx:27-33 | files after the first never change the verdict; a list passes exactly when its first file is a PDF of at most 10 MiB |
| UploadForm.SubmitDisabled | src/pages/upload/upload-file-page.tsx:230 | `isPending \|\| !selectedFile \|\| !!errors.file`; `SubmitEnabledIff` gives the condition in terms of the file |
| UploadForm.SubmitEnabledIff | src/pages/upload/upload-file-page.tsx:230 | once validated, submit is enabled exactly when nothing is pending and the first file is a PDF of at most 10 MiB |
| UploadForm.UploadPage.constructor | src/pages/upload/upload-file-page.tsx:56-59 | idle, nothing selected, nothing uploaded |
| UploadForm.UploadPage.FilesChosen | src/pages/upload/upload-file-page.tsx:73-79 | the selection changes, and the error on show becomes its validation result |
| UploadForm.UploadPage.Submit | src/pages/upload/upload-file-page.tsx:95-99 | nothing while the submit button is disabled (pending, no file, or an error shown, :230); otherwise a valid form starts the upload of its first file and an invalid one only shows its error |
| UploadForm.DoubleSubmitUploadsOnce | src/pages/upload/upload-file-page.tsx:228-230 | a second press while the upload is pending uploads nothing more |
| UploadForm.UploadPage.UploadSucceeded | src/pages/upload/upload-file-page.tsx:82-87 | status success, the list refetched, navigation to `/chat/<id>`, the form reset |
| UploadForm.UploadPage.UploadFailed | src/pages/upload/upload-file-page.tsx:88-92 | status error, with the fixed message "Failed to upload file. Please try again." |
| UploadForm.ChatRoute | src/pages/upload/upload-file-page.tsx:85 | the route starts with `/chat/`, followed by the id |
| UploadForm.ChatRouteInjective | src/pages/upload/upload-file-page.tsx:85 | different conversations get different routes |
| UploadForm.RefBox.constructor | src/pages/upload/upload-file-page.tsx:55 | a fresh ref object holds null |
| UploadForm.CallbackCalls | src/pages/upload/upload-file-page.tsx:43-46 | the callback calls of one `mergeRefs` application: no more calls than refs |
| UploadForm.CallbackCallsCount | src/pages/upload/upload-file-page.tsx:43-46 | each callback is called with the value exactly as many times as it appears among the refs |
| UploadForm.CallbackCallsOnePerCallback | src/pages/upload/upload-file-page.tsx:43-46 | every recorded call carries the value, and a callback is called exactly when it is among the refs |
| UploadForm.MergeRefs | src/pages/upload/upload-file-page.tsx:39-52 | every ref object's `current` becomes the value; callback refs are called with it in order; null refs are skipped |
| AppSidebar.RenameRequest | src/components/app-sidebar.tsx:92-102 | an update is issued exactly when a truthy conversation is being edited and the draft is not blank; it carries the trimmed draft, which is non-empty and unpadded |
| AppSidebar.RenameRequestStable | src/components/app-sidebar.tsx:101 | resubmitting the name that was sent issues the same update |
| AppSidebar.RenameIgnoresPadding | src/components/app-sidebar.tsx:93-101 | whitespace typed around a name never reaches the server |
| AppSidebar.Sidebar.constructor | src/components/app-sidebar.tsx:58-65 | not editing, nothing awaiting deletion, the dialog closed, no mutation pending |
| AppSidebar.Sidebar.EditClick | src/components/app-sidebar.tsx:87-90 | edit mode for the conversation, with the draft seeded from its current name |
| AppSidebar.Sidebar.DraftChanged | src/components/app-sidebar.tsx:190-194 | only the draft changes; nothing while an update is pending, the input being disabled |
| AppSidebar.Sidebar.RenameSubmit | src/components/app-sidebar.tsx:92-109 | nothing while an update is pending (the check button and input are disabled, :194, :201); nothing to send: edit mode ends and no update is made; otherwise the update is recorded, becomes pending, and edit mode stays |
| AppSidebar.Sidebar.RenameSucceeded | src/components/app-sidebar.tsx:104-106 | edit mode ends only when the update succeeds, and it is no longer pending |
| AppSidebar.Sidebar.RenameFailed | src/components/app-sidebar.tsx:59 | a failed update is no longer pending and edit mode stays |
| AppSidebar.Sidebar.CancelEdit | src/components/app-sidebar.tsx:206-210 | the cancel button ends edit mode and nothing else; it is disabled while an update is pending |
| AppSidebar.Sidebar.KeyDown | src/components/app-sidebar.tsx:131-137 | Enter submits the rename, Escape ends edit mode, other keys change nothing; no key does anything while the input is disabled by a pending update |
| AppSidebar.Sidebar.DeleteClick | src/components/app-sidebar.tsx:111-114 | the conversation is remembered and the dialog opens |
| AppSidebar.Sidebar.DeleteConfirm | src/components/app-sidebar.tsx:116-119 | nothing while a delete is pending (the action is disabled, :341) or with no remembered conversation; otherwise exactly that one is deleted and the delete becomes pending |
| AppSidebar.Sidebar.DeleteSettled | src/components/app-sidebar.tsx:120-127 | success and failure alike forget the conversation, close the dialog and end the pending delete |
| AppSidebar.Sidebar.DialogOpenChange | src/components/app-sidebar.tsx:324-330 | opening only opens; closing also forgets the conversation |
| AppSidebar.Sidebar.SignOut | src/components/app-sidebar.tsx:78-85 | nothing while a revoke is pending (the button is disabled, :301); with a refresh token stored, it is revoked, the revoke becomes pending and the tokens stay; without one, a redirect to sign-in |
| AppSidebar.Sidebar.RevokeSucceeded | src/components/app-sidebar.tsx:68-72 | a successful revoke removes both tokens, redirects to sign-in and is no longer pending |
| AppSidebar.Sidebar.RevokeFailed | src/components/app-sidebar.tsx:73-75 | a failed revoke only ends the pending state; the tokens stay |
| AppSidebar.DeleteFlow | src/components/app-sidebar.tsx:111-128 | click, confirm, the dialog's own close and the settle send exactly that delete and leave the dialog closed, with nothing remembered |
| AppSidebar.DoubleRenameSendsOnce | src/components/app-sidebar.tsx:92-109 | submitting twice, then Escape, while the first update is pending sends one update with the trimmed name and stays in edit mode |
| AppSidebar.DoubleSignOutRevokesOnce | src/components/app-sidebar.tsx:78-85 | clicking sign-out twice while the revoke is pending revokes once |
| AppSidebar.CancelledDeleteSendsNothing | src/components/app-sidebar.tsx:116-117 | cancelling the dialog, then confirming, sends no delete |
| ChatPage.Classify | src/pages/chat/chat-page.tsx:79-90 | the reply is picked in priority order on the lower-cased query: bill and detail, then payment, then "due date" or "when", else the general reply |
| ChatPage.GenerateResponse | src/pages/chat/chat-page.tsx:79-90 | the canned reply of the query's category; `ClassifyCaseInsensitive` and `ClassifyMonotone` state its properties |
| ChatPage.ClassifyCaseInsensitive | src/pages/chat/chat-page.tsx:80 | for ASCII letters: upper- or lower-casing the query does not change the branch or the reply |
| ChatPage.ClassifyMonotone | src/pages/chat/chat-page.tsx:81-89 | text added around a query can only move it to a branch tried earlier |
| ChatPage.SendDisabled | src/pages/chat/chat-page.tsx:282 | `!input.trim() \|\| isTyping`; `SendEnabledIff` gives the condition in terms of whitespace |
| ChatPage.SendEnabledIff | src/pages/chat/chat-page.tsx:282 | send is enabled exactly when the input is not all whitespace and no reply is pending |
| ChatPage.Chat.constructor | src/pages/chat/chat-page.tsx:17-39 | an empty input, no reply pending, the three opening messages |
| ChatPage.Chat.SetInput | src/pages/chat/chat-page.tsx:276 | only the input changes |
| ChatPage.Chat.SendMessage | src/pages/chat/chat-page.tsx:44-62 | blank input changes nothing; otherwise one user message with the untrimmed input and id `String(now)`, the input cleared, typing raised, and a reply pending for that input |
| ChatPage.Chat.ReplyTimerFired | src/pages/chat/chat-page.tsx:62-76 | one agent message with the reply to the oldest pending input and id `String(now + 1)`, and typing lowered |
| ChatPage.Chat.KeyDown | src/pages/chat/chat-page.tsx:92-97 | Enter without Shift sends, even while a reply is pending; any other key, Shift+Enter included, changes nothing |
| ChatPage.EnterWhileTyping | src/pages/chat/chat-page.tsx:62-97 | two questions sent with Enter both get replies, but the first reply lowers the typing flag while the second is still pending |

## Left out

- Rendering: JSX, CSS classes, icons and layout are left out. So are the
  presentational files, and `pdf-page.tsx`, whose whole body is commented out.
- The PDF engine: `use-pdf.ts` and the react-pdf-viewer wrapper are library I/O.
  - Loading is reduced to the `DocumentLoaded` and `DocumentFailed` events.
  - `getPageIndex` is a function parameter: its `None` stands for a rejected
    lookup. The outline's nesting and titles are not modelled.
- The STOMP transport: framing, reconnect delay and heartbeats belong to the
  library. Only the callbacks' effects on the hook state are modelled.
  - The optional `onConnect`, `onError` and `onMessage` callbacks are recorded
    as error reports, or left out when they only forward a value.
  - An `onMessage` that throws is not modelled.
- Asynchrony: each `await` and timer is a separate event, and no interleaving
  inside one handler is modelled.
  - The refresh call itself passes through the response interceptor, so a 403
    on it would queue it behind itself. This is not modelled.
- HTTP, and the react-query mutations and queries. Their calls are recorded in
  logs of requests: `updates`, `deletes`, `revokes`, `uploads`, `refreshPosts`
  and `resent`. Their outcomes are event methods; a callback that only logs
  (the revoke's `onError`) is an event that ends the pending state, and the
  upload's `console.log` is left out.
- The clock, locale formatting, `JSON.parse`, `parseInt` and `getTime` are
  parameters.
  - The two `Date.now()` calls of one live-message fallback are taken as one
    reading.
  - `formatDateTime` and `toLocaleTimeString` are not modelled.
- Browser effects: `window.location.href` is recorded as the last redirect;
  `navigate` as the last route. Fullscreen, dark mode, the settings panel and
  the table-of-contents toggle are view state only.
- Js.ToLower: models `toLowerCase` on ASCII letters only, not full Unicode case
  mapping.
- ChatPage.ClassifyCaseInsensitive: holds for the ASCII case map only. Under
  Unicode `toUpperCase`, "ı" becomes "I", so "bıll detaıl" upper-cased gets the
  bill-details reply while "bıll detaıl" itself gets the general reply.
- Js.ToLowerOfUpper: the same ASCII-only restriction.
- Scroll alignment: `goToPage` calls `scrollToItem(page - 1, "center")`,
  which centres the row, and the scroll event that follows then sets the
  current page from the resulting offset; with a list taller than a row that
  offset lies before the row's start, so the reported page can be the one
  before. EbookView.Reader.GoToPage records only the target row, and
  EbookView.Reader.OnScroll takes the offset as a parameter, so the list's
  alignment rule and that follow-up scroll are not modelled.
- Floating point: the scale, offsets and dimensions are exact reals. The
  rounding of repeated ±0.2 steps and the `Math.round(scale*100)` label are left
  out.
- EbookView.Reader.SetScale: requires the slider's range `[0.5, 3]`, which the
  settings slider enforces and `parseFloat` is assumed to keep.
- EbookView.Reader.SetRotation: requires a quarter turn, the only values the
  settings panel offers.
- The toolbar's zoom, rotate, reset and bookmark buttons only forward to
  callbacks. The toolbar component is not used by the reader page, whose own
  zoom and rotate handlers are modelled in `EbookView`.
- The login, sign-up and register forms are library validators, and the login
  submit is a simulated delay, so they are left out.
- Bookmarks are stored under one global key, with no document scope, as the
  code does.

## Findings

| source | as written | input that shows it | evidently intended | confidence | as-written member | corrected member |
|---|---|---|---|---|---|---|
| src/api/config.ts:68 | the 403 test reads `error.response.status` without the optional chaining the 401 test uses | a request that times out or fails on the network, so that `error.response` is undefined | the error is rejected as it is | not executed | AuthInterceptor.ClassifyAsWritten | AuthInterceptor.Classify |
| src/hooks/use-websocket-queue.ts:174-179 | the effect's cleanup deactivates the client only when it is connected | the component unmounts (or the queue name changes) before the broker connection is established | the client is deactivated whatever its connection state, so no client keeps reconnecting after teardown | not executed | WebSocketQueue.UnmountBeforeConnect | WebSocketQueue.UnmountBeforeConnectDeactivating |

For the first finding, `AuthInterceptor.NoResponseRejectsWithTypeError` shows both
behaviours side by side on the response-less input. The interceptor model
`AuthInterceptor.ApiClient.ResponseError` uses the corrected classification.

For the second, `WebSocketQueue.QueueHook.Cleanup` models the cleanup as written
and `WebSocketQueue.QueueHook.CleanupDeactivating` the corrected one. The guard
reads the STOMP client's own `connected`, not the hook's: after an ERROR frame
the broker closes the socket, the client stops reporting itself connected while
the hook still says connected, and an unmount then leaves the client
reconnecting too (`WebSocketQueue.UnmountAfterSocketClosed`).
