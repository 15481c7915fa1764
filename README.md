# slim-tax: the decision rules and state machines of a tax-advice web app

Slim Tax is a Next.js site with a signed-in dashboard. Users sign up, upload
tax documents to a storage bucket and chat with a stub advisor. This project
models the small pieces of logic that sit inside its SDK and React plumbing,
and proves what they guarantee:

- **Route gate** (`Middleware`). The middleware decides, from the request path
  and whether a session exists, one of three outcomes: redirect to `/login`,
  redirect to `/dashboard`, or let the request through. The `config.matcher`
  decides whether the gate runs at all. It is modelled as the prefix predicate
  its regular expression describes: a leading `/`, then none of `_next/static`,
  `_next/image`, `favicon.ico`, `auth/callback` or `api`. As in the regular
  expression, the `.` of `favicon.ico` matches any character except a line
  terminator.
- **Chat endpoint** (`ChatApi`). `POST /api/chat` checks the session first,
  then reads the JSON body. With a session and a readable body it answers 200
  with `taxResponses[floor(r * 10)]` followed by a fixed follow-up question.
  Without a session it answers 401. Any exception gives 500. The message is
  never read.
- **Document list** (`Documents`). This covers the mapping of storage entries
  to documents (`path = userId + "/" + name`, size defaulting to 0), the
  delete filter, and the `actionInProgress` lock that disables one document's
  buttons. It also covers the icon chosen from the lower-cased text after the
  last `.`, and the `"0 Bytes"` label.
- **Dashboard** (`DashboardPage`). This covers the signed-in check on mount,
  the chat box (guard, user message, then exactly one assistant message) and
  the upload (storage key `userId/random.ext`, then one assistant message
  naming the file). `ChatAnswerShown` connects the dashboard to the chat
  endpoint and `UploadedDocumentListed` to the document list.
- **Connection banner** (`ConnectionStatus`). The banner moves from loading
  to connected or error, driven by the probe query's error code, and shows a
  message with a fallback.
- **Sign-up form** (`SignUpPage`). This covers the terms guard and the
  `loading`/`error` transitions around the e-mail sign-up and the Google
  sign-in.

`Text` holds the ECMAScript string operations the components use:
`startsWith`, `split(".").pop()`, `toLowerCase` and `trim`. `Wrappers` holds
`Option`, which stands for `null`/`undefined`.

The React components are classes whose fields are their `useState` values.
Pages sent to `router.push` are recorded in a `navigations` field. The
handlers whose intermediate state the page shows are split at their first
`await` into a `Begin…` and a `Finish…` method: downloads and deletes (the
lock held), the chat send (a send in flight), the upload (`uploading`, which
disables the upload controls), the e-mail sign-up and the Google sign-in
(the form loading). Between the two halves that state can be observed and
other handlers can run. A `Handle…` method runs both halves with nothing in
between. The chat send awaits twice (`fetch`, then `response.json()`); the
outcome of both is one input of `FinishSend`. `checkUser`, `fetchDocuments`,
`checkConnection` and `handleSignOut` are single methods: the state they
start from already shows loading (or, for sign-out, nothing changes before
the navigation), so no intermediate state is left out. Results of the identity service, of storage, of `fetch`
and of the probe query are parameters. So are `Math.random()` and the clock
reading `new Date()`. The locale and floating-point formatters are function
parameters.

## Model

| member | source | states |
|---|---|---|
| Text.StartsWith | middleware.ts:17-18 | `startsWith(prefix)` holds exactly when the string is the prefix followed by some text |
| Text.Split | app/components/document-list.tsx:109 | `split(sep)`: the parts hold no `sep` and joined with `sep` give the string back; there is at least one part, a string without `sep` is its own single part, and one with `sep` has at least two |
| Text.SplitOfJoin | app/components/document-list.tsx:109 | round trip: splitting the join of `sep`-free parts gives those parts back |
| Text.AfterLast | app/components/document-list.tsx:109 | the last `.`-segment: a suffix of the name holding no `.` that is either the whole name or preceded by `.` |
| Text.AfterLastIsLastPart | app/dashboard/page.tsx:148 | `AfterLast` is exactly the last element of `split(sep)`, i.e. what `pop()` returns |
| Text.AfterLastOfJoin | app/dashboard/page.tsx:148-149 | joining any stem and a `.`-free tail with `.` makes the tail the last segment |
| Text.AfterLastWithoutSep | app/components/document-list.tsx:109 | a name without `.` is its own last segment |
| Text.Lower | app/components/document-list.tsx:109 | `toLowerCase` keeps the length and lower-cases each ASCII letter in place |
| Text.Trim | app/dashboard/page.tsx:91 | `trim()` is a slice of the string with only white space (or line terminators) before and after it; that slice neither starts nor ends with one, and is empty exactly when the string is all white space |
| Middleware.IsAuthRoute | middleware.ts:16-19 | the auth routes are `/` and every path that is `/login` or `/signup` followed by anything |
| Middleware.Gate | middleware.ts:14-34 | without a session: redirect to `/login` exactly when the path is not `/` and starts with neither `/login` nor `/signup`, never to `/dashboard`; with a session: redirect to `/dashboard` exactly when the path starts with `/login` or `/signup`, never to `/login`; `/` is never redirected; only those two targets occur |
| Middleware.PassThroughCases | middleware.ts:16-33 | pass-through for `/`, `/login*`, `/signup*` without a session and for non-auth paths and `/` with one |
| Middleware.RedirectConditions | middleware.ts:21-31 | the gate redirects to `/login` exactly without a session off the auth routes, and to `/dashboard` exactly with a session on an auth route other than `/` |
| Middleware.SignupSuccessIsAuthRoute | middleware.ts:16-19 | `/signup-success` is an auth route by prefix: passed without a session, redirected to `/dashboard` with one |
| Middleware.GateInvoked | middleware.ts:37 | the matcher accepts only paths starting with `/`, and refuses every path that starts with `/` and one of the five alternatives as written |
| Middleware.Handle | middleware.ts:36-38 | the gate runs exactly for paths the matcher accepts and then answers as `Gate`; a path without a leading `/` or under an excluded alternative is never gated; `/`, `/login` and `/dashboard` always are |
| Middleware.ExcludedPrefixBypasses | middleware.ts:37 | any path `/` + excluded alternative + anything is never evaluated by the gate |
| Middleware.ApiaryBypasses | middleware.ts:37 | prefix matching: `/apiary` bypasses the gate |
| Middleware.FaviconDotIsWildcard | middleware.ts:37 | the unescaped `.` makes `/favicon-ico` bypass the gate too |
| Middleware.RedirectTargetsAreGated | middleware.ts:22-37 | `/login` and `/dashboard` are themselves gated |
| Middleware.NoRedirectLoop | middleware.ts:16-33 | following either redirect with the same session state is let through |
| ChatApi.PickIndex | app/api/chat/route.ts:36 | `floor(r * n)` with `0 <= r < 1` is an index below `n`, and it is the floor of `r * n` |
| ChatApi.Answer | app/api/chat/route.ts:36-39 | the answer is one of the table's entries followed by the follow-up question |
| ChatApi.Chat | app/api/chat/route.ts:19-48 | 401 with `Unauthorized` exactly without a session; 500 with the generic error exactly when the lookup threw or the body could not be read; 200 exactly with a session and a readable body, and then the body is an entry plus follow-up |
| ChatApi.TenResponses | app/api/chat/route.ts:6-17 | the table has ten entries |
| ChatApi.MessageIgnored | app/api/chat/route.ts:32-39 | two requests differing only in the message get the same reply |
| ChatApi.UnauthorizedBeforeBody | app/api/chat/route.ts:28-32 | without a session the reply is 401 whatever the body, malformed included |
| ChatApi.AnswerForDraw | app/api/chat/route.ts:36-39 | the draw `r` selects entry `floor(10 r)` |
| ChatApi.EveryResponseReachable | app/api/chat/route.ts:36 | every one of the ten entries is the answer for some draw in `[0, 1)` |
| Documents.ObjectPathInjective | app/components/document-list.tsx:39 | two names in one folder share a key only if they are equal |
| Documents.FormatDocuments | app/components/document-list.tsx:37-43 | one document per entry, in order, with the entry's name, path `userId + "/" + name` and `metadata.size` or 0 |
| Documents.FormattedPathsDistinguishNames | app/components/document-list.tsx:37-43 | listed documents with equal paths have equal names |
| Documents.RemovePath | app/components/document-list.tsx:92 | the filtered list is no longer and holds no document with the deleted key |
| Documents.RemovePathCounts | app/components/document-list.tsx:92 | every document with the key is gone and every other document keeps its number of occurrences |
| Documents.RemovePathAppend | app/components/document-list.tsx:92 | the filter distributes over concatenation, so the kept documents keep their relative order |
| Documents.RemovePathAbsent | app/components/document-list.tsx:92 | deleting a key no document has leaves the list unchanged |
| Documents.RemovePathIdempotent | app/components/document-list.tsx:92 | filtering twice by one key is filtering once |
| Documents.IconForExtension | app/components/document-list.tsx:111-126 | the PDF icon exactly for `pdf`, the image icon for `jpg`/`jpeg`/`png`, the Word icon for `doc`/`docx`, the spreadsheet icon for `xls`/`xlsx`, and the generic icon for everything else |
| Documents.FileIconFor | app/components/document-list.tsx:108-127 | the icon is the switch applied to the lower-cased last element of `split(".")` |
| Documents.IconOfJoinedName | app/components/document-list.tsx:108-127 | the icon of `stem.ext` depends only on `ext`, lower-cased |
| Documents.IconOfDotlessName | app/components/document-list.tsx:108-127 | a name without `.` is classified by the whole name |
| Documents.UpperCaseExtensionRecognised | app/components/document-list.tsx:109-113 | any name ending in `.PDF` (such as `W2.PDF`) gets the PDF icon |
| Documents.BareExtensionNameRecognised | app/components/document-list.tsx:109-113 | a file named `pdf` gets the PDF icon |
| Documents.FormatFileSize | app/components/document-list.tsx:100-101 | a size of 0 is `"0 Bytes"` |
| Documents.DocumentList.constructor | app/components/document-list.tsx:19-21 | no documents, loading, no action in progress |
| Documents.DocumentList.FetchDocuments | app/components/document-list.tsx:24-55 | with an empty `userId` nothing changes; otherwise a listing replaces the documents with their mapping, an error or no data keeps them, and loading ends false |
| Documents.DocumentList.IsDisabled | app/components/document-list.tsx:181-207 | a document's buttons are disabled exactly while the lock holds its own key |
| Documents.DocumentList.AtMostOneDisabled | app/components/document-list.tsx:181-207 | at most one document's buttons are disabled at a time |
| Documents.DocumentList.BeginAction | app/components/document-list.tsx:57-59 | the lock holds the path, and exactly that document's buttons are disabled |
| Documents.DocumentList.FinishDownload | app/components/document-list.tsx:75-79 | the lock is released after a download, whether it succeeded or not |
| Documents.DocumentList.BeginDelete | app/components/document-list.tsx:82-85 | the lock holds the key, only that document is disabled, and the closure's `documents` is the list at the click |
| Documents.DocumentList.FinishDelete | app/components/document-list.tsx:85-97 | as written: a successful remove sets the list to the captured list without the key, a failed one keeps the current list; the lock is released |
| Documents.DocumentList.FinishDeleteLatest | app/components/document-list.tsx:92 | as intended: a successful remove filters the key out of the current list; the lock is released |
| Documents.DocumentList.HandleDownload | app/components/document-list.tsx:57-80 | a whole download leaves the lock released |
| Documents.DocumentList.HandleDelete | app/components/document-list.tsx:82-98 | a whole delete: filtered on success, unchanged on failure, lock released |
| Documents.OverlappingDeletesAsWritten | app/components/document-list.tsx:82-98 | deleting `a`, then `b` before the first remove returns, both succeeding: the panel shows `[a]` again |
| Documents.OverlappingDeletesLatest | app/components/document-list.tsx:92 | the same sequence with the updater form shows neither document |
| Documents.StaleFilterRestores | app/components/document-list.tsx:92 | a completion filtering a list captured before another delete completed keeps that delete's documents |
| Documents.LatestFilterRemovesBoth | app/components/document-list.tsx:92 | filtering the latest list by two keys in turn leaves only documents of the list carrying neither key |
| DashboardPage.ReadReply | app/dashboard/page.tsx:113-126 | a reply counts as an answer exactly when its status is 2xx, and then carries the endpoint's `response` |
| DashboardPage.ChatAnswerShown | app/dashboard/page.tsx:105-135 | against the chat endpoint: with a session the assistant message is an entry plus the follow-up question, otherwise the page's error text |
| DashboardPage.UploadPath | app/dashboard/page.tsx:148-150 | the upload key lies in the user's folder and has the file's last `.`-segment as its own |
| DashboardPage.UploadedDocumentListed | app/dashboard/page.tsx:148-152 | the uploaded object, once listed, has the upload's key and the original file's icon |
| DashboardPage.FormatTime | app/dashboard/page.tsx:188-189 | an absent timestamp formats as the empty string |
| DashboardPage.Dashboard.constructor | app/dashboard/page.tsx:43-48 | no user, loading, no messages, empty input, not uploading, not sending |
| DashboardPage.Dashboard.CheckUser | app/dashboard/page.tsx:54-72 | no user: navigate to `/login`, messages untouched; a user: kept, and the messages become the welcome message alone; loading ends false in both; a rejected `getUser` changes nothing, so loading stays on and nothing is navigated |
| DashboardPage.Dashboard.HandleSignOut | app/dashboard/page.tsx:82-86 | sign-out navigates to `/`; a rejected `signOut` navigates nowhere |
| DashboardPage.Dashboard.SetInput | app/dashboard/page.tsx:352 | typing replaces the input |
| DashboardPage.Dashboard.SendBlocked | app/dashboard/page.tsx:91 | a send in flight or an empty input refuses a send |
| DashboardPage.Dashboard.SendBlockedExactly | app/dashboard/page.tsx:91 | a send is refused exactly when the input is all white space or a send is in flight |
| DashboardPage.Dashboard.BeginSend | app/dashboard/page.tsx:89-101 | blank input or a send in flight: no change, nothing posted; otherwise the untrimmed input is posted and appended as a user message, the input is cleared and a send is in flight |
| DashboardPage.Dashboard.FinishSend | app/dashboard/page.tsx:113-138 | exactly one assistant message is appended (the answer, or the fixed error text) and sending ends |
| DashboardPage.Dashboard.HandleSendMessage | app/dashboard/page.tsx:89-139 | a whole send: no change when blocked; otherwise the earlier messages followed by the user message and one assistant message, input empty, not sending |
| DashboardPage.Dashboard.BeginUpload | app/dashboard/page.tsx:141-152 | no file: no change; with a user, uploading is on and storage is asked for `UploadPath`; without one, storage is not called, the failure message is appended and uploading ends |
| DashboardPage.Dashboard.FinishUpload | app/dashboard/page.tsx:152-185 | once storage answered, one assistant message naming the file (success or error text) and uploading ends false |
| DashboardPage.Dashboard.HandleFileUpload | app/dashboard/page.tsx:141-186 | no file: no change; otherwise one assistant message naming the file (success or error text) and uploading ends false; storage gets `UploadPath` when there is a user, never without one |
| ConnectionStatus.Display | app/components/supabase-status.tsx:39-65 | the destructive banner exactly in the error state; its text is the error message, or the fallback when the message is absent or empty, so it is never empty |
| ConnectionStatus.SupabaseStatus.Shown | app/components/supabase-status.tsx:39-65 | the rendered banner is destructive exactly in the error state, and then its text is never empty |
| ConnectionStatus.SupabaseStatus.constructor | app/components/supabase-status.tsx:9-10 | starts loading with no message |
| ConnectionStatus.SupabaseStatus.CheckConnection | app/components/supabase-status.tsx:13-34 | no error or code `42P01`: connected, message untouched; another code: error with that message; a throw: error with the fixed text; never loading afterwards |
| SignUpPage.SignUp.constructor | app/signup/page.tsx:21-23 | terms not agreed, no error, not loading |
| SignUpPage.SignUp.SetAgreedToTerms | app/signup/page.tsx:129 | the checkbox sets the agreement |
| SignUpPage.SignUp.BeginSignUp | app/signup/page.tsx:27-36 | terms not agreed: the terms error, no call, loading unchanged; agreed: call made, error cleared, loading |
| SignUpPage.SignUp.FinishSignUp | app/signup/page.tsx:38-59 | success navigates to `/signup-success`; a returned error shows its message without navigating; a throw shows the fixed text; loading ends false |
| SignUpPage.SignUp.HandleSignUp | app/signup/page.tsx:27-60 | a whole submit: the guard's outcome, or the call's outcome with loading ended |
| SignUpPage.SignUp.BeginGoogleSignIn | app/signup/page.tsx:173-174 | the Google button sets loading |
| SignUpPage.SignUp.FinishGoogleSignIn | app/signup/page.tsx:175-184 | only a returned error shows its message and ends loading; otherwise nothing changes |
| SignUpPage.SignUp.HandleGoogleSignIn | app/signup/page.tsx:173-185 | a whole click: on error the message is shown and loading ends; otherwise loading stays on |

## Findings

| source | as written | input that shows it | evidently intended | confidence | as-written member | corrected member |
|---|---|---|---|---|---|---|
| app/components/document-list.tsx:92 | `setDocuments(documents.filter(...))` filters the `documents` the click's closure captured, not the current list | documents `[a, b]`; delete `a`, then delete `b` before the first remove returns (the lock disables only the acted-on document, lines 181 and 204); both removes succeed: the panel shows `[a]`, although `a` is gone from storage | `setDocuments((prev) => prev.filter(...))`: the panel shows `[]` | not executed; high | Documents.OverlappingDeletesAsWritten | Documents.OverlappingDeletesLatest |

`FinishDelete` models the code as written and `FinishDeleteLatest` the
corrected update. `HandleDelete` (a delete with nothing interleaved) gives
the same list with either.

## Left out

- Session lookup failure in the middleware: `getSession` is awaited with no handling (middleware.ts:10-12), so no fallback is modelled. The gate takes only "session present".
- The SDK calls themselves: `getSession`, `getUser`, `signOut`, `signUp`, `signInWithOAuth`, storage `list`/`upload`/`download`/`remove` and the probe `select`. They are foreign services; only their outcomes enter, as parameters. The e-mail, password and the `emailRedirectTo`/`redirectTo` URLs passed to them are not modelled. Neither is `router.refresh()` after sign-out.
- `Math.random()`: the chat draw is a real in `[0, 1)` and the upload's random name is a string parameter. Uniformity is not modelled. Arithmetic on the draw is exact rather than IEEE double. For a table of ten entries, `floor(r * 10)` stays below 10 with doubles as well.
- The one-second delay in the chat endpoint and the 100 ms `setTimeout` after an upload: timing only.
- `formatFileSize` for non-zero sizes (floating-point `Math.log`, `Math.pow`, `toFixed`), `formatTime` of a present date (`Intl.DateTimeFormat`) and the documents' `created_at` display date (`toLocaleDateString`). The first two are function parameters; the display date is not a field of `Document`.
- DOM work: object URLs and the download link, `scrollIntoView`, clearing the file input.
- React rendering, state batching and effect scheduling: a handler's closure is modelled by passing it the state captured when it started (`BeginDelete` returns it), not by modelling renders. The disabled and spinner states of buttons are derived display state and are not modelled beyond `DocumentList.IsDisabled` and `Dashboard.SendBlocked`.
- The Next.js compilation of the matcher: the optional `/_next/data/<build>` prefix and `.json` suffix it adds around a matcher are not modelled, only the pattern as written. The matcher takes a path containing a raw line terminator as not matched, which never happens to an encoded pathname.
- Text.Lower: only ASCII letters are lower-cased. No other character lower-cases to one of the letters of the eight recognised extensions, so the icon classification is the same.
- DashboardPage.ReadReply: requires a 2xx reply to carry a `response`. A 2xx reply without one would give a message whose content is `undefined`; the chat endpoint never sends such a reply (`ChatApi.Chat` answers 2xx only with a `response`).
- ChatApi: the `message` field is carried as a string. Its JSON type is never inspected, because the endpoint does not read it.
- app/page.tsx and app/signup-success/page.tsx are static pages with links only; they are not part of this model.
