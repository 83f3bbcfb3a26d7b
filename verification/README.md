# Image uploader: session gate and upload dashboard

A Dafny model of the two stateful pieces of a small image-upload dashboard.

- **Session gate** (`contexts/AuthContext.tsx`, module `AuthSession`). A session is two fields, `isAuthenticated` and `username`. It is mirrored into the browser's key-value store under the keys `isAuthenticated` and `username`. The class `AuthProvider` holds the two fields and the store, modelled as a `map<string, string>` field. Its methods are the mount-time hydration, `login` and `logout`. Two parts are pure functions: the password test `/^\d{4}$/` (`IsFourDigitPin`, over a matcher `DigitsThenEnd`) and the username normalisation `trim() || 'Guest'` (`FinalUsername`, over `Trim`).
- **Upload dashboard** (`app/dashboard/page.tsx`, module `Dashboard`). The class `DashboardPage` holds `uploads`, `selectedImage`, `isUploading`, `error`, and the route last passed to the router. It has the session effect with `loadUploads`, the file-input handler `handleFileUpload`, the select and Close handlers, the logout handler, and a `Render` function. `Render` keeps what the page's logic decides and the data it shows: whether the page renders at all, the signed-in name and the list, the error banner with the error's text, the upload prompt or the viewer with the selected record, and whether the file inputs are disabled. `isUploading` is true only within `handleFileUpload`, between page.tsx:55 and page.tsx:98; `StoreAndRecord` requires it, and `HandleFileUpload` always ends with it false. The file-type test `/image\/(jpeg|jpg|png)/` is a pure function, `AcceptsImageType`. It is specified against an independent predicate: the type contains one of the three accepted types.

The remote storage and database calls are not modelled. The handlers take what those calls answered as an argument. `HandleFileUpload` takes a `RemoteOutcome`: either the new document's id, view URL and timestamp, or a failure carrying the error's message if it had one. `OnSessionChange` takes the listed documents, or `None` when the listing failed. Each handler runs as one atomic step.

The file-type check is a substring test, and the model follows the code here. The file inputs list exactly `image/jpeg`, `image/jpg` and `image/png` in their `accept` attribute (page.tsx:189, 227), which suggests the three types are meant exactly. The regular expression at page.tsx:50 is not anchored, though, so any declared type that contains one of them passes. For example, `image/pngx` passes (`LongerTypesAccepted`).

## Model

| member | source | states |
|---|---|---|
| `AuthSession.DigitsThenEndExactly` | contexts/AuthContext.tsx:31 | `\d{n}$` matched from the start of the input holds exactly when the input has length n and every character is an ASCII digit |
| `AuthSession.IsFourDigitPin` | contexts/AuthContext.tsx:31 | the password test passes iff the password is exactly four characters, each in `0`-`9` |
| `AuthSession.TrimStart` | contexts/AuthContext.tsx:35 | the result is a suffix of the input; everything dropped is whitespace; the result does not start with whitespace |
| `AuthSession.TrimEnd` | contexts/AuthContext.tsx:35 | the result is a prefix of the input; everything dropped is whitespace; the result does not end with whitespace |
| `AuthSession.Trim` | contexts/AuthContext.tsx:35 | the result is a slice of the input with only whitespace outside it and no whitespace at either end; it is empty iff the input is all whitespace |
| `AuthSession.TrimOfIsUnique` | contexts/AuthContext.tsx:35 | the description of a trimmed string admits exactly one result, so `Trim` is the only function meeting it |
| `AuthSession.TrimKeepsBareString` | contexts/AuthContext.tsx:35 | a string with no whitespace at either end, the empty string included, is kept as it is |
| `AuthSession.StartThenEndIsTrimmed` | contexts/AuthContext.tsx:35 | dropping leading and then trailing whitespace leaves the slice with only whitespace outside it and none at either end; it is empty iff the input is all whitespace |
| `AuthSession.TrimIdempotent` | contexts/AuthContext.tsx:35 | trimming twice gives the same as trimming once |
| `AuthSession.BareNameKept` | contexts/AuthContext.tsx:35 | a typed name with no whitespace at either end becomes the session's name unchanged |
| `AuthSession.FinalUsername` | contexts/AuthContext.tsx:35 | the chosen name is never empty; it is `Guest` when the input is all whitespace, otherwise the trimmed input |
| `AuthSession.Lookup` | contexts/AuthContext.tsx:20-21 | a read of the store yields a value iff the key is present, and then the stored value |
| `AuthSession.RestoredName` | contexts/AuthContext.tsx:20-26 | a session is restored iff the stored flag is exactly `"true"`; the restored name is the stored name, or `Guest` when that is absent or empty, so it is never empty |
| `AuthSession.LoggedInStorage` | contexts/AuthContext.tsx:39-40 | login adds exactly the two session keys, with `"true"` and the final name, and every other key keeps its value |
| `AuthSession.LoggedOutStorage` | contexts/AuthContext.tsx:48-49 | logout removes exactly the two session keys, and every other key keeps its value |
| `AuthSession.RestoreAfterLogin` | contexts/AuthContext.tsx:20-40 | hydrating from the store a login left restores that login's name |
| `AuthSession.RestoreAfterLogout` | contexts/AuthContext.tsx:20-49 | hydrating from the store a logout left restores nothing |
| `AuthSession.AuthProvider.constructor` | contexts/AuthContext.tsx:15-16 | a new session is unauthenticated with an empty name, over the given store |
| `AuthSession.AuthProvider.Hydrate` | contexts/AuthContext.tsx:18-27 | when the store holds a restorable session, the fields become authenticated with the restored name; otherwise they are unchanged; the store is never written |
| `AuthSession.AuthProvider.Login` | contexts/AuthContext.tsx:29-43 | returns true iff the password is four ASCII digits; on false the session and the store are unchanged; on true the session is authenticated under the final name and the store is the logged-in store |
| `AuthSession.AuthProvider.Logout` | contexts/AuthContext.tsx:45-50 | whatever the prior state, the session is unauthenticated with an empty name and neither key is in the store |
| `AuthSession.LoginThenReload` | contexts/AuthContext.tsx:18-43 | after a successful login, a fresh session hydrated from the same store has the same flag and name |
| `AuthSession.LogoutThenReload` | contexts/AuthContext.tsx:18-50 | after a logout, a fresh session hydrated from the same store is identical to the logged-out one: unauthenticated, empty name |
| `AuthSession.LogoutTwice` | contexts/AuthContext.tsx:45-50 | from any hydrated or logged-in session, a second logout changes neither the session nor the store |
| `AuthSession.ScenarioPins` | contexts/AuthContext.tsx:31 | `1234` and `0000` pass the password test and `12a4` does not |
| `AuthSession.ScenarioNames` | contexts/AuthContext.tsx:35 | `alice` is kept as typed, and an empty name becomes `Guest` |
| `AuthSession.LoginExamples` | contexts/AuthContext.tsx:29-43 | login("alice","1234") authenticates as `alice`; login("alice","12a4") is refused and leaves the session and store exactly as `alice`'s login left them; login("","0000") authenticates as `Guest` |
| `Dashboard.SearchFrom` | app/dashboard/page.tsx:50 | the unanchored search from position i succeeds iff the pattern matches at some position at or after i |
| `Dashboard.SearchFindsAcceptedType` | app/dashboard/page.tsx:50 | the search succeeds iff the type contains `image/jpeg`, `image/jpg` or `image/png` |
| `Dashboard.AcceptsImageType` | app/dashboard/page.tsx:50 | the type test passes iff the declared type contains one of the three accepted types as a substring |
| `Dashboard.ExactTypesAccepted` | app/dashboard/page.tsx:50 | each of the three types passes as it stands |
| `Dashboard.AcceptedTypeContainsG` | app/dashboard/page.tsx:50 | any type that passes contains the letter `g` |
| `Dashboard.LongerTypesAccepted` | app/dashboard/page.tsx:50 | types that only contain an accepted type pass too: `image/pngx`, `text/plain; image/jpeg` |
| `Dashboard.PdfRejected` | app/dashboard/page.tsx:50-53 | `application/pdf` fails the type test |
| `Dashboard.FailureMessage` | app/dashboard/page.tsx:96 | the shown error is the error's message when that is present and non-empty, else the fixed fallback text; never empty |
| `Dashboard.DashboardPage.constructor` | app/dashboard/page.tsx:20-23 | a page starts with no uploads, no selection, not uploading and no error |
| `Dashboard.DashboardPage.OnSessionChange` | app/dashboard/page.tsx:25-31 | without a session the page requests `/login` and leaves the list alone; with one it loads the list and requests no navigation |
| `Dashboard.DashboardPage.LoadUploads` | app/dashboard/page.tsx:33-43 | the list becomes the server's answer, or stays as it was when the request failed; nothing else changes |
| `Dashboard.DashboardPage.HandleFileUpload` | app/dashboard/page.tsx:45-100 | no file: nothing changes. Refused type: the error is the fixed type message and list, selection and flag are unchanged. Accepted type: uploading ends false. On success the list is the new record followed by the old list, the record's id, URL, name, time and user are as answered, it is selected, and no error is shown. On failure, list and selection are unchanged and the error is the failure message. A selection drawn from the list stays in the list |
| `Dashboard.DashboardPage.StoreAndRecord` | app/dashboard/page.tsx:58-96 | runs only while uploading with the error cleared; success prepends and selects the new record; failure sets the error and keeps list and selection |
| `Dashboard.DashboardPage.Select` | app/dashboard/page.tsx:140 | the clicked entry becomes the selection; the list and everything else are unchanged |
| `Dashboard.DashboardPage.Close` | app/dashboard/page.tsx:219 | the selection is cleared; the list and everything else are unchanged |
| `Dashboard.DashboardPage.HandleLogout` | app/dashboard/page.tsx:102-105 | the session is logged out, the page requests `/login`, and the page's own state is unchanged |
| `Dashboard.DashboardPage.Render` | app/dashboard/page.tsx:107-245 | without a session the page renders nothing; otherwise it shows the user and the list, a banner carrying the error's text iff there is an error, the viewer iff something is selected and then the selected record, and the file input disabled iff an upload runs |
| `Dashboard.UploadCatScenario` | app/dashboard/page.tsx:45-100 | after `alice` logs in with `1234`, a successful JPEG upload of `cat.jpg` on an empty list gives a one-record list whose record is named `cat.jpg`, carries the answered id, is made out to `alice`, and is selected, with the upload finished |
| `Dashboard.UploadPdfScenario` | app/dashboard/page.tsx:49-53 | on a signed-in page, uploading `application/pdf` leaves the list as it was and the rendered page shows that list and the type error in its banner, whatever the remote side would answer |
| `Dashboard.RenderDisablesInputWhileUploading` | app/dashboard/page.tsx:184-232 | while an upload runs, the page shows a disabled file input whichever pane is shown |

## Left out

- lib/appwrite.ts only builds the SDK client from environment variables. It is not part of this model.
- The storage and database calls (`createFile`, `getFileView`, `createDocument`, `listDocuments`) are foreign network calls. The handlers take their answers as arguments. A failure that happens after the file was stored but before its record was written leaves the stored file behind. The model's `Failed` outcome covers both failure points, and leftover remote objects are outside its state.
- The metadata fields that are written remotely and never kept locally (`fileId`), the client timestamp `new Date().toISOString()`, and the conversion of listed documents to records are left out. They are wall clock and SDK data.
- Rendering: styling, button labels, date formatting, and the highlighting of the selected entry by id. `Render`'s `View` carries the signed-in name, the list, the banner text, the selected record and the disabled flag, and nothing of the markup.
- React scheduling and asynchrony are left out. The handlers are atomic steps, so the model does not capture the stale `uploads` value captured at page.tsx:92 when a listing finishes during an upload. It also does not capture the order in which the page's mount effect and the provider's hydration run.
- `DashboardPage.LoadUploads` replaces the list. A selection drawn from the old list need not be in the new one, so `SelectionListed` is not claimed for that handler.
- `console.error` logging is left out. Navigation is only the requested route.
- `useAuth` outside a provider throws. That is a framework-context error, not session logic.
- `AuthSession.IsWhitespace` lists the characters of ECMAScript's WhiteSpace and LineTerminator, taking the Unicode space separators as of Unicode 15. A later Unicode version that adds separators would change what `trim` removes.
- Strings are Dafny `char` sequences, while JavaScript strings are UTF-16 code units. Lone surrogates and the length of characters outside the Basic Multilingual Plane are not modelled. Neither the four-digit test nor `trim` depends on them, since all the characters they inspect are single code units.
- `localStorage.setItem` can throw, for example when the quota is full or in some private-browsing modes. `login` then throws after it has already set the session fields (contexts/AuthContext.tsx:36-40). The model's store never refuses a write.
- A thrown value that is not an `Error`, or is `null`, reaching `err.message` at page.tsx:96 is not modelled. The model's failure carries an optional message string, so it covers an `Error` with or without a message.
