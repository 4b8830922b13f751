# GlizzyBot chat: a Dafny model

GlizzyBot is a small web chat. A Node/Express backend (`my-ai-site/server.js`) checks an optional
Google ID token. It forwards each message to a completion provider (OpenAI) and keeps one JSON
history file per signed-in e-mail address. Two browser scripts talk to it:

- `script.js` is the root page. It escapes text for HTML, decides whether and what to send, and
  decides which bot bubble to show.
- `docs/script.js` is the static-site page. It keeps the last 100 messages in memory and copies
  them to `localStorage` under a key per Google account when the save toggle is on.

This project models those three pieces and proves what they promise.

- `wrappers.dfy` (`Wrappers`): `Option`.
- `js_string.dfy` (`JsString`): `String.prototype.trim`, with the exact ECMAScript white-space and
  line-terminator set. Both pages trim the input before deciding to send.
- `server.dfy` (`Server`): the data directory is a map from file name to file content. A file is
  either a record array or text that `JSON.parse` rejects. The class `ChatServer` owns that map.
  Its methods `SaveUserMessage`, `Chat` and `History` follow the source step by step. Each method
  is proved equal to a pure function (`SavedDir`, `ChatResponse`/`ChatDir`, `HistoryResponse`),
  and the lemmas are stated about those functions. The identity verifier's verdict, the provider's
  result and the record timestamps are parameters.
- `client.dfy` (`Client`): `escapeHtml` as a recursive function over the string, with a decoder
  for its six entities. It also holds the pure decisions of `sendMessage` and the sign-in and
  logout updates of `idToken`/`currentUser`. Two lemmas connect the page to the server's answers.
- `pages_client.dfy` (`PagesClient`): the page state is a class with `googleUser`, the save
  toggle, `chatHistory` (a `seq`) and `localStorage` (a `map`). Each handler is a method whose
  postcondition gives the whole new state. Every method keeps the 100-entry cap (`Bounded`).

A `char` stands for one UTF-16 code unit of a JavaScript string.

Three facts about the code shape the model:

- History files are keyed only by the sanitised e-mail address, never by the subject id.
- `/api/history` answers 500 when the file cannot be parsed.
- `docs/script.js` posts `{ prompt, user }` to `/chat`, but `server.js` serves only `/api/chat`
  with `{ message, id_token }`. So this server does not answer the static page's requests.
  `PagesClient` takes that request's outcome as an input and is not connected to `Server`.

## Model

| member | source | states |
|---|---|---|
| `Server.SafeEmailToFilename` | my-ai-site/server.js:33-35 | length is preserved; each allowed character (`A-Za-z0-9@._-`, both cases because of the `i` flag) stays in place and every other character becomes `_`; the output contains only allowed characters |
| `Server.SafeEmailToFilenameIdempotent` | my-ai-site/server.js:33-35 | sanitising twice equals sanitising once |
| `Server.SafeEmailToFilenameFixedPoints` | my-ai-site/server.js:33-35 | the sanitiser leaves a string unchanged exactly when the string is made of allowed characters only |
| `Server.FilenameCollision` | my-ai-site/server.js:33-35 | two distinct addresses get the same file name (the accepted collision) |
| `Server.SavedDir` | my-ai-site/server.js:38-52 | an empty email, or a file that does not parse, leaves the directory unchanged; otherwise the file `sanitised + '.json'` reads as old history ++ [record], with a missing file read as []; every other file is unchanged |
| `Server.SavedDirAppendOnly` | my-ai-site/server.js:43-48 | a save never rewrites or shortens any readable history: each old history is a prefix of the new one |
| `Server.SavedAllReadsBack` | my-ai-site/server.js:38-52 | a run of sequential saves for one address reads back as the old history followed by exactly those records, in save order |
| `Server.ChatServer.SaveUserMessage` | my-ai-site/server.js:38-52 | read the file (or start from []), push the record, write the whole array back: the new directory is `SavedDir` of the old one |
| `Server.VerifyGoogleToken` | my-ai-site/server.js:55-71 | a falsy token gives no payload without asking the verifier; any other token gives the verifier's verdict, which is none for a rejected token |
| `Server.SignedInEmail` | my-ai-site/server.js:85 | a caller counts as signed in exactly when a payload exists and its `email` is a non-empty string |
| `Server.ReplyText` | my-ai-site/server.js:115 | the reply is never empty: it is the provider content when that content is non-empty, otherwise "Sorry, I couldn't get a reply." |
| `Server.ChatResponse` | my-ai-site/server.js:75-127 | 400 `No message provided` exactly for a missing, empty or non-string message; 502 with `OpenAI API error` and the upstream text exactly when the provider's response is not ok; 500 `Server error` exactly when the provider exchange threw; 200 with a non-empty reply exactly on provider success |
| `Server.ChatDir` | my-ai-site/server.js:75-127 | a rejected message or an unverified caller leaves the directory unchanged; no file other than the caller's changes; every history only grows; a readable history gains the user record and then, only on provider success, the bot record |
| `Server.ChatServer.Chat` | my-ai-site/server.js:75-127 | the handler's answer is `ChatResponse` and its effect on the store is `ChatDir` |
| `Server.HistoryResponse` | my-ai-site/server.js:130-147 | 401 `Invalid token` without a verified email, whatever the store holds; otherwise 200 with the stored history, or [] when there is no file; 500 `Failed to load history` when the file does not parse |
| `Server.ChatServer.History` | my-ai-site/server.js:130-147 | the handler changes nothing and answers `HistoryResponse` |
| `Server.ChatThenHistory` | my-ai-site/server.js:75-147 | after a signed-in chat, `/api/history` returns the old history followed by the user record and, on provider success, the bot record |
| `JsString.Trim` | script.js:41 | the trimmed text has no white space at either end, and it is empty exactly when the input is all white space |
| `JsString.TrimIsMiddle` | script.js:41 | the trimmed text is the contiguous middle of the input, between a white-space prefix and a white-space suffix |
| `JsString.TrimIdempotent` | script.js:41 | trimming twice equals trimming once |
| `Client.EscapeChar` | script.js:23 | the six special characters map to their entities, each starting with `&`; any other character is copied unchanged |
| `Client.EscapeText` | script.js:23 | the escaped text is at least as long as the input and contains none of `<` `>` `"` `'` `` ` `` |
| `Client.EscapeHtml` | script.js:21-24 | null, undefined and '' give ''; any other string is escaped |
| `Client.EscapeTextConcat` | script.js:23 | escaping distributes over concatenation |
| `Client.EscapeHtmlConcat` | script.js:21-24 | `escapeHtml(a + b) == escapeHtml(a) + escapeHtml(b)` for all strings |
| `Client.EscapeTextGrows` | script.js:23 | a string containing a special character gets strictly longer when escaped |
| `Client.EscapeTextUnchanged` | script.js:23 | escaping leaves a string unchanged exactly when it contains no special character |
| `Client.UnescapeStep` | script.js:23 | the decoder reads exactly one escaped character off the front |
| `Client.UnescapeEscape` | script.js:23 | decoding the six entities recovers the original string |
| `Client.EscapeTextInjective` | script.js:23 | two texts that escape alike are equal |
| `Client.RequestBody` | script.js:53-54 | `message` is always the given text; `id_token` is present exactly when the token is non-empty and the save toggle is checked, and it is then that token |
| `Client.BotBubbleText` | script.js:64-73 | the bot bubble is never empty; a thrown exception shows the fixed network text; a truthy `data.reply` is shown as is; otherwise a truthy `data.error` is shown after `'Error: '`; with neither, the no-reply text |
| `Client.SendMessage` | script.js:40-76 | all-white-space input sends nothing and shows nothing; otherwise the trimmed text is sent and shown as the user bubble, followed by exactly one bot bubble |
| `Client.AnswerData` | script.js:62-67 | the client sees a `reply` exactly for a reply body and an `error` exactly for an error body, each carrying the server's own text |
| `Client.SentMessageBubble` | script.js:52-73 | a message this page sends always passes the server's 400 guard; the bot bubble then shows the provider reply or the server fallback, or "Error: " with the server's error, and never "No reply from server." |
| `Client.SaveToggleOffStoresNothing` | script.js:53-54 | with the save toggle off, no token is sent, so the server stores nothing for that message |
| `Client.HandleCredentialResponse` | script.js:128-140 | a missing or empty credential changes nothing; otherwise the credential becomes the token, and the user is replaced only when decoding succeeds |
| `Client.Logout` | script.js:93-99 | logout clears both the token and the user |
| `Client.TokenFollowsSession` | script.js:128-131 | after sign-in, a saved message carries the new token; after logout, no message carries a token |
| `PagesClient.StorageKeyInjective` | docs/script.js:79 | distinct accounts never share a storage key |
| `PagesClient.StorageAfterSave` | docs/script.js:77-80 | the store changes only for a signed-in user with saving on; then only the key `glizzybot_history_` + sub changes, and it holds the current history |
| `PagesClient.SaveOverwrites` | docs/script.js:77-80 | two saves in a row leave what the second save wrote |
| `PagesClient.HistoryAfterLoad` | docs/script.js:83-95 | not signed in or saving off gives []; otherwise the stored history if one exists, else the history unchanged |
| `PagesClient.LoadKeepsBound` | docs/script.js:83-95 | loading keeps the history within 100 entries when every stored history is within 100 |
| `PagesClient.Pushed` | docs/script.js:98-100 | the new entry is last; a history within 100 stays within 100; when the push goes over 100, exactly the oldest entry is dropped |
| `PagesClient.PushedAllIsWindow` | docs/script.js:98-102 | from a history within the cap, any run of appends leaves exactly the most recent 100 entries |
| `PagesClient.BotReply` | docs/script.js:120 | the bot entry is the reply when that reply is non-empty, otherwise 'No response.' |
| `PagesClient.ChatPage.constructor` | docs/script.js:17-18 | the page starts with no user and an empty history, and within the 100-entry cap whenever every stored history is |
| `PagesClient.ChatPage.SaveHistory` | docs/script.js:77-80 | the store becomes `StorageAfterSave` of the old store, and the cap is kept |
| `PagesClient.ChatPage.LoadHistory` | docs/script.js:83-95 | the history becomes `HistoryAfterLoad`, and the cap is kept |
| `PagesClient.ChatPage.AppendToHistory` | docs/script.js:98-102 | the history becomes `Pushed(old, {text, fromBot})`, then it is saved, and the cap is kept |
| `PagesClient.ChatPage.ShowLoggedOutUI` | docs/script.js:41-48 | the user becomes null and the history []; the store and the toggle are untouched |
| `PagesClient.ChatPage.OnLoad` | docs/script.js:161-170 | after page load there is no user and the history is empty |
| `PagesClient.ChatPage.HandleCredentialResponse` | docs/script.js:21-31 | a decoded user is signed in and their history is loaded; a failed decode leaves nobody signed in and the history as it was |
| `PagesClient.ChatPage.Clear` | docs/script.js:149-153 | the history becomes []; when saving is allowed, the user's stored entry also becomes [] |
| `PagesClient.ChatPage.SendMessage` | docs/script.js:105-126 | all-white-space input changes nothing; otherwise the user entry is appended before the request; the bot entry (the reply, or 'No response.') is appended only on success; an error shows "Error: " and the message but adds no entry; the store ends up holding the final history when saving is allowed |

## Left out

- HTTP plumbing is not modelled: Express routing, CORS, static serving, `app.listen` and `GET /api/ping`. The handlers' answers are `Response` values.
- `fs` is not modelled. This covers directory creation, `path.join` and write failures. A file that `JSON.parse` rejects is modelled; a file that parses but is not an array is not.
- Serialisation is not modelled: `JSON.stringify`/`JSON.parse` formatting for the files, for `localStorage` and for the export download. Stored values are sequences of records or entries.
- Google token verification and `jwt_decode` are foreign calls, modelled as oracle inputs. The placeholder-client-id branch of `verifyGoogleToken` is not modelled: the client id is a fixed real value, so that branch never runs.
- The OpenAI request (model name, system persona, `max_tokens`, `temperature`) is not modelled. Only its outcome is an input.
- Concurrency is not modelled, including the lost update between two overlapping requests for one address. Every handler runs to completion before the next one.
- Timestamps are opaque inputs. The claim that saved timestamps never decrease is therefore not stated.
- UI is not modelled: DOM rendering, bubbles' timestamps, animations, scrolling, the typing indicator, the settings panel, the GSI button and its retry, `showLoggedInUI`, and the welcome and logout bubbles.
- `script.js` export button and `loadHistory` are not modelled. They fetch `/api/history` and render or download it; the server side of that exchange is `Server.HistoryResponse`.
- `docs/script.js` export button is not modelled. It is a download of `chatHistory`.
- The logout handler of `docs/script.js` is not a separate member. Apart from a GSI call, it is `ShowLoggedOutUI`.
- A `localStorage` value that `JSON.parse` rejects is not modelled. In the source, `loadHistory` would then throw.
- Non-string values where the source expects strings are not modelled. Examples are a number passed to `escapeHtml` or a non-string `email` claim.
- Characters outside the Basic Multilingual Plane are not modelled. JavaScript sees such a character as two code units, so the sanitiser turns it into two `_`; the model has one `char` per code unit and no surrogates.
- Environment-variable warnings and the hard-coded client ids are not modelled.
