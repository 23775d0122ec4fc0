# Excalidraw AI Studio: verified model of the sync core, repository client and relays

This project models in Dafny the decision logic and state machines of a browser
application that keeps a drawing canvas and a JSON text editor in step. The
application can also load diagrams from a GitHub repository, commit them back,
and relay calls to the Anthropic API. The drawing library, `fetch`,
`JSON.parse`/`JSON.stringify`, `atob`/`btoa` and timers are treated as abstract
inputs. Each of them is a function-typed parameter, a constant field, an
abstract reply value, or an explicit event.

Modules, one per source file plus shared helpers:

- `SyncCore` (`src/App.tsx`): class `App` holds the text buffer `jsonValue`, the
  loop guard `updating` (`isUpdatingFromJSON.current`), the number of scheduled
  guard clears, and the log of `updateScene` instructions sent to the canvas.
  Its methods are the three event sources (canvas `onChange`, text edits, file
  loads) plus `TimerFires`, the deferred clear. The canvas may refuse an
  instruction by throwing (`sceneAccepts`). The invariant `Valid()` says the
  guard is never set unless a clear is still scheduled. Every handler keeps it
  except one: the blank-text branch of `onJsonChange` calls `updateScene`
  outside any `try`. When that call throws, the guard stays set with no clear
  on its way (`SyncCore.StuckGuard`).
- `GitHubExplorer`, `GitHubSaver` (`src/components/`): the pure decisions (URL
  match, extension filter, field validation, SHA choice, status messages) are
  functions. `fetchFiles`, `handleFileClick` and `handleSave` are methods of
  classes whose fields are the component state. Each HTTP reply is an abstract
  `Http.Reply` (ok flag plus decoded body, or a thrown error). The methods
  return the list of requests they issued.
- `RepoUrl`: the unanchored regular expression `github\.com\/([^\/]+)\/([^\/]+)`
  used by both components. It is specified declaratively: the greedy match at
  the leftmost position where any match exists.
- `Relay`, `FunctionsProxy`, `EdgeProxy` (`netlify/`): each relay is a total
  function from a request and an abstract upstream call to a response.
- `AIChat` (`src/components/AIChat.tsx`): class `Chat` holds the append-only
  message log, the prompt, the loading flag and the replies not yet delivered.
  Each mock reply arrives as an explicit timer event.
- `Text`, `Json`, `Http`, `Wrappers`: JavaScript `trim`/`endsWith`/`replace`/
  `substring`, parsed JSON values with JavaScript truthiness and property
  access, abstract HTTP replies, and `Option`/`Result`.

Behaviour of the code worth knowing before reading the model:
- Both relays turn a thrown error into status 500 with an `{error, details}`
  body.
- The serverless relay answers `OPTIONS` like any other non-POST method: 405
  and no CORS headers.
- The chat component has no AI provider behind it. Every prompt gets the same
  canned reply and the same two-element document.

## Model

| member | source | states |
|---|---|---|
| `SyncCore.App.constructor` | src/App.tsx:10-12 | The text starts as `[]`, the guard is clear, no clear is scheduled, no canvas is attached and no instruction has been sent |
| `SyncCore.App.Delivered` | src/App.tsx:62-75 | An instruction reaches the canvas exactly when there is one and `updateScene` does not throw on it |
| `SyncCore.App.AttachCanvas` | src/App.tsx:106 | Once the canvas hands over its API, the editor can drive it |
| `SyncCore.App.Instruction` | src/App.tsx:57-78 | An array replaces the elements. An object whose `elements` is truthy replaces the elements and passes its `appState` along. A throwing conversion, a `null` and any other scalar send nothing |
| `SyncCore.App.OnChange` | src/App.tsx:15-31 | While the guard is set, a canvas report leaves the text unchanged. Otherwise the text becomes the serialisation of the elements alone, whatever view state is reported |
| `SyncCore.App.UpdateSceneFromJson` | src/App.tsx:57-78 | With the canvas attached, the guard is set and the instruction for the document (if any) is delivered. Exactly one clear is scheduled, even when the conversion or `updateScene` threw. So the guard invariant holds afterwards. Without the canvas nothing changes |
| `SyncCore.App.OnJsonChange` | src/App.tsx:34-55 | The new text is always stored first. Blank text sets the guard and clears the scene without parsing. A clear is scheduled only if `updateScene` accepts the empty scene; if it throws, the guard stays set with nothing scheduled. Text that parses goes through the scene update. Unparsable text, or any text before the canvas is attached, changes nothing else. The guard invariant is kept except in the throwing case |
| `SyncCore.App.LoadFile` | src/App.tsx:80-88 | A loaded file's raw content becomes the text whether or not it parses. Parsed content goes through the scene update. The guard invariant is kept |
| `SyncCore.App.TimerFires` | src/App.tsx:45 | Any scheduled clear that fires clears the guard, even if other clears are still pending, and the guard invariant then holds |
| `SyncCore.StuckGuard` | src/App.tsx:41-46 | If the canvas throws on the clear of a blank text, the guard stays set with no clear scheduled, the invariant is broken, and the next canvas change is dropped |
| `Text.TrimEmptyIffBlank` | src/App.tsx:40 | `s.trim() === ""` holds exactly when every character is JavaScript whitespace |
| `Text.TrimsToEmpty` | src/App.tsx:40 | The emptiness test on the trimmed text is true exactly when the text is blank (whitespace only, or empty) |
| `Text.TrimStart` | src/components/AIChat.tsx:20 | The result is a suffix; what was dropped is all whitespace; the result does not start with whitespace |
| `Text.TrimEnd` | src/components/AIChat.tsx:20 | The result is a prefix; what was dropped is all whitespace; the result does not end with whitespace |
| `Text.StripPrefix` | netlify/edge-functions/anthropic-proxy.ts:27 | One leading literal occurrence of the prefix is removed. A string without it is unchanged |
| `Text.Take` | src/components/GitHubSaver.tsx:84 | `substring(0, n)` is a prefix of length `min(n, length)` |
| `Json.Property` | src/App.tsx:67-70 | Reading a property throws exactly on `null`, is defined exactly for an object's own field, and yields that field |
| `RepoUrl.RunEnd` | src/components/GitHubExplorer.tsx:27 | The greedy `[^/]+` stops at the first `/` or at the end, and consumes no `/` |
| `RepoUrl.MatchRepo` | src/components/GitHubExplorer.tsx:27-33 | A match is the greedy owner/repo pair at a position where the pattern matches, and no earlier position can match. There is no match exactly when the pattern matches nowhere |
| `RepoUrl.GreedyMatchUnique` | src/components/GitHubExplorer.tsx:27 | At a given position the owner and repo captured by the greedy groups are unique |
| `GitHubExplorer.DiagramFiles` | src/components/GitHubExplorer.tsx:49 | Only entries with a `.excalidraw` or `.json` path are kept, each diagram entry as often as it occurs, and never more entries than the listing has |
| `GitHubExplorer.DiagramFilesAppend` | src/components/GitHubExplorer.tsx:49 | Filtering distributes over concatenation, so the listing's order is preserved |
| `GitHubExplorer.DiagramFilesSingle` | src/components/GitHubExplorer.tsx:49 | A single entry is kept exactly when its path is a diagram path |
| `GitHubExplorer.Explorer.constructor` | src/components/GitHubExplorer.tsx:14-17 | Empty URL, no files, not loading, no error |
| `GitHubExplorer.Explorer.FetchFiles` | src/components/GitHubExplorer.tsx:19-56 | An unmatched URL gives "Invalid GitHub URL" and makes no request. `master` is requested only after a not-ok `main`. Success shows exactly the filtered listing with no error. Any failure leaves no files and sets the error. `loading` ends false |
| `GitHubExplorer.Explorer.HandleFileClick` | src/components/GitHubExplorer.tsx:58-74 | A successful load selects the decoded content with the file's path and sha and the current URL, leaving the error as it was. Every failure sets an error prefixed "Failed to load file: ". `loading` ends false |
| `GitHubSaver.ChosenSha` | src/components/GitHubSaver.tsx:44-60 | Without a lookup the initial SHA is kept. After an ok lookup its SHA is used. A failed or throwing lookup keeps the initial SHA |
| `GitHubSaver.StaleShaForNewPath` | src/components/GitHubSaver.tsx:48-59 | A changed path whose lookup fails still sends the SHA of the file the form was opened with |
| `GitHubSaver.RejectionMessage` | src/components/GitHubSaver.tsx:80 | A rejected commit reports the server's message, or "Failed to save" when it has none |
| `GitHubSaver.SavedMessage` | src/components/GitHubSaver.tsx:84 | The success status is "Saved! Commit: " followed by the first seven characters of the commit SHA |
| `GitHubSaver.Saver.constructor` | src/components/GitHubSaver.tsx:11-20 | The path starts as the initial path, the token as the stored one, with an empty message, not loading and no status |
| `GitHubSaver.Saver.ChangeInitialPath` | src/components/GitHubSaver.tsx:22-24 | A new non-empty initial path replaces the edited path |
| `GitHubSaver.Saver.HandleSave` | src/components/GitHubSaver.tsx:26-91 | A missing field gives an error status and makes no request. A bad URL gives "Invalid Repo URL". The lookup runs only when needed. The PUT carries the message, the encoded content and the chosen SHA. Success shows the short SHA and clears the message. Every failure keeps the message. `loading` ends false after validation |
| `GitHubSaver.Saver.Commit` | src/components/GitHubSaver.tsx:62-87 | An encoding failure reports its message and sends nothing. Otherwise exactly one PUT goes out, carrying the message, the encoded content and the given SHA. A commit shows "Saved! Commit: " and the short SHA and clears the message. A rejection shows the server message or "Failed to save". A thrown request shows its message. Every failure keeps the message |
| `Relay.HeaderOr` | netlify/functions/anthropic-proxy.ts:26-27 | An absent or empty header takes the fallback; a non-empty one is kept |
| `Relay.ForwardHeaders` | netlify/functions/anthropic-proxy.ts:24-29 | Exactly four headers go upstream: JSON content type, the API key defaulting to "", the version defaulting to 2023-06-01, and the browser-access opt-in "true" |
| `Relay.CorsHeaders` | netlify/edge-functions/anthropic-proxy.ts:4-9 | The CORS set: any origin, the fixed allowed headers and the given methods |
| `FunctionsProxy.UpstreamPath` | netlify/functions/anthropic-proxy.ts:17 | The result is a suffix of the path. The function prefix and then the route prefix are each removed at most once, only as literal leading prefixes |
| `FunctionsProxy.StripsRoutePrefixOnce` | netlify/functions/anthropic-proxy.ts:17 | A doubled route prefix leaves one copy behind |
| `FunctionsProxy.Forwarded` | netlify/functions/anthropic-proxy.ts:18-31 | Always POST, to the API host plus the rewritten path with no query string, with the defaulted headers and the body unchanged |
| `FunctionsProxy.Handle` | netlify/functions/anthropic-proxy.ts:3-52 | Every non-POST method, OPTIONS included, gets 405 "Method Not Allowed" with no headers. A relayed answer keeps its status and text and gains the CORS set (methods "POST, OPTIONS"). A thrown error becomes 500 with the `{error, details}` body. CORS headers appear exactly on relayed answers |
| `EdgeProxy.Forwarded` | netlify/edge-functions/anthropic-proxy.ts:25-41 | Same method, the API host plus the path with one leading route prefix removed plus the original query string, the defaulted headers, and the body passed through |
| `EdgeProxy.Handle` | netlify/edge-functions/anthropic-proxy.ts:3-59 | OPTIONS gets 200 with no body and no upstream call. Other methods except GET and POST get 405. A relayed answer keeps its status and body with the upstream content type, or JSON when it has none. A thrown error becomes 500. Every response carries the CORS headers |
| `EdgeProxy.RelaysAgreeOnPost` | netlify/edge-functions/anthropic-proxy.ts:27-50 | For a POST without query string or function prefix, both relays forward the same request and return the same status and body |
| `AIChat.MockElement` | src/components/AIChat.tsx:30-55 | A mock element carries its id and type, version 1, nonce 0, seed 1 and `isDeleted` false |
| `AIChat.MockDocument` | src/components/AIChat.tsx:29-90 | The mock document has two elements, "rect-1" (a rectangle) and "text-1" (a text), both at version 1 and not deleted, with distinct ids and all required element fields |
| `AIChat.CountAppend` | src/components/AIChat.tsx:23 | Appending a message raises its role's count by one and leaves the other role's count alone |
| `AIChat.Chat.constructor` | src/components/AIChat.tsx:13-17 | The log starts as the single assistant greeting, with an empty prompt and not loading |
| `AIChat.Chat.Send` | src/components/AIChat.tsx:19-26 | A blank prompt changes nothing. Otherwise exactly one user message with the untrimmed prompt is appended, the prompt is cleared, `loading` is set and one reply is scheduled. Every user message stays matched by one reply, logged or pending |
| `AIChat.Chat.ReplyArrives` | src/components/AIChat.tsx:28-96 | The mock reply is appended after what is logged, the mock document is handed to `onJsonUpdate`, and `loading` becomes false |

## Left out

- JSX rendering, CSS, and input wiring. Fields such as `repoUrl`, `token`,
  `path`, `message` and `prompt` are assigned directly, as the inputs'
  `onChange` handlers do.
- The drawing library. `convertToExcalidrawElements` is an opaque function that
  may fail. `updateScene` either accepts an instruction, which is then logged,
  or throws (`sceneAccepts`). What a throwing call may have changed on the
  canvas is not modelled. Neither is its merging of `appState` into the
  canvas's view state.
- `JSON.parse`, `JSON.stringify`, `atob` and `btoa` are opaque functions. A
  failing one is an `Err` or `None` carrying the thrown message.
- `fetch` and the network. Every reply is an abstract value. Response streaming
  in the edge relay is reduced to passing the body through unchanged.
- Timer durations (50 ms, 1500 ms). Each timer is an explicit event. The
  scenario `SyncCore.OverlappingClears` shows that the first clear to fire
  clears the guard.
- Interleaving of asynchronous handlers. Each handler runs to completion, so
  the intermediate `loading == true` state during an `await` is not observable
  and overlapping `fetchFiles` or `handleSave` calls are not modelled.
- `localStorage` (the token is read at mounting as a constructor parameter; the
  write in `handleSave` is not modelled), and `console.log`/`console.error`.
- `AIChat.Chat.ReplyArrives`: `onJsonUpdate` receives the mock document
  serialised with `JSON.stringify(..., null, 2)`. The model records the
  element values (`emitted`) and leaves the serialisation out.
- `GitHubExplorer.Explorer.HandleFileClick`: the requested URL is always the
  file's `url` and is not recorded.
- JavaScript strings are sequences of UTF-16 code units; the model uses Unicode
  characters, which gives the same results for the operations used here.
