# Session capture and replay for an Electron kiosk browser

This project models, in Dafny, the core of a small Electron tool made of three scripts:

- **index.js**, the recorder. It opens a target URL in a kiosk window. It writes the default session's whole cookie jar to `/cookies/cookies.json`, and both web-storage maps to `/cookies/localStorage.json` and `/cookies/sessionStorage.json`. It writes all three once when the page first finishes loading, and rewrites the cookie file on every change of the jar.
- **index2.js**, the restorer. It reads a cookie file and turns each cookie into the details record of `session.cookies.set`. It pushes these one at a time into the jar of a fresh `temporary-session` partition. Only after the last attempt does it create the window and navigate.
- **preload.js**, the in-page mutation channel. It wraps `Storage.prototype.setItem` and `removeItem` so that each mutation is followed by a `storage-updated` message. That message carries both storage maps whole. A `storage` event from another frame sends the same message. Changes that bypass the two wrappers (`clear()`, a named-property write or delete) send nothing; the model includes them so that what the last message can miss is stated.

The Electron runtime is abstract state in the model:
- the cookie jar is a sequence of records;
- each storage object is a `map<string, string>`;
- the file system is a map from path to a parsed JSON `Document`;
- the IPC channel is an outbox sequence.

What the runtime decides is passed in as a parameter: which `set` calls it refuses, and which capture steps throw. The module layout follows the scripts:
- `session_data.dfy`: the cookie record and the documents of the file store;
- `restorer.dfy`: index2.js;
- `storage_channel.dfy`: preload.js;
- `recorder.dfy`: index.js;
- `replay.dfy`: the two sides joined, so a captured jar can be followed through its replay.

The scripts do not do any of the following, so the model does not either:
- retry a refused cookie, or back off between attempts;
- repair `sameSite`/`secure`;
- check `__Host-`/`__Secure-` prefixes;
- produce a per-cookie report;
- inject storage into the replayed page.

A refused `set` is logged and skipped after one attempt. index.js has no receiver for the `storage-updated` messages preload.js sends, and it does not load preload.js into its window. The channel is modelled as specified by preload.js alone.

## Model

| member | source | states |
|---|---|---|
| Restorer.Scheme | index2.js:20 | the scheme is `https` if and only if `secure` is present and true, `http` otherwise |
| Restorer.StripLeadingDot | index2.js:20 | a domain that starts with `.` loses exactly that one dot (`..a.com` gives `.a.com`); any other domain is unchanged |
| Restorer.PathText | index2.js:20 | a present path is rendered as itself and a missing one as the text `undefined` |
| Restorer.InjectionUrl | index2.js:20 | there is a URL exactly when the cookie has a domain; reading it back gives `https` iff secure, then after `://` the dot-stripped domain followed by the path (`undefined` when the path is missing) |
| Restorer.BuildDetails | index2.js:19-27 | building fails (a TypeError) exactly when the domain is missing; otherwise the url is the injection URL and name, value, path, secure, httpOnly and expirationDate are copied unchanged; the record has no domain or sameSite field |
| Restorer.DetailsForgetDomainAndSameSite | index2.js:19-27 | sameSite, hostOnly and session never reach the jar, and the domain reaches it only as the dot-stripped host: cookies agreeing on the rest give equal details |
| Restorer.ParseCookieFile | index2.js:15-18 | a file holding a cookie array yields exactly that array; unparseable text is a SyntaxError and a non-array a TypeError of the loop |
| Restorer.BuildAll | index2.js:18-20 | the details built are those of a prefix of the file, in order, and when the prefix is shorter the next cookie's details cannot be built |
| Restorer.BuildAllUnique | index2.js:18-20 | a built prefix followed by a cookie that cannot be built (or by the end of the file) is the built prefix: those facts determine it uniquely |
| Restorer.LoadPlan | index2.js:9-20 | a missing file or a file that is not a cookie array leads to no attempt at all; otherwise at most one attempt per cookie |
| Restorer.LoadStopsAtFirstBadCookie | index2.js:14-40 | if the k-th cookie is the first without a domain, exactly the k cookies before it are attempted, each with its own details, and the error is swallowed |
| Restorer.LoadAttemptsEveryWellFormedCookie | index2.js:18-35 | if every cookie has a domain, every cookie is attempted, in file order |
| Restorer.AttemptLog | index2.js:29-34 | one attempt is recorded per details |
| Restorer.AttemptLogAt | index2.js:18-35 | the i-th attempt is for the i-th details and is accepted unless the runtime refuses position i: no skip, repeat or reordering, and a refusal does not end the log |
| Restorer.Accepted | index2.js:29-34 | the jar gains at most one record per attempt |
| Restorer.AcceptedComeFromAttempts | index2.js:29-34 | the jar gains only records that were passed to `set` |
| Restorer.JarGrowsByAcceptedAttempts | index2.js:29-34 | what the jar gains is exactly the sequence of attempts the log records as accepted |
| Restorer.AcceptedKeepsUnrefused | index2.js:29-34 | a refusal of other cookies never keeps out a cookie whose own `set` is not refused |
| Restorer.NothingRefusedAddsAll | index2.js:29-34 | when nothing is refused the jar gains every details, in order |
| Restorer.ReadyTrace | index2.js:58-88 | the handler's steps: quitting alone with fewer than two arguments; otherwise the load plan's attempts, then window creation, then the navigation to the second argument as last step |
| Restorer.CookiesBeforeNavigation | index2.js:59-88 | with fewer than two arguments the only step is quitting; otherwise every `set` attempt precedes window creation, which immediately precedes the single navigation to the second argument |
| Restorer.Browser.constructor | index2.js:44 | a fresh partition has an empty jar and nothing has happened yet |
| Restorer.Browser.LoadCookies | index2.js:8-41 | the jar becomes the old jar plus the accepted details of the load plan, and the trace gains exactly the plan's attempts |
| Restorer.Browser.SetEach | index2.js:18-35 | the loop leaves the jar as old jar plus the accepted details of the built prefix, and the trace with one attempt per built details, in file order |
| Restorer.Browser.SetCookie | index2.js:29-34 | one `set` call adds its details to the jar when accepted and is recorded either way |
| Restorer.Browser.Ready | index2.js:43-89 | with fewer than two arguments the jar is untouched and the process quits; otherwise cookies are loaded from the first argument, and only then is the window created and the second argument loaded |
| StorageChannel.Apply | preload.js:3-24 | a throwing mutator changes nothing and sends nothing; `setItem` maps the key to the value and `removeItem` removes the key; each then sends exactly one message, after the mutation, holding both maps; a `storage` event follows another document's write of the map and sends one message holding the result; an unwrapped change (`clear()`, property write or delete) replaces the map and sends nothing; every operation leaves the other area's map unchanged |
| StorageChannel.SetItemReportsWholeMaps | preload.js:3-16 | after `setItem(k, v)` the message holds every old key of that map plus `k`, the other entries unchanged, and the other map whole, never only the changed key |
| StorageChannel.OutboxGrowsByNotifyingOps | preload.js:14-24 | the outbox is append-only and grows by exactly one message per operation that reaches `notifyStorageChange` (a non-throwing wrapped call or a `storage` event) |
| StorageChannel.RunKeepsInSync | preload.js:3-24 | if the last message sent describes both maps, it still does after any sequence of wrapped calls and `storage` events that contains no unwrapped change |
| StorageChannel.LastMessageIsFinalState | preload.js:3-24 | once an operation has notified and no unwrapped change followed it, the last message equals both final maps whole |
| StorageChannel.UnwrappedClearGoesUnreported | preload.js:10-22 | only `setItem` and `removeItem` are wrapped: a `clear()` after a reported `setItem` leaves the last message stale |
| StorageChannel.StorageEventResyncs | preload.js:24 | after any operations, unwrapped ones included, a `storage` event installs the other document's write, keeps the other map and sends a message equal to the page's new state |
| StorageChannel.StoragePage.constructor | preload.js:10-27 | a page whose preload script has run starts with its two maps and an empty outbox |
| StorageChannel.StoragePage.NotifyStorageChange | preload.js:3-8 | appends one message holding both current maps and changes neither map |
| StorageChannel.StoragePage.SetItem | preload.js:14-17 | the page moves as `Apply` says for `setItem`, and the call fails exactly when the original mutator throws |
| StorageChannel.StoragePage.RemoveItem | preload.js:19-22 | the page moves as `Apply` says for `removeItem`, and the call fails exactly when the original mutator throws |
| StorageChannel.StoragePage.OnStorageEvent | preload.js:24 | the page moves as `Apply` says for a `storage` event: the other document's write is in place, then both maps are sent |
| StorageChannel.StoragePage.UnwrappedChange | preload.js:10-22 | the page moves as `Apply` says for a change that bypasses the two wrappers: the map is replaced and nothing is sent |
| Recorder.StorageFile | index.js:6-7 | the file lies in `/cookies/`, is named after its kind and ends in `.json` |
| Recorder.StorageFileInjective | index.js:6-7 | different kinds never name the same file |
| Recorder.ArtefactNames | index.js:6-7 | the three artefacts are `/cookies/cookies.json`, `/cookies/localStorage.json` and `/cookies/sessionStorage.json` |
| Recorder.ArtefactsDistinct | index.js:6-7 | the three artefacts are three different files |
| Recorder.TargetUrl | index.js:30-31 | the first argument when it is present and not empty, `https://google.com` otherwise; never empty |
| Recorder.IsAcceptedUrl | index.js:33 | a URL passes exactly when its first four characters are `http` |
| Recorder.UrlCheckIsPrefixOnly | index.js:33-37 | the default passes the check, any text beginning with `http` passes (`httpx:` too), and `ftp://…`, a bare host or upper-case `HTTP` fail |
| Recorder.SaveCookiesEffect | index.js:53-62 | without failure the cookies file is replaced by the entire jar and is the one file written; a failing read or write leaves the store as it was; no other file ever changes |
| Recorder.SaveStorageEffect | index.js:65-88 | a failing snapshot or first write leaves the store as it was; otherwise localStorage is written first, then sessionStorage unless that write fails; no other file changes |
| Recorder.FirstLoadEffect | index.js:53-95 | the first load changes no file but the three artefacts; a failing cookie capture is swallowed and storage is still captured: the cookies file holds the jar whenever its read and write succeed, the localStorage file holds the page's map whenever the snapshot and its write succeed, and the sessionStorage file likewise when its own write succeeds too, whatever else failed |
| Recorder.FirstLoadWritesCookiesFirst | index.js:91-95 | on first load only the three artefacts are written and the cookies file, if written, comes first; without failure the writes are cookies, localStorage, sessionStorage in that order |
| Recorder.LastCookieCaptureWins | index.js:55-57 | captures overwrite: after two captures the cookies file holds the second jar whole |
| Recorder.App.constructor | index.js:5 | the runtime's jar and the page's two storage maps as given; no window, no handler and no write yet |
| Recorder.App.Ready | index.js:30-50 | an accepted target URL is loaded and both capture handlers are armed; otherwise the app quits, loads nothing and arms nothing |
| Recorder.App.SaveCookies | index.js:53-62 | the store moves as `SaveCookiesEffect` says for the current jar |
| Recorder.App.SaveStorage | index.js:65-88 | the store moves as `SaveStorageEffect` says for the current maps |
| Recorder.App.PageLoaded | index.js:91-95 | the first load after `Ready` saves cookies then storage and disarms the handler; later loads write nothing |
| Recorder.App.CookieChanged | index.js:97-100 | the runtime's change installs the new jar; every change event then re-saves that entire jar, whichever cookie changed and however; before `Ready` registers the handler nothing is written |
| Replay.CapturedJarIsReplayedInOrder | index2.js:14-35 | a jar captured without failure and replayed from the cookies file is attempted cookie by cookie, in jar order, when every cookie has a domain |
| Replay.CapturedJarFillsFreshJar | index2.js:71-88 | replaying a captured jar with no refusal adds one record per captured cookie to the appending jar, and the window and navigation follow the last attempt |

## Left out

- Electron itself: windows, `session`, `webContents` and `ipcRenderer` are only the abstract jar, maps, trace and outbox above. The runtime's own choice of refusing a cookie or failing a call is a parameter.
- Restorer.Browser.SetCookie: the runtime's jar replaces an existing cookie with the same name, domain and path; the model appends the accepted details instead.
- Restorer.Browser.LoadCookies: because the jar appends, replaying two cookies whose details coincide (a `.a.com` domain cookie and an `a.com` host-only cookie with the same name and path) leaves two records where the runtime keeps one.
- Replay.CapturedJarFillsFreshJar: one record per captured cookie holds for the appending jar only; captured cookies with the same name, dot-stripped domain and path replace one another in the runtime's jar.
- Restorer.Browser.Ready: `path.resolve` of the cookie-file argument against the working directory is not modelled; the argument is used as the file's key as given.
- Certificate-error bypass (index.js:11-14) and proxy setup (index.js:17-28, index2.js:45-56): one-shot configuration calls with no state of their own.
- JSON text: serialisation and parsing are the constructors of `Document`, so parsing what was written gives it back. Key order and escaping are not modelled.
- Recorder.StorageFile: `path.join` normalisation of `.`/`..` segments is not modelled; the three kinds used contain none.
- Cookie attribute values are assumed well-typed, as the runtime reports them: a JSON `null` is treated as a missing attribute (the source would render a `null` path as `null`, not `undefined`), and a truthy non-boolean `secure` such as `"yes"` cannot be written down.
- `expirationDate` is a JavaScript number (fractional seconds); the model uses an integer, which nothing here computes with.
- Async scheduling and the event loop: only the order of awaited steps is modelled. Captures and page mutations do not interleave.
- A write that throws part-way is treated as leaving the file unchanged; truncated files are not modelled.
- Console logging, the debug dump of the jar after load (index2.js:83-86) and the platform check on `window-all-closed` (index.js:103-105, index2.js:91-93).
- Calling `monitorStorage` twice (which would wrap the mutators twice) is not modelled: preload.js calls it once.
