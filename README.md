# coding_duals — a Dafny model of the duel core

This project models the small, self-contained logic of a two-player coding-duel
application and proves properties of it:

- **Duel records** (`duel_model.dfy`, module `DuelModel`): the schema's opponent
  email recognizer `/^[\w-\.]+@([\w-]+\.)+[\w-]{2,4}$/` as a recursive string
  predicate, the `difficulty` and `status` enumerations, the `pending` default,
  and the validation a new record passes before it is stored.
- **The create route** (`duel_routes.dfy`, module `DuelRoutes`): the token
  middleware, which sets `req.user`, as a method over a `Request` object, and the
  `POST /create` handler as a result-valued function. Token verification and the
  user lookup are oracle parameters; the duel collection is a map plus an
  availability flag; the new record's id and the clock are parameters.
- **The socket relay** (`socket_rooms.dfy`, module `SocketRooms`): the `join-duel`,
  `code-change` and `disconnect` handlers over a table from room key to member
  socket ids. A delivery is a (recipient, event) pair.
- **The countdown hook** (`use_timer.dfy`, module `UseTimer`): `startTimer`, the
  interval tick and `stopTimer` as a class holding `timeLeft` and the running flag.
  Ticks are explicit steps.
- **The duel page** (`duel_arena.dfy`, module `DuelArena`): `formatTime` with its
  inverse parser, the 900-second countdown that submits once at expiry, and the
  mapping from a submission outcome to the status line.
- **The spectator page** (`watch_arena.dfy`, module `WatchArena`): first-come stream
  slot assignment and routing of `code-update` events to the two panes.

`wrappers.dfy` holds `Option`/`Result`. `None` also stands for JavaScript's
`undefined`. `strings.dfy` holds `IndexOf`, `Count`, decimal rendering and parsing.

Each imperative piece (the middleware, the room table, the hook, the two pages)
is a class. Its methods state the new state as a pure transition function of
the old state. The properties are proved as lemmas about those functions.

Points where the code is modelled as written:

- The `create` handler answers 500 "Server error" for every store failure,
  schema rejections included; it never answers 400 itself.
- The watch page emits `join-duel` twice. At mount it emits the bare id
  (WatchArena.jsx:60). The server destructures `{duelId, peerId}`, so that join
  goes to the room keyed by `undefined` (`BareJoinUsesUndefinedRoom`). Once its
  peer is open it emits the object `{ duelId: id, peerId, isWatcher: true }`
  (WatchArena.jsx:37): that join puts the watcher in the room named by the duel
  id, which is why it receives the relayed `code-update` events at all
  (`WatcherReceivesRelay`).
- The server relays `code-update` as a bare string. The watch page destructures
  `{email, code}`, so the relayed code never reaches a pane: one pane is set to
  `undefined` (`BareRelayBlanksAPane`).
- Timer anchors, judging, winners and termination do not appear in the
  modelled files and are not modelled.

## Model

| member | source | states |
|---|---|---|
| DuelModel.DomainSound | server/models/Duel.js:16 | text accepted after the `@` is a non-empty list of non-empty `[\w-]` labels, each followed by a dot, then a 2–4 character `[\w-]` label |
| DuelModel.DomainComplete | server/models/Duel.js:16 | every such dotted label list followed by a 2–4 character label is accepted after the `@` |
| DuelModel.ParseEmail | server/models/Duel.js:15-17 | an accepted address is `local@L1. … .T`: `local` non-empty over `[A-Za-z0-9_.-]`, at least one non-empty label over `[A-Za-z0-9_-]`, `T` of 2 to 4 such characters |
| DuelModel.AcceptParts | server/models/Duel.js:15-17 | every address of that form is accepted (with ParseEmail: accepted if and only if of that form) |
| DuelModel.AddressSplit | server/models/Duel.js:16 | in `local@L1. … .T` the first `@` is the one after `local`, and the text after it is the domain |
| DuelModel.AcceptedHasOneAt | server/models/Duel.js:16 | an accepted address contains exactly one `@` |
| DuelModel.DomainWellFormed | server/models/Duel.js:16 | accepted domain text has at least 4 characters and a dot, does not start or end with a dot, and has no `..` |
| DuelModel.AcceptedDomainShape | server/models/Duel.js:16 | the text after the `@` of an accepted address holds a dot, does not start or end with one, and has no empty label |
| DuelModel.AcceptsExample | server/models/Duel.js:16 | `b@x.com` is accepted |
| DuelModel.RejectsNoDot | server/models/Duel.js:16 | `b@com` is rejected |
| DuelModel.RejectsTrailingDot | server/models/Duel.js:16 | `b@x.` is rejected |
| DuelModel.ParseDifficulty | server/models/Duel.js:21-25 | a difficulty is accepted iff it is `easy`, `medium` or `hard`, and parses to the value of that name |
| DuelModel.ParseStatus | server/models/Duel.js:27-31 | a status is accepted iff it is `pending`, `active` or `completed` |
| DuelModel.EnumRoundTrips | server/models/Duel.js:21-31 | every enumeration value's name parses back to it |
| DuelModel.NewDuel | server/models/Duel.js:4-36 | a record is created iff the email is present and valid and the difficulty is one of the enum names; otherwise at least one field error is reported; the created record keeps challenger, email, difficulty and questions, has status `pending`, no winner, and both timestamps set to the clock |
| DuelRoutes.Authenticate | server/routes/duel.js:10-21 | an absent or empty header gives 401 "Unauthorized"; a token that fails verification gives 401 "Invalid token"; the request passes on iff a token is present and verifies, carrying the decoded payload |
| DuelRoutes.AuthMiddleware | server/routes/duel.js:10-21 | the middleware's answer is Authenticate's; on pass it stores the payload in `req.user`, on rejection it leaves the request alone |
| DuelRoutes.QuestionsNamedAfterDifficulty | server/routes/duel.js:32 | the question list has exactly two distinct entries, both prefixed `question_<d>_` |
| DuelRoutes.HardQuestions | server/routes/duel.js:32 | for `hard` the list is `["question_hard_1", "question_hard_2"]` |
| DuelRoutes.Insert | server/routes/duel.js:34-39 | a write succeeds iff the store is available and the id is unused; a successful write stores the record under the id, keeps every other record and adds no other key |
| DuelRoutes.CreateHandler | server/routes/duel.js:24-45 | the answer is 404 "User not found" iff the lookup finds no user, 200 with the new id iff the user is found, the body is valid and the write succeeds, else 500 "Server error"; only a 200 changes the store, adding exactly the new record (challenger's id, request email and difficulty unchanged, two questions, `pending`, no winner) and keeping every other record |
| DuelRoutes.RejectedRequestReadsNothing | server/routes/duel.js:10-20 | a rejected token gives 401, leaves the store unchanged, and the answer does not depend on the user collection, so the handler never runs |
| DuelRoutes.OnlyFourStatuses | server/routes/duel.js:10-44 | once the JSON body has parsed, the middleware and handler only answer 200, 401, 404 or 500, never 400 |
| DuelRoutes.InvalidEmailIsServerError | server/routes/duel.js:34-44 | a known challenger with a missing or malformed email gets 500 "Server error" and nothing is stored |
| DuelRoutes.PostCreate | server/routes/duel.js:24-45 | the middleware followed by the handler computes exactly HandleCreate's answer and store |
| SocketRooms.Join | server/server.js:44 | joining makes the socket a member of the room and changes no other room |
| SocketRooms.Broadcast | server/server.js:45-51 | a room broadcast reaches exactly the room's members other than the sender, each with the event |
| SocketRooms.JoinIdempotent | server/server.js:44 | joining the same room twice equals joining once |
| SocketRooms.JoinAnnouncesToOthers | server/server.js:43-45 | after `join-duel`, `peer-connected` reaches exactly the room's earlier members other than the sender; nobody outside the room and never the sender |
| SocketRooms.BareJoinUsesUndefinedRoom | server/server.js:43-44 | a bare-id join puts the sender in the undefined room, leaves the room named by the id (even an empty id) alone, and announces an undefined peer id |
| SocketRooms.WatcherReceivesRelay | coding-duals/src/Pages/WatchArena.jsx:37 | a watcher that joined with `{ duelId: id, ... }` is in room `id` and receives every `code-update` another socket relays to that room |
| SocketRooms.RelayWithoutMembership | server/server.js:50-52 | a sender outside the room still reaches every member: there is no membership check |
| SocketRooms.RoomTable.JoinDuel | server/server.js:43-47 | the table becomes Join of the old table, and the deliveries are the `peer-connected` broadcast in the joined room |
| SocketRooms.RoomTable.RelayCode | server/server.js:50-52 | `code-update` with only the code goes to every member of the named room except the sender; the table is read, not written |
| SocketRooms.RoomTable.Disconnect | server/server.js:54-56 | the disconnect handler leaves the room table unchanged |
| UseTimer.Tick | coding-duals/src/Hooks/useTimer.js:10-17 | after a tick the counter is non-negative, does not rise from a non-negative value, and the interval is cleared iff the counter was at most 1 |
| UseTimer.TickDecrements | coding-duals/src/Hooks/useTimer.js:16 | above 1 a tick decrements by exactly one and keeps running |
| UseTimer.StartWhileRunningIsNoOp | coding-duals/src/Hooks/useTimer.js:8 | starting a running timer changes nothing, so at most one interval exists |
| UseTimer.StopProperties | coding-duals/src/Hooks/useTimer.js:21-26 | stopping is idempotent, keeps the counter, clears the flag, and a later start runs again |
| UseTimer.RestartAfterExpiry | coding-duals/src/Hooks/useTimer.js:8-13 | after expiry the flag is clear and starting runs the timer again at 0 |
| UseTimer.RunNeverIncreases | coding-duals/src/Hooks/useTimer.js:9-18 | over any number of seconds a non-negative counter stays between 0 and its start |
| UseTimer.Countdown | coding-duals/src/Hooks/useTimer.js:9-18 | running from `n >= 1`, after `k < n` ticks `n - k` remain and it runs; from the `n`-th tick on it is 0 and stopped |
| UseTimer.Timer.constructor | coding-duals/src/Hooks/useTimer.js:3-5 | the hook starts at the initial time with no interval |
| UseTimer.Timer.StartTimer | coding-duals/src/Hooks/useTimer.js:7-19 | the new state is Start of the old |
| UseTimer.Timer.OnTick | coding-duals/src/Hooks/useTimer.js:10-17 | the new state is Tick of the old |
| UseTimer.Timer.StopTimer | coding-duals/src/Hooks/useTimer.js:21-26 | the new state is Stop of the old |
| Strings.DecimalRoundTrip | coding-duals/src/Pages/DuelArena.jsx:67-70 | the decimal rendering of `n` is made of digits, parses back to `n`, and has 1 digit iff `n < 10` and 2 iff `10 <= n < 100` |
| DuelArena.PadKeepsValue | coding-duals/src/Pages/DuelArena.jsx:67-70 | padding to two with zeros keeps the digits' value and widens to at least two characters without cutting |
| DuelArena.FieldsOfFormatTime | coding-duals/src/Pages/DuelArena.jsx:66-72 | the text is a minutes field worth `s div 60`, a colon, and a two-digit seconds field worth `s mod 60` whose first digit is 0 to 5 |
| DuelArena.FormatTimeRoundTrip | coding-duals/src/Pages/DuelArena.jsx:66-72 | parsing the formatted text back gives the seconds, for every non-negative input |
| DuelArena.FormatTimeShape | coding-duals/src/Pages/DuelArena.jsx:66-72 | below 6000 seconds the text has length 5 with `:` at index 2 |
| DuelArena.MinutesNotTruncated | coding-duals/src/Pages/DuelArena.jsx:67-69 | from 6000 seconds the minutes field is the full decimal, with 3 or more digits |
| DuelArena.FifteenMinutes | coding-duals/src/Pages/DuelArena.jsx:19-72 | `formatTime(900)` is `15:00` |
| DuelArena.ArenaTick | coding-duals/src/Pages/DuelArena.jsx:51-60 | a tick leaves a non-negative counter, submits exactly when the counter was at most 1, and clears the interval exactly then |
| DuelArena.ArenaCountdown | coding-duals/src/Pages/DuelArena.jsx:50-61 | from `n >= 1`, after `k < n` ticks `n - k` remain with no submission; from the `n`-th tick on it is 0, stopped, with one submission |
| DuelArena.AutoSubmitExactlyOnce | coding-duals/src/Pages/DuelArena.jsx:19-64 | from mount the display counts down from 900, and the automatic submission fires exactly once, at second 900; no tick runs after |
| DuelArena.SubmissionMessage | coding-duals/src/Pages/DuelArena.jsx:36-46 | the status line is one of three messages: "Correct" iff `correct` is true, "Submission failed" iff the request threw, otherwise "Incorrect. Try again." |
| DuelArena.Arena.constructor | coding-duals/src/Pages/DuelArena.jsx:19-21 | the page mounts with 900 seconds, a live interval and an empty status |
| DuelArena.Arena.OnTick | coding-duals/src/Pages/DuelArena.jsx:51-60 | the new clock is ArenaTick of the old; it asks for the submission exactly when the counter was at most 1 |
| DuelArena.Arena.OnSubmitSettled | coding-duals/src/Pages/DuelArena.jsx:37-46 | the status line becomes the outcome's message and the clock is untouched |
| DuelArena.Arena.Unmount | coding-duals/src/Pages/DuelArena.jsx:63 | unmounting clears the interval and keeps the counter |
| DuelArena.Arena.Display | coding-duals/src/Pages/DuelArena.jsx:90 | the timer line shows `formatTime(timeLeft)`, which parses back to the seconds left |
| WatchArena.StreamSlotRules | coding-duals/src/Pages/WatchArena.jsx:42-50 | a stream changes only the slots; it fills the challenger slot only if that was empty, and fills the opponent slot only if the challenger slot was full and the opponent slot empty; with a video element missing nothing changes |
| WatchArena.FilledSlotsStay | coding-duals/src/Pages/WatchArena.jsx:46-50 | a filled slot is never overwritten by later streams, and with both filled every later stream is dropped |
| WatchArena.FirstTwoStreamsWin | coding-duals/src/Pages/WatchArena.jsx:45-50 | with both elements present and empty slots, the first stream is the challenger's, the second the opponent's, and the rest are dropped |
| WatchArena.MissingElementIgnoresStreams | coding-duals/src/Pages/WatchArena.jsx:43 | while a video element is absent every stream is ignored |
| WatchArena.CodeUpdateSetsOnePane | coding-duals/src/Pages/WatchArena.jsx:62-69 | an update whose email equals the opponent email sets only the opponent pane, any other sets only the challenger pane; everything else keeps its value |
| WatchArena.BareRelayBlanksAPane | coding-duals/src/Pages/WatchArena.jsx:62-69 | a bare-string update sets the opponent pane to undefined while the opponent email is undefined, otherwise the challenger pane |
| WatchArena.Watcher.constructor | coding-duals/src/Pages/WatchArena.jsx:10-16 | the page mounts with empty slots, undefined opponent email and the two placeholder panes |
| WatchArena.Watcher.OnOpponentEmail | coding-duals/src/Pages/WatchArena.jsx:20-27 | a resolved lookup sets the opponent email and nothing else |
| WatchArena.Watcher.OnRemoteStream | coding-duals/src/Pages/WatchArena.jsx:42-50 | the new page state is OnStream of the old |
| WatchArena.Watcher.OnCodeUpdateEvent | coding-duals/src/Pages/WatchArena.jsx:62-69 | the new page state is OnCodeUpdate of the old |

## Left out

- Network and storage I/O is not modelled. That covers the client's request wrappers, the socket client construction and the database connection retry loop. JWT verification, the user lookup, the store write, the opponent-email request and the submit request become oracle parameters or outcomes.
- The duel record store is a map with an availability flag. Mongoose casting of non-string values, `_id` generation and the `User` model are not modelled; the new id and the clock reading are parameters.
- The request body's fields are either a string or absent. Other JSON values (numbers, objects, `null`) are not modelled.
- Form state, local storage, navigation, rendering, the Monaco editor and the login, dashboard, challenge and route-guard pages are left out. They hold no logic beyond UI.
- Real time and `setInterval` scheduling are not modelled: a tick is an explicit step, delivered only while the interval is live. React re-rendering, StrictMode double effects and stale closures are left out too. In particular, development StrictMode calls the `setTimeLeft` updater twice, and the duel page's updater calls `submitCode()` (DuelArena.jsx:52-57), so in that mode expiry submits twice; `AutoSubmitExactlyOnce` assumes each updater runs once.
- PeerJS negotiation and media are not modelled. Only the `stream` callback's slot assignment is kept; a stream is an opaque identifier.
- Socket.IO internals outside the room table are not modelled. In particular, the automatic room named after each socket id and the library's own removal of a disconnected socket from its rooms are left out. `RoomTable.Disconnect` models only the handler, which logs. Logging itself is left out everywhere.
- A `join-duel` or `code-change` payload that cannot be destructured (`undefined` or `null`, which throws inside the handler) is not modelled.
- The JSON body parser (`express.json()`, server/server.js:31) answers a malformed or oversized body itself, with 400 or 413, before the middleware runs. Those answers are not modelled; `OnlyFourStatuses` covers requests whose body has parsed.
- Seconds and minutes are unbounded naturals and `Decimal` renders them exactly. A JavaScript number is a double: from 1e21 `toString()` switches to exponent form, and integers above 2^53 are not exact. Neither is modelled, so `FormatTimeRoundTrip`, `MinutesNotTruncated` and `DecimalRoundTrip` hold for JavaScript only below those bounds; the countdown stays within 0 to 900.
- `FormatTime` takes a non-negative whole number of seconds. The countdown never shows anything else; negative or fractional inputs to `formatTime` are not modelled.
- The submit endpoint the duel page posts to, and the opponent-email endpoint the watch page queries, are not in the routes file. Their outcomes are parameters (`SubmitOutcome`, `OnOpponentEmail`).
- A JavaScript value other than `true`, `false` or absent in the response's `correct` field is not modelled; absent counts as falsy.
