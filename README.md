# Collaborative spreadsheet: hub, relay, cell table and sheet routes

This project models the logic of a small collaborative spreadsheet application
in Dafny and proves properties of the model:

- **The presence/room hub** (`server/server.js`). The server keeps an
  `activeUsers` registry that maps each connection to its user id, username
  and spreadsheet. Beside it, the transport keeps room membership. On a new
  connection the transport puts the connection in a room named by its own id
  (`Hub.OnConnect`); the `connection` handler itself only logs. Four socket
  handlers then read or update them and emit events:
  - `joinSpreadsheet`;
  - `updateCursor`;
  - `cellUpdate`;
  - `disconnect`.

  Module `Hub` gives each handler as a step function over the state. The
  result is the next state and the set of deliveries, each a recipient and an
  event. Class `Hub.Server` runs the same handlers on mutable fields. The
  room operations themselves are in `Rooms`:
  - joining a room;
  - leaving every room;
  - `io.to(room)`, which reaches the whole room;
  - `socket.to(room)`, which reaches the room except the members of the
    sender's own room (the room named by its id), and so never the sender.

  The wire events are in `Protocol`.
- **The legacy relay** (`server.js`). This hub only joins rooms. It forwards
  each `cellUpdate` payload unchanged to the rest of the room the payload
  names, and emits nothing on disconnect (module `LegacyRelay`).
- **The client cell table and layout arithmetic** (the component in
  `client/src/components/Spreadsheet.js` and its older copy in
  `src/components/Spreadsheet.js`). This part covers:
  - the 20 x 26 grid, whose initial tables two nested loops fill;
  - the `${row}-${col}` cell key and its parser (`CellIds`);
  - the spread updater that writes one cell;
  - the rendered value;
  - the `A`..`Z` header labels;
  - the `Math.max` clamps of the resize handles (`Grid`).

  Two classes hold each component's state and handlers: `ClientSheet.Spreadsheet`
  and `LegacySheet.Spreadsheet`.
- **The spreadsheet routes** (`routes/spreadsheets.js`, with the record shape of
  `models/Spreadsheet.js`). The routes are create, list-by-owner and share,
  over a store that maps document ids to records and a user collection that
  maps emails to user ids (`SpreadsheetRoutes`).

The older client never joins a sheet's room, and its `cellUpdate` names no sheet. On
the legacy relay its edits therefore go to the `undefined` room. They reach
nobody unless some connection joined that room
(`LegacySheet.EditWithoutRoomReachesNobody`).

Modelling choices:

- **Broadcast exclusion.** `socket.to(room)` tells the adapter to leave out
  the room named by the sender's id, and the adapter leaves out every member
  of that room (the Socket.IO 4 behaviour). Usually that is just the sender.
  It also skips a peer that has joined a sheet whose id is the sender's id
  (`Hub.ScenarioPeerInSenderRoomMissesEdit`).
- **Disconnect.** Socket.IO takes a disconnected connection out of all its
  rooms before the `disconnect` handler runs. `OnDisconnect` therefore leaves
  the rooms first, so `userLeft` does not reach the departing connection.
- **Optional fields.** A payload field the client leaves out is `None`. The
  current client's `joinSpreadsheet` carries no username, so the registry
  stores `None` for it.
- **Undefined widths.** A column with no width yet is `undefined` in the
  resize arithmetic, and the arithmetic turns it into `NaN`. `Grid.Width` has
  a `NaN` case so that this path is modelled, not excluded.
- **Mongoose schema rules.** These are modelled where they decide a route's
  outcome:
  - a missing or empty title fails the `required` check;
  - an `access` value outside `view`/`edit` fails the enum check;
  - a missing `access` defaults to `view`.

  Each failure lands in the route's 500 branch.

## Model

| member | source | states |
|---|---|---|
| Rooms.Join | server/server.js:37 | the joined room gains the connection; every other room keeps its members; no membership is lost |
| Rooms.LeaveAll | server/server.js:57 | every room loses exactly the connection and no empty room remains |
| Rooms.ToAll | server/server.js:39 | `io.to(room)`: a delivery exists exactly for each member of the room, with the event |
| Rooms.ToOthers | server/server.js:53 | `socket.to(room)`: a delivery exists exactly for each member of the room outside the sender's own room |
| Rooms.RecipientsOfBroadcast | server/server.js:39-53 | the addressees of `io.to(room)` are exactly the room's members, and those of `socket.to(room)` exactly the members outside the sender's own room |
| Rooms.BroadcastOncePerRecipient | server/server.js:53 | each recipient of a broadcast gets exactly one delivery |
| Rooms.JoinIdempotent | server/server.js:37 | joining the same room twice is joining it once |
| Rooms.LeaveAllIdempotent | server/server.js:57 | leaving every room twice is leaving once |
| Rooms.LeaveAllNonMember | server/server.js:57 | a connection in no room leaves the membership as it was |
| Hub.OnConnect | server/server.js:33-34 | a new connection joins the room named by its own id; the registry and every other room are unchanged; nothing is emitted |
| Hub.OnJoin | server/server.js:36-40 | the connection's registry entry becomes exactly the event's identity and sheet; other entries are kept; the sheet's room gains the connection and no room loses one; `userJoined` reaches every member of the room after the join, the joiner included |
| Hub.OnUpdateCursor | server/server.js:42-47 | state unchanged; an unregistered connection causes no delivery; otherwise `cursorMoved` with the registered identity and the event's position reaches exactly the members of the event's room outside the sender's own room |
| Hub.OnCellUpdate | server/server.js:50-55 | state unchanged; an unregistered connection causes no delivery; otherwise `cellUpdated` with the registered identity and the event's key and value reaches exactly the members of the room named in the event outside the sender's own room |
| Hub.OnDisconnect | server/server.js:57-63 | the connection leaves every room and exactly its registry entry is deleted; if it was registered, `userLeft` with the stored identity reaches exactly the remaining members of the stored sheet's room; otherwise nothing is delivered |
| Hub.InitialConsistent | server/server.js:20 | process start satisfies the invariant: every room member and every registered connection is a live connection (a member of its own room), and no room is empty |
| Hub.ConnectKeepsConsistent | server/server.js:33 | a new connection keeps that invariant |
| Hub.JoinKeepsConsistent | server/server.js:36-40 | a `joinSpreadsheet` on a live connection keeps that invariant |
| Hub.DisconnectKeepsConsistent | server/server.js:57-63 | a disconnect keeps that invariant |
| Hub.UnknownDisconnectIsNoOp | server/server.js:57-59 | in a consistent state, the disconnect of a connection the transport does not know changes nothing and delivers nothing |
| Hub.JoinRecipients | server/server.js:37-39 | `userJoined` reaches exactly the room's earlier members and the joiner |
| Hub.CursorRecipients | server/server.js:42-47 | a registered connection's `cursorMoved` reaches exactly the room named in the event minus the sender's own room |
| Hub.EditRecipients | server/server.js:50-55 | a registered connection's `cellUpdated` reaches exactly the room named in the event minus the sender's own room |
| Hub.DepartureRecipients | server/server.js:57-61 | a registered connection's `userLeft` reaches exactly the other members of the room it registered with |
| Hub.NoEchoToOwnRoom | server/server.js:45-53 | a live connection never receives its own `cursorMoved` or `cellUpdated`, nor does any member of its own room |
| Hub.DisconnectIdempotent | server/server.js:57-63 | a second disconnect delivers nothing and leaves the state as the first left it |
| Hub.JoinThenDisconnectForgets | server/server.js:36-63 | after a join and a disconnect the connection is neither registered nor in any room |
| Hub.RejoinKeepsEarlierRoom | server/server.js:37-38 | joining a second sheet keeps the connection in the first room, while the registry names only the second sheet |
| Hub.RejoinedDepartureMissesEarlierRoom | server/server.js:57-61 | after joining two sheets, a member of only the first room is not told of the departure |
| Hub.ScenarioEditReachesPeerOnly | server/server.js:36-55 | two clients on one sheet: an edit reaches the peer with the editor's identity and never echoes to the editor |
| Hub.ScenarioEditToConnectionRoom | server/server.js:50-55 | an edit whose sheet id is a peer's connection id reaches that peer through the peer's own room |
| Hub.ScenarioPeerInSenderRoomMissesEdit | server/server.js:50-55 | a peer that joined the room named by the editor's id misses the editor's edits, even in a sheet both have joined |
| Hub.ScenarioDepartureAnnounced | server/server.js:36-63 | two clients on one sheet: when one disconnects the other receives `userLeft` with its identity |
| Hub.Server.constructor | server/server.js:20 | an empty registry and no rooms, satisfying the invariant |
| Hub.Server.Connect | server/server.js:33 | the membership becomes what `OnConnect` gives, keeping the invariant |
| Hub.Server.JoinSpreadsheet | server/server.js:36-40 | on a live connection, updates the registry and membership and returns the deliveries as `OnJoin` does, keeping the invariant |
| Hub.Server.UpdateCursor | server/server.js:42-47 | returns the deliveries of `OnUpdateCursor` and changes nothing |
| Hub.Server.CellUpdate | server/server.js:50-55 | returns the deliveries of `OnCellUpdate` and changes nothing |
| Hub.Server.Disconnect | server/server.js:57-63 | updates the registry and membership and returns the deliveries as `OnDisconnect` does, keeping the invariant |
| LegacyRelay.Forward | server.js:33-35 | the payload, unchanged, reaches exactly the members of its room outside the sender's own room |
| LegacyRelay.ForwardIgnoresSenderMembership | server.js:33-35 | for a live sender, whether it has joined the payload's room or any other makes no difference to what is forwarded |
| LegacyRelay.MissingRoomReachesOnlyUndefinedRoom | server.js:34 | a payload without a sheet id reaches only members of the `undefined` room |
| LegacyRelay.Relay.constructor | server.js:26 | no rooms |
| LegacyRelay.Relay.Connect | server.js:26 | the connection joins the room named by its own id and no other room changes |
| LegacyRelay.Relay.JoinSpreadsheet | server.js:29-31 | only the named room gains the connection; nothing is stored or emitted |
| LegacyRelay.Relay.CellUpdate | server.js:33-35 | returns the forwarded deliveries and changes nothing |
| LegacyRelay.Relay.Disconnect | server.js:37-39 | emits nothing; the connection leaves every room |
| CellIds.DigitChar | client/src/components/Spreadsheet.js:64 | the digit character of a value below ten |
| CellIds.Decimal | client/src/components/Spreadsheet.js:64 | the decimal form of a natural is a non-empty digit string with no leading zero |
| CellIds.DecimalRoundTrip | client/src/components/Spreadsheet.js:64 | reading back the decimal form gives the number |
| CellIds.LeadingDigitPositive | client/src/components/Spreadsheet.js:64 | a digit string with a non-zero first digit has a positive value |
| CellIds.CanonicalRoundTrip | client/src/components/Spreadsheet.js:64 | a digit string in the form the template literal prints reads back and prints as itself |
| CellIds.CellId | client/src/components/Spreadsheet.js:64 | the key `${row}-${col}` splits at its first dash into the decimal row and the decimal column |
| CellIds.SplitAtDash | client/src/components/Spreadsheet.js:64 | helper of the inverse `ParseCellId` (the source never splits a key): a split reassembles its input around a dash, and the first part contains no dash |
| CellIds.SplitAtFirstDash | client/src/components/Spreadsheet.js:64 | helper of the inverse `ParseCellId`: a dash-free prefix followed by a dash splits back into the prefix and the rest |
| CellIds.CellIdRoundTrip | client/src/components/Spreadsheet.js:64 | parsing the key `${row}-${col}` gives back the row and the column |
| CellIds.ParseCellIdCanonical | client/src/components/Spreadsheet.js:64 | the other direction of the round trip: a key whose two numbers are printed as the template literal prints them is the key of the position it parses to |
| CellIds.CellIdInjective | client/src/components/Spreadsheet.js:64 | two cells have the same key exactly when they are the same cell |
| Grid.CellIdIsGridKey | client/src/components/Spreadsheet.js:20-21 | a cell's key is a key of the grid exactly when its row is below 20 and its column below 26 |
| Grid.FillCellOnlyBefore | client/src/components/Spreadsheet.js:30 | the next cell's key is new to the table, and writing it keeps only cells visited so far, each `''` |
| Grid.FillCellCovers | client/src/components/Spreadsheet.js:30 | writing the next cell keeps every cell visited so far present and adds it |
| Grid.FillCell | client/src/components/Spreadsheet.js:29-30 | one inner step moves the table from "filled with the first n cells in row-major order" to "filled with the first n + 1" |
| Grid.FilledComplete | client/src/components/Spreadsheet.js:28-35 | a table filled through the last row has every grid key, only grid keys, each `''`, and 520 entries |
| Grid.WidthsBeforeDefault | client/src/components/Spreadsheet.js:31-33 | the widths written so far are exactly the first columns, each 100 |
| Grid.CellsBeforeFilled | client/src/components/Spreadsheet.js:28-35 | the table the loops have built at a row and column holds exactly the cells visited before it in row-major order |
| Grid.CellsComplete | client/src/components/Spreadsheet.js:28-35 | where the outer loop ends, the table holds exactly the 520 grid keys, each `''` |
| Grid.WidthsComplete | client/src/components/Spreadsheet.js:31-33 | where the loops end, exactly columns 0..25 have a width, each 100 |
| Grid.InitialTables | client/src/components/Spreadsheet.js:26-37 | the nested loops yield exactly the 520 grid keys, each `''`, and widths for exactly columns 0..25, each 100 |
| Grid.WithCell | client/src/components/Spreadsheet.js:65-72 | the spread updater sets exactly the one key and keeps every other key and value |
| Grid.LaterWriteWins | client/src/components/Spreadsheet.js:42-47 | of two writes to one cell, the later one wins |
| Grid.DistinctWritesCommute | client/src/components/Spreadsheet.js:42-47 | writes to different cells commute |
| Grid.LastWriteWins | client/src/components/Spreadsheet.js:42-47 | after a sequence of writes, a key present before or written holds its last written value, else its old one |
| Grid.RenderedValue | client/src/components/Spreadsheet.js:120 | the rendered value is the table value, or `''` for an absent key |
| Grid.RenderedAfterWrite | client/src/components/Spreadsheet.js:63-75 | after a write the cell renders as the written value and every other cell renders as before |
| Grid.HeaderLabel | client/src/components/Spreadsheet.js:164 | the label is the one character with code 65 + col, a letter `A`..`Z` for the grid's columns |
| Grid.HeaderLabelsDistinct | client/src/components/Spreadsheet.js:158-164 | the 26 header labels are pairwise distinct |
| Grid.Max | client/src/components/Spreadsheet.js:104 | `Math.max`: at least both arguments and equal to one of them |
| Grid.DraggedWidth | client/src/components/Spreadsheet.js:107 | a defined width becomes `max(start + dx, 50)`; `NaN` stays `NaN` |
| Grid.DraggedHeight | client/src/components/Spreadsheet.js:104 | the height becomes `max(start + dy, 25)` |
| Grid.DraggedWidthMonotone | client/src/components/Spreadsheet.js:107 | the dragged width never shrinks as the pointer moves right |
| Grid.WidthOf | client/src/components/Spreadsheet.js:91 | `columnWidths[col]`: the stored width of a column that has one, and `NaN` for a missing column or width |
| Grid.MouseMove | client/src/components/Spreadsheet.js:99-110 | with no drag nothing changes; a header drag sets only the clamped height; a column drag sets only that column's clamped width |
| Grid.MouseMoveKeepsMinimums | client/src/components/Spreadsheet.js:103-108 | the header never drops below 25, and a column dragged from a defined width never drops below 50 |
| ClientSheet.ShareBase | client/src/components/Spreadsheet.js:53 | the configured front-end address unless it is unset or empty, else the page origin |
| ClientSheet.ShareLink | client/src/components/Spreadsheet.js:53 | the link is the base, then `/spreadsheet/`, then the sheet id |
| ClientSheet.ShareLinkInjective | client/src/components/Spreadsheet.js:53 | links to different sheets from one base differ |
| ClientSheet.EditReachesPeer | client/src/components/Spreadsheet.js:42-47 | this component's `cellUpdate`, once the hub relays it, reaches every member of the room outside the editor's own room, and the peer's table then renders the new value |
| ClientSheet.EditStaysInRoom | client/src/components/Spreadsheet.js:74 | for a live editor: the editor, any member of its own room, and any connection outside the sheet's room receive nothing |
| ClientSheet.Spreadsheet.constructor | client/src/components/Spreadsheet.js:14-23 | empty tables, no focus, header height 25, empty share link, no drag |
| ClientSheet.Spreadsheet.Mount | client/src/components/Spreadsheet.js:25-54 | initial grid tables, the share link, and a `joinSpreadsheet` with the sheet id, the user id and no username |
| ClientSheet.Spreadsheet.HandleCellChange | client/src/components/Spreadsheet.js:63-75 | writes the one cell and emits `cellUpdate` with the sheet id, the key and the value |
| ClientSheet.Spreadsheet.OnCellUpdated | client/src/components/Spreadsheet.js:42-47 | overwrites the received key with the received value, unconditionally |
| ClientSheet.Spreadsheet.HandleCellFocus | client/src/components/Spreadsheet.js:77-79 | the focused cell becomes the given key; nothing else changes |
| ClientSheet.Spreadsheet.HandleCellBlur | client/src/components/Spreadsheet.js:81-83 | no cell is focused; nothing else changes |
| ClientSheet.Spreadsheet.StartResizing | client/src/components/Spreadsheet.js:85-97 | records the column, the pointer position, the column's current width and the header height |
| ClientSheet.Spreadsheet.HandleMouseMove | client/src/components/Spreadsheet.js:99-110 | the widths and header height become what `MouseMove` gives; nothing else changes |
| ClientSheet.Spreadsheet.StopResizing | client/src/components/Spreadsheet.js:112-116 | no drag is in progress |
| LegacySheet.EditWithoutRoomReachesNobody | src/components/Spreadsheet.js:60 | when no connection joined the `undefined` room, this component's edits reach nobody on the legacy relay |
| LegacySheet.SharePath | src/components/Spreadsheet.js:66 | the share route is `/api/spreadsheets/`, then the printed `id` prop (`undefined` when absent), then `/share` |
| LegacySheet.ShareWithoutIdTargetsUndefined | src/App.js:12 | mounted without an `id`, as the older app mounts it, the component posts to `/api/spreadsheets/undefined/share` |
| LegacySheet.Spreadsheet.constructor | src/components/Spreadsheet.js:11-21 | the given, possibly absent, `id` prop; empty tables, no focus, header height 25, empty share email, access `view`, no drag |
| LegacySheet.Spreadsheet.Mount | src/components/Spreadsheet.js:23-35 | initial grid tables: the 520 keys each `''`, and columns 0..25 each 100 |
| LegacySheet.Spreadsheet.HandleCellChange | src/components/Spreadsheet.js:49-61 | writes the one cell and emits `cellUpdate` with the key and the value and no sheet id |
| LegacySheet.Spreadsheet.OnCellUpdated | src/components/Spreadsheet.js:37-42 | overwrites the received key with the received value, unconditionally |
| LegacySheet.Spreadsheet.SetShareEmail | src/components/Spreadsheet.js:192 | the share form's email becomes the input |
| LegacySheet.Spreadsheet.SetShareAccess | src/components/Spreadsheet.js:196 | the share form's access becomes the selection |
| LegacySheet.Spreadsheet.HandleShare | src/components/Spreadsheet.js:63-73 | posts the email and access to the sheet's share route; only a successful post clears the email |
| LegacySheet.Spreadsheet.HandleCellFocus | src/components/Spreadsheet.js:75-77 | the focused cell becomes the given key; nothing else changes |
| LegacySheet.Spreadsheet.HandleCellBlur | src/components/Spreadsheet.js:79-81 | no cell is focused; nothing else changes |
| LegacySheet.Spreadsheet.StartResizing | src/components/Spreadsheet.js:83-95 | records the column, the pointer position, the column's current width and the header height |
| LegacySheet.Spreadsheet.HandleMouseMove | src/components/Spreadsheet.js:97-108 | the widths and header height become what `MouseMove` gives; nothing else changes |
| LegacySheet.Spreadsheet.StopResizing | src/components/Spreadsheet.js:110-114 | no drag is in progress |
| SpreadsheetRoutes.ParseAccess | models/Spreadsheet.js:19-23 | absent or `view` gives view, `edit` gives edit, and anything else is rejected |
| SpreadsheetRoutes.CreateOutcome | routes/spreadsheets.js:8-19 | a missing or empty title, or a taken id, answers 500 and stores nothing; otherwise exactly one new record is stored, with the caller as owner, the title, no shares, empty data and the current time, and it is returned |
| SpreadsheetRoutes.ListByOwner | routes/spreadsheets.js:22-29 | exactly the records whose owner is the caller |
| SpreadsheetRoutes.ShareOutcome | routes/spreadsheets.js:32-52 | 404 for an unknown sheet, then 401 for a non-owner, then 404 for an unknown email, then 500 for an invalid access, each with the store unchanged; otherwise exactly one entry is appended to the end of that sheet's `sharedWith`, and no other field or record changes |
| SpreadsheetRoutes.ShareChangesStoreOnlyOnSuccess | routes/spreadsheets.js:34-48 | the share succeeds exactly when all four guards pass, and otherwise the store is unchanged |
| SpreadsheetRoutes.NonOwnerLearnsNothing | routes/spreadsheets.js:38-45 | ownership is checked before the user lookup: a non-owner gets the same answer whatever the email, access or users |
| SpreadsheetRoutes.ShareTwiceDuplicates | routes/spreadsheets.js:46 | sharing twice with a user appends two entries, with no duplicate check |
| SpreadsheetRoutes.CreateThenList | routes/spreadsheets.js:8-29 | a new sheet is listed for its creator, and no one else's list changes |
| SpreadsheetRoutes.ShareKeepsLists | routes/spreadsheets.js:24-48 | sharing changes no one's list of owned sheets |
| SpreadsheetRoutes.Store.constructor | routes/spreadsheets.js:3-4 | an empty document collection over the given users |
| SpreadsheetRoutes.Store.Create | routes/spreadsheets.js:8-19 | the store and the answer are as `CreateOutcome` gives them |
| SpreadsheetRoutes.Store.List | routes/spreadsheets.js:22-29 | answers exactly the caller's records and changes nothing |
| SpreadsheetRoutes.Store.Share | routes/spreadsheets.js:32-52 | the store and the answer are as `ShareOutcome` gives them |

## Left out

- Transport: Socket.IO's handshake, CORS and delivery order across clients are concurrency and networking. Broadcasts are delivery sets. That a connection joins the room named by its own id when it connects, and leaves all its rooms when it disconnects, are assumptions about the transport.
- Persistence: MongoDB and Mongoose persistence, Express wiring and static file serving are I/O. The store is a map, the generated id and `Date.now` are parameters, and failed database calls are not modelled.
- Authentication: `routes/auth.js` and the auth middleware are not part of this model, because they are thin wrappers over bcrypt and JSON web tokens. The caller's id is a parameter.
- Share with a missing email: `SpreadsheetRoutes.ShareOutcome` takes the email as a string. A request with no email, which Mongoose would turn into a query on `undefined`, is not modelled.
- Malformed ids: a malformed id that makes `findById` throw, and its 500 answer, are not modelled. Ids are plain keys. This case does arise: the older app mounts its component without an `id` (src/App.js:12), so every share it posts goes to `/api/spreadsheets/undefined/share` (`LegacySheet.ShareWithoutIdTargetsUndefined`), which the handler answers with 500 once the request is authenticated.
- Share with a null access: an explicit `null` access, which skips both the default and the enum check, is not modelled.
- Owner comparison: `SpreadsheetRoutes.ShareOutcome` compares the owner with the caller's id as equal strings. The normalisation that `ObjectId.toString()` applies to the stored owner is not modelled.
- Routes list order: `SpreadsheetRoutes.ListByOwner` returns a map, so the order MongoDB lists records in is not modelled.
- Response bodies: responses are modelled as status and message, or record. The difference between a JSON `{ msg }` body and a plain-text body is not captured.
- Client listeners: the client's `activeUsers` listener and its `leaveSpreadsheet` emit on unmount are not modelled. No server code emits `activeUsers` or handles `leaveSpreadsheet`.
- Listener teardown: the unmount clean-up that removes listeners is not modelled.
- Client output: React rendering, DOM listener registration for the drag, `console.log`, `alert`, `uuidv4` and `axios` are UI and I/O. The user id, the front-end address, the page origin and the outcome of the share POST are parameters. Pointer coordinates are integers.
- State updates: React's queued state updates are modelled as applied at once in call order.
- Hub.Server.JoinSpreadsheet: requires a live connection (one in its own room), because the transport only delivers events on connected sockets; `Hub.JoinKeepsConsistent` requires the same.
- ClientSheet.Spreadsheet.StartResizing: the source also accepts a column drag with no column, which the UI never issues. It requires a column for a column drag.
- LegacySheet.Spreadsheet.StartResizing: the same requirement, for the same reason; the older component's column handles also always pass their index.
- Grid.HeaderLabel: requires `65 + col` below the surrogate range. The UI only labels columns 0..25.
- CellIds.Decimal: models the template literal for naturals only. Rows and columns are loop indices.
