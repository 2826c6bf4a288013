# GridClash protocol model

GridClash is a small UDP game on a 10x10 grid. Players claim cells, and a
server keeps the authoritative owner of every cell and pushes snapshots
of the grid to every client. The repository holds three near-duplicate
protocol variants. This project models all three, the server and the
client of each, in Dafny:

- **the delta variant** (`server_Decode.py`, `client_Decode.py`). The
  server keeps a bounded history of grid snapshots and a per-client
  acknowledgement cursor. Each broadcast tick it sends each client only
  the cells that changed since the snapshot that client last
  acknowledged. The client drops snapshots older than the newest it
  kept, acknowledges the rest and merges their `DELTA CELL id owner`
  lines into its view.
- **the full-state variant** (`server_ACK.py`, `client_ACK.py`). Every
  acquisition bumps the snapshot id and broadcasts every cell as
  `CELL id owner`. The client merges every snapshot it gets.
- **the stop-and-wait variant** (`Aser_GUI/server.py`,
  `Aser_GUI/client.py`). The server validates acquisitions on a 10x10
  integer grid. Once per tick it sends each client a DELTA, a HEARTBEAT
  or a FULL snapshot, chosen by a "grid modified" flag and by whether
  that client acknowledged its last message. The client adopts any
  non-empty grid it can read from the payload and acknowledges every
  snapshot.

Modules:

| module | file | what it is |
|---|---|---|
| `Common` | common.dfy | `Option`, bytes, addresses, millisecond clock readings |
| `Wire` | wire.dfy | the 24-byte header `'!4s B B I I Q H'`, `struct.pack`/`unpack`, payload slicing |
| `Utf8` | utf8.dfy | `str.encode()` and `bytes.decode()` (strict UTF-8) |
| `PyText` | pytext.dfy | the Python `str` operations used on payloads: `strip`, `split()`, `split(sep)`, `in`, `int()`, `str()` |
| `Json` | json.dfy | `json.dumps` of a list of integer lists, and `json.loads` reading it back |
| `OrderedDict` | dict.dfy | Python's insertion-ordered `dict`, as a sequence of pairs |
| `Gclp` | gclp.dfy | what the two GCLP variants share: player ids, `r_c` cell ids, `ACQUIRE` and `PLAYER:` texts, the client's view and its update steps |
| `UiQueue` | ui_queue.dfy | the GCLP clients' message queue and `update_ui`, which they share |
| `DeltaServer`, `DeltaClient` | delta_server.dfy, delta_client.dfy | the delta variant |
| `FullStateServer`, `FullStateClient` | fullstate_server.dfy, fullstate_client.dfy | the full-state variant |
| `StopWaitServer`, `StopWaitClient` | stopwait_server.dfy, stopwait_client.dfy | the stop-and-wait variant |

### How the model is built

- **State.** Each server and client is a `class` whose fields are the
  program's fields or globals. Python dicts are `OrderedDict` sequences,
  because their iteration order decides the order of payload segments
  and of sends. The stop-and-wait grid is an `array2<int>`.
- **Specification functions.** Each handler and each broadcast tick is a
  method. Its `ensures` ties the new fields and the returned datagrams to
  a pure function of the old fields: `Handle`, `Tick`, `OnDatagram`,
  `OnSnapshot`, and so on. The lemmas state what the program promises
  about those functions.
- **Sends.** A send is an `Outgoing(to, header, payload)` value in the
  returned list.
- **Clock.** `time.time() * 1000` is a parameter `now`.
- **Exceptions.** Each exception path is modelled explicitly:
  - `struct.pack` raising on a field that does not fit its width becomes
    `Pack` returning `None`.
  - `struct.unpack` on a datagram shorter than 24 bytes becomes `Unpack`
    returning `None`.
  - `.decode()` of bytes that are not valid UTF-8 becomes `Utf8.Decode`
    returning `None`.
  - `int()` of a text that is not an integer becomes `ParseInt` returning
    `None`.
  - What the surrounding `try` does with each of these is modelled as
    written. It may drop the datagram, abort the rest of a payload, end
    the receive loop (`alive`), end the broadcast thread (`broadcasting`)
    or end the client's listener (its `phase`).

### Where the code is weaker than its comments suggest

The model follows the code in every case below.

- **Magic tag.** No variant checks the magic. Any datagram of at least 24
  bytes is accepted, whatever its first four bytes
  (server_Decode.py:125, server_ACK.py:98, Aser_GUI/server.py:90,
  client_Decode.py:151, client_ACK.py:123, Aser_GUI/client.py:80).
- **Acknowledgements.**
  - In the delta variant, `ACK_SNAP:k` in a DATA payload and `ACK k` in a
    type-4 message both overwrite the client's cursor rather than take
    the maximum, so the cursor can move backwards
    (server_Decode.py:151-153, 169-171).
  - The delta server accepts a cursor for any snapshot id, including one
    it never sent or one from an address that never sent INIT
    (server_Decode.py:151-153). The full-state server keeps no
    acknowledgement at all (server_ACK.py:118-134).
- **Repeated INIT.** A repeated INIT from the same address replaces the
  session:
  - the delta server resets that client's cursor to 0 and gives it a new
    player id (server_Decode.py:128-136);
  - the stop-and-wait server gives it a new client number and clears its
    acknowledged flag (Aser_GUI/server.py:94-96).
- **Cell ownership.**
  - Both GCLP servers let an acquisition overwrite an owned cell. The
    owner comes from the payload, not from the sender's session
    (server_Decode.py:155-161, server_ACK.py:122-128).
  - Owner ids outside 1..4 are stored. A GCLP client that meets one
    (`self.colors[owner]` raises) abandons the rest of that snapshot
    (client_Decode.py:222, client_ACK.py:174).
- **Broadcast counting.**
  - The full-state server increments `snapshot_id` on every acquisition,
    even with no client to send to (server_ACK.py:134, 143).
  - The delta server captures nothing while it has no clients
    (server_Decode.py:187-188).
- **Invalid events.** The stop-and-wait server marks the grid as modified
  on every EVENT, including a malformed or rejected one
  (Aser_GUI/server.py:125).
- **Fatal errors in the stop-and-wait variant.**
  - The server's main loop has no `try`. A datagram shorter than 24 bytes,
    or an EVENT payload that is not UTF-8, ends it for good
    (Aser_GUI/server.py:86-90, 127).
  - A header that does not pack in the broadcast loop ends the broadcast
    thread (Aser_GUI/server.py:41-73).
- **Stop-and-wait handshake.** The client takes any reply of at least 24
  bytes as the handshake's ACK, whatever its type
  (Aser_GUI/client.py:110-111).
- **The UI queue.** Each GCLP client's `update_ui` takes queued entries
  off inside one `try`. An entry that raises ends that call, and the
  entries behind it wait for the next call, 50 ms later
  (client_Decode.py:182-203, client_ACK.py:143-161).
- **Stale snapshots.** The stop-and-wait and full-state clients apply
  every snapshot, with no snapshot-id ordering check
  (Aser_GUI/client.py:83-90, client_ACK.py:132-134).

## Model

| member | source | states |
|---|---|---|
| Wire.Pack | server_Decode.py:220-224 | `struct.pack` succeeds exactly when every field fits its width (u8, u8, u32, u32, u64, u16), and then gives exactly 24 bytes |
| Wire.Unpack | server_Decode.py:125-126 | `struct.unpack` of the first 24 bytes succeeds exactly when the datagram has at least 24 bytes |
| Wire.PayloadBytes | server_Decode.py:148 | the payload slice is the bytes after the header, stopping at the datagram's end when the length field claims more |
| Wire.Tag4 | server_Decode.py:9 | the `4s` field is always 4 bytes: a longer tag is cut, a shorter one is padded with zero bytes |
| Wire.FromToBE | server_Decode.py:9 | reading back a big-endian field that was written for a value within its width gives that value |
| Wire.ToFromBE | server_Decode.py:9 | every byte string is the big-endian encoding of the value read from it |
| Wire.UnpackPack | server_Decode.py:125-126 | unpacking a packed header, whatever follows it, gives back every field, with the magic cut or padded to 4 bytes |
| Wire.PackUnpack | server_Decode.py:125-126 | every 24-byte prefix unpacks to fields that fit and pack back to the same bytes |
| Wire.DatagramRoundTrip | server_Decode.py:220-225 | a datagram built from a fitting header with a 4-byte magic and the payload's encoded length unpacks to that header and decodes to that payload |
| Utf8.EncodeChar | server_Decode.py:142 | a character encodes to 1 to 4 bytes, and to exactly one byte exactly when it is ASCII |
| Utf8.DecodeEncode | server_Decode.py:148 | decoding the encoding of any text gives the text back |
| Utf8.EncodeAsciiLength | server_Decode.py:142-144 | an ASCII text's encoded length is its length |
| PyText.LStrip | client_Decode.py:212 | `lstrip` never lengthens its input, and the result does not start with whitespace |
| PyText.RStrip | client_Decode.py:212 | `rstrip` never lengthens its input, and the result does not end with whitespace |
| PyText.Strip | client_Decode.py:212 | `strip` never lengthens its input; the result is empty exactly when the input is all whitespace, and otherwise neither starts nor ends with whitespace |
| PyText.StripPadded | client_Decode.py:212 | `strip` removes exactly the whitespace around a text that neither starts nor ends with whitespace |
| PyText.SplitWs | server_Decode.py:156 | `split()` gives only non-empty tokens without whitespace |
| PyText.SplitWsJoin | server_Decode.py:156 | `split()` of tokens joined by single spaces, with any whitespace around them, gives the tokens back |
| PyText.IndexOf | server_Decode.py:151 | the search finds the first occurrence of a pattern, or reports that there is none |
| PyText.SplitOn | server_Decode.py:152 | `split(sep)` gives at least one piece, the whole text when `sep` does not occur, and at least two pieces when it does |
| PyText.SplitOnFirst | client_Decode.py:210 | splitting at a separator character splits at its first occurrence |
| PyText.SplitOnUnique | server_Decode.py:152 | a text holding a pattern exactly once splits into the text before it and the text after it |
| PyText.JoinSplitOn | server_Decode.py:152 | joining the pieces of `split(sep)` with `sep` gives the text back |
| PyText.SplitJoinBar | client_Decode.py:210 | splitting `" \| "`-joined segments at `\|` gives one line per segment, each being that segment with a space on either side |
| PyText.IntToString | server_Decode.py:142 | `str(n)` is non-empty and holds only digits, after a leading minus sign for negative numbers |
| PyText.ParseInt | server_Decode.py:158 | `int()` reads a value only from a text that is not all whitespace and, once the whitespace `int()` skips is trimmed, holds no whitespace; a negative value needs a leading `-` |
| PyText.ReadSigned | server_Decode.py:158 | a trimmed text is read only when it is non-empty and has no whitespace, and a negative value only from a leading `-` |
| PyText.SeparatorRejected | server_Decode.py:152 | `int()` rejects a text that starts or ends with one of the separators U+001C to U+001F, although `strip()` counts them as whitespace, so `ACK_SNAP:` or `PLAYER:` followed by one of them is not read as a number |
| PyText.NatRoundTrip | server_Decode.py:170 | the digits of `str(n)` for n >= 0 have the value n |
| PyText.IntRoundTrip | server_Decode.py:170 | `int(str(n)) == n` for every integer |
| Json.Dumps | Aser_GUI/server.py:48 | `json.dumps` writes `[]` exactly for the empty list, and writes any other list of lists between `[[` and `]]` |
| Json.ParseNumber | Aser_GUI/client.py:86 | a number is read only from the exact text `str` writes for it |
| Json.NumberRoundTrip | Aser_GUI/client.py:86 | the text `str` writes for any integer is read back as that integer |
| Json.Loads | Aser_GUI/client.py:86 | a text is read as a list of integer lists only when it is exactly the `json.dumps` of that list; with `LoadsDumps` this makes `Loads(t) == Some(g)` hold exactly when `t == Dumps(g)` |
| Json.LoadsDumps | Aser_GUI/client.py:86 | `json.loads(json.dumps(g)) == g` for every list of integer lists |
| Json.RowsRoundTrip | Aser_GUI/server.py:48 | each row the dump writes reads back as that row |
| OrderedDict.PutGet | server_Decode.py:161 | after `d[k] = v`, `d[k]` is `v`, every other key is unchanged, and the key order changes only by appending a new key |
| OrderedDict.PutTwice | server_Decode.py:130-133 | storing twice under one key is storing the second value |
| OrderedDict.PutUnique | server_Decode.py:161 | storing keeps the keys unique |
| OrderedDict.PutToMap | server_Decode.py:161 | storing is a map update |
| OrderedDict.GetKeys | server_Decode.py:204 | a lookup succeeds exactly for the keys present |
| OrderedDict.RemoveGet | server_Decode.py:199 | after `del d[k]`, `k` is absent and every other key is unchanged |
| OrderedDict.RemoveFirst | server_Decode.py:198-199 | deleting the first key of a dict with unique keys drops its first entry |
| OrderedDict.GetFound | server_Decode.py:204 | a present key's value is the value stored with it at some position |
| OrderedDict.GetListed | server_Decode.py:211 | in a dict with unique keys, each listed entry is what its key looks up |
| Gclp.GridCells | client_Decode.py:221 | the cells are exactly the (row, col) pairs of the 10x10 grid |
| Gclp.InitialOwners | client_Decode.py:25 | the client's view starts with every grid cell unowned |
| Gclp.PlayerId | server_Decode.py:129 | `((n - 1) % 4) + 1` lies in 1..4 and is congruent to n modulo 4 |
| Gclp.PlayerIdCycles | server_Decode.py:129-136 | successive registrations get the player ids 1, 2, 3, 4, 1, ... |
| Gclp.CellIdRoundTrip | client_Decode.py:219 | `map(int, f"{r}_{c}".split('_'))` gives back (r, c) |
| Gclp.ParseCellId | client_Decode.py:219 | an id without `_` is rejected; an accepted id splits at `_` into exactly two pieces whose `int()` values are the row and the column |
| Gclp.CellIdInjective | client_Decode.py:117 | different cells have different ids |
| Gclp.PlayerRoundTrip | client_Decode.py:156 | `int("PLAYER:n".split(':')[1])` gives back n |
| Gclp.ParsePlayer | client_Decode.py:156 | a reply without `:` gives no player id; an accepted one is `int()` of the second `:`-separated piece |
| Gclp.PlayerTextLength | server_Decode.py:142-144 | the `PLAYER:n` reply of a player id in 1..4 is 8 bytes |
| Gclp.ParseAcquire | server_Decode.py:155-158 | an acquisition is read only from a payload containing `ACQUIRE`, with at least three tokens and an integer third token |
| Gclp.AcquireRoundTrip | server_Decode.py:155-158 | `ACQUIRE id pid ...` is read back as the cell id and the player id |
| Gclp.EntryStep | client_Decode.py:218-223 | a `(cell id, owner)` entry sets the cell exactly when the id parses to a grid cell and the owner has a colour (1..4); it aborts the rest of the payload exactly when the id does not parse, or names a grid cell with an owner that has no colour |
| Gclp.CellStep | client_Decode.py:218 | an owner text that is not an integer aborts; otherwise the step is that of the parsed entry |
| Gclp.ApplySteps | client_Decode.py:211-223 | applying a payload's steps only adds or changes cells it sets, and leaves every other cell as it was |
| Gclp.AbortKeepsEarlier | client_Decode.py:199-200 | an aborting line keeps the updates before it and discards everything after it |
| Gclp.LastSetWins | client_Decode.py:223 | in a payload without aborts, a cell ends up with the owner of the last line that sets it |
| UiQueue.UpdateUiPass | client_Decode.py:181-200 | one `update_ui` call takes a prefix of the queue off, at least one entry when there is one; no entry it takes raises except possibly the last, and entries stay queued exactly when that last one raised; the new view is the taken entries handled in order |
| UiQueue.HandleConcat | client_Decode.py:183-198 | handling two batches of entries one after the other is handling them as one batch, in order |
| UiQueue.PassResumes | client_Decode.py:181-203 | what one call leaves queued, handled later, completes the handling of the whole queue: an entry that raises delays the entries behind it and loses none of them |
| UiQueue.DrainedHandlesAll | client_Decode.py:181-203 | calling `update_ui` again until the queue is empty handles every entry once, in arrival order, whichever of them raise |
| UiQueue.QuietPass | client_ACK.py:142-158 | when no queued entry raises, one call handles every entry and empties the queue |
| UiQueue.PassAppend | client_Decode.py:157-200 | when a call stops at a raising entry, an entry queued later only waits behind the rest: the call handles exactly what it handled before |
| DeltaServer.FromCode | server_Decode.py:128-167 | the variant's message numbers: 0 INIT, 1 DATA, 2 connection reply, 3 snapshot, 4 snapshot ACK |
| DeltaServer.ParseData | server_Decode.py:150-161 | a cursor update needs `ACK_SNAP:` in the payload; an acquisition is what `ACQUIRE` parsing gives; a cursor that is not an integer drops the acquisition |
| DeltaServer.ParseSnapAck | server_Decode.py:169-170 | `ACK k` is read only from a payload containing `ACK`, as the integer second token |
| DeltaServer.DeltaPayload | server_Decode.py:214-218 | the payload is `NO_CHANGES` exactly when the delta is empty |
| DeltaServer.ChangedCells | server_Decode.py:241-246 | the delta holds exactly the grid entries that the base lacks or holds with another owner; it keeps ids unique and is no longer than the grid |
| DeltaServer.ChangedInOrder | server_Decode.py:241-246 | the changed cells of a grid split in two are those of the first part followed by those of the second, so the delta lists cells in grid order |
| DeltaServer.ComputeDelta | server_Decode.py:232-246 | the whole grid when the base id is 0 or not in the history; otherwise the changed cells against that base |
| DeltaServer.Range | server_Decode.py:197-199 | the ids from lo to hi, ascending |
| DeltaServer.MinOfIsMin | server_Decode.py:198 | `min` of the history's ids is one of them and no larger than any |
| DeltaServer.Handle | server_Decode.py:119-177 | a datagram shorter than the header changes nothing and gets no reply; every datagram gets at most one reply, sent to its sender, and leaves both counters and the history alone |
| DeltaServer.Tick | server_Decode.py:185-230 | with no clients a tick changes nothing and sends nothing; with clients it moves both counters by one; it never changes the clients, their cursors or the grid, and sends at most one packet per client |
| DeltaServer.Server.constructor | server_Decode.py:22-32 | no clients, an empty grid and history, both counters 0, the next player id 1 |
| DeltaServer.Server.Receive | server_Decode.py:119-177 | one datagram's effect on the server and its replies are those of `Handle`; the invariant is kept |
| DeltaServer.Server.Connect | server_Decode.py:128-145 | the INIT branch is `OnInit` |
| DeltaServer.Server.TakeData | server_Decode.py:147-165 | the DATA branch is `OnData` |
| DeltaServer.Server.DeltaPacket | server_Decode.py:203-225 | one client's packet in the tick is `PacketFor` |
| DeltaServer.Server.NextSnapshot | server_Decode.py:190-199 | the start of a tick with clients is `Advance` |
| DeltaServer.Server.SendDeltas | server_Decode.py:202-228 | the per-client loop sends `Packets` for the clients, in order |
| DeltaServer.Server.Broadcast | server_Decode.py:185-230 | one broadcast tick's effect and packets are those of `Tick`; the invariant is kept |
| DeltaServer.OnDataPreserves | server_Decode.py:147-165 | DATA keeps the invariant, never touches the history or the snapshot id, and never removes a cell |
| DeltaServer.HandlePreserves | server_Decode.py:119-177 | every datagram keeps the invariant, leaves the history and the snapshot id alone, and never removes a cell from the grid |
| DeltaServer.InitSession | server_Decode.py:128-136 | INIT gives the sender a fresh session under the next player id, resets its cursor to 0 even on a repeated INIT, advances the counter by one, and changes no other session and not the grid |
| DeltaServer.InitReply | server_Decode.py:141-145 | INIT is answered by exactly one type-2 message with zero ids, which the client reads back as the assigned player id |
| DeltaServer.SnapAckOverwrites | server_Decode.py:167-171 | `ACK k` sets the sender's cursor to k by overwriting it, so the cursor can move backwards; nothing else changes |
| DeltaServer.DataEffects | server_Decode.py:150-161 | `ACK_SNAP:k` overwrites the sender's cursor; an acquisition gives the named cell to the named player whoever held it, and leaves every other cell alone |
| DeltaServer.TickCounters | server_Decode.py:187-191 | a tick without clients changes nothing and sends nothing; with clients, both counters grow by exactly one |
| DeltaServer.TickRecords | server_Decode.py:190-199 | a tick records a copy of the grid under the new id; afterwards the history holds at most 100 entries, all among the last 100 ids |
| DeltaServer.RecordLatest | server_Decode.py:193-199 | after recording snapshot n, its grid is in the history, which has at most 100 entries whose ids lie in (n - 100, n] |
| DeltaServer.RecordWindow | server_Decode.py:193-199 | recording the next snapshot moves the window of kept ids by one |
| DeltaServer.RecordShape | server_Decode.py:193-199 | recording appends the new snapshot, and drops the oldest entry exactly when 100 were already kept |
| DeltaServer.AppendId | server_Decode.py:194 | a new id larger than every recorded one goes to the end |
| DeltaServer.DropOldest | server_Decode.py:197-199 | in a history with ascending ids, the smallest id is the first, and deleting it drops the first entry |
| DeltaServer.WindowUnique | server_Decode.py:190-194 | ids that ascend by one never repeat |
| DeltaServer.RecordWithin | server_Decode.py:194 | every recorded grid keeps only cells of the current grid |
| DeltaServer.TickPreserves | server_Decode.py:185-199 | a tick keeps the invariant |
| DeltaServer.AdvancePreserves | server_Decode.py:190-199 | capturing the next snapshot into the history keeps the invariant |
| DeltaServer.PacketsSnoc | server_Decode.py:202-225 | each further client adds its own packet at the end |
| DeltaServer.PacketForSpec | server_Decode.py:203-225 | each client gets at most one packet: a type-3 message to that client, with the tick's snapshot and sequence ids and the delta payload against its cursor |
| DeltaServer.PacketsSpec | server_Decode.py:202-225 | every packet of a tick goes to one of the clients, as that client's delta message |
| DeltaServer.PacketsOnePerClient | server_Decode.py:202-225 | when no pack raises, each client gets exactly one packet, in the clients' order |
| DeltaServer.ChangedMerge | server_Decode.py:238-246 | merging the changed cells into the base gives the current grid |
| DeltaServer.DeltaMerge | server_Decode.py:232-246 | the delta against a base in the history, merged into that base, gives the current grid |
| DeltaClient.Client.constructor | client_Decode.py:22-32 | no player id, every cell unowned, all counters 0, an empty queue |
| DeltaClient.SegmentStep | client_Decode.py:212-223 | a segment that is not skipped holds `DELTA` and `CELL` once stripped and has at least four tokens; a cell it sets is on the grid and its owner has a colour |
| DeltaClient.OnDatagram | client_Decode.py:146-179 | a datagram shorter than the header only queues an error entry; receiving never moves the newest id backwards and never touches the view; the old queue stays a prefix of the new one, which holds at most one more entry; at most one message is sent, a type-4 ACK |
| DeltaClient.Client.SendSnapshotAck | client_Decode.py:133-144 | `send_ack` moves the sequence counter, even when packing raises, and sends the ACK when it packs |
| DeltaClient.Client.Receive | client_Decode.py:146-179 | one datagram's effect and the replies are those of `OnDatagram` |
| DeltaClient.Client.Click | client_Decode.py:113-131 | `click_cell` is `OnClick` |
| DeltaClient.Client.ProcessSnapshot | client_Decode.py:205-223 | `process_snapshot` changes only the view, which becomes `ApplyPayload` of the old view; it raises exactly when a step of the payload aborts |
| DeltaClient.Client.ApplyLines | client_Decode.py:210-223 | the loop over the lines applies their steps in order, and raises exactly when one of them aborts |
| DeltaClient.Client.ProcessLine | client_Decode.py:212-223 | one line's effect on the view is its step; it aborts exactly when its step is an abort |
| DeltaClient.Client.UpdateUi | client_Decode.py:181-200 | one `update_ui` call is `UpdateUiPass` on the view and the queue: entries are taken off oldest first until the queue is empty or one raises (a player id without a colour, a payload line that raises); the raising entry is gone, the rest stay queued, and the updates made before the exception stay |
| DeltaClient.AckRoundTrip | client_Decode.py:137 | the server reads `ACK k` back as k |
| DeltaClient.ClickRoundTrip | client_Decode.py:121 | the server reads a click back as the client's cursor and the acquisition of the clicked cell by the client's player |
| DeltaClient.ClickSends | client_Decode.py:113-128 | before the player id is known a click does nothing; after it, the counter grows by one, and exactly when the header packs one DATA message goes to the server, carrying the cursor in its snapshot field and in its payload |
| DeltaClient.ClickCursor | client_Decode.py:121 | the text after `ACK_SNAP:` in a click is exactly the cursor |
| DeltaClient.SegmentOfEntry | client_Decode.py:212-219 | a `DELTA CELL id owner` segment, with any whitespace around it, is read as that entry's step |
| DeltaClient.DeltaStepsOfPayload | client_Decode.py:210-223 | a non-empty delta's payload is read back as the steps of its entries, in order |
| DeltaClient.NoChangesKeeps | client_Decode.py:213 | `NO_CHANGES` changes no cell |
| DeltaClient.SkipLine | client_Decode.py:213 | a line without `DELTA` is skipped |
| DeltaClient.DeltaRoundTrip | client_Decode.py:210-223 | whatever the view, applying the payload the server wrote for a delta applies exactly the delta's entries, in order |
| DeltaClient.StaleDropped | client_Decode.py:161-163 | a snapshot older than the newest one kept changes nothing and is not acknowledged |
| DeltaClient.SnapshotAccepted | client_Decode.py:165-173 | a snapshot that is not older (an equal id included) is queued; it becomes both the newest and the acknowledged snapshot; it is answered by at most one `ACK` (exactly one when the counter fits), which has type 4, the snapshot's id, and the sequence number moved by one; the view is untouched |
| DeltaClient.AckFits | client_Decode.py:138-141 | the ACK of an id taken from a header packs while the counter fits |
| DeltaClient.ReceiveMonotone | client_Decode.py:146-179 | receiving never moves the newest snapshot id backwards, never drops a queued entry and never touches the view |
| DeltaClient.ServerReadsInit | client_Decode.py:104-108 | the server registers the sender of the INIT packet |
| DeltaClient.ClientReadsReply | client_Decode.py:154-157 | the client takes its player id from the server's connection reply and queues it as a `connected` entry |
| DeltaClient.ServerReadsAck | client_Decode.py:133-142 | an ACK that packs sets the server's cursor for its sender to the acknowledged id, and changes nothing else |
| DeltaClient.HandleSnapAck | server_Decode.py:167-171 | a type-4 datagram whose payload decodes is handled by `OnSnapAck` with no reply |
| DeltaClient.ServerReadsClick | client_Decode.py:113-128 | a click that packs sets the server's cursor for its sender to the client's acknowledged id, and gives the clicked cell to the client's player |
| DeltaClient.ClientTakesDelta | client_Decode.py:159-173 | a delta packet for a client that has seen no newer snapshot is queued, and its id becomes the newest and the acknowledged one; applying it applies the server's delta entries, in the server's order; calling `update_ui` until the queue is empty applies them on top of whatever the earlier entries did |
| DeltaClient.DeltaTokenIds | server_Decode.py:242-244 | the delta carries only ids of the grid |
| DeltaClient.SnapshotDatagram | client_Decode.py:159-173 | a type-3 datagram that is not older is kept: it updates the newest and acknowledged ids, is queued, and moves the counter |
| FullStateServer.FullPayload | server_ACK.py:150 | the payload is empty exactly when the grid is |
| FullStateServer.Snapshots | server_ACK.py:153-160 | at most one snapshot per client |
| FullStateServer.Handle | server_ACK.py:94-140 | a datagram shorter than the header changes nothing and sends nothing; only an INIT changes the clients; a change of the grid moves the snapshot id by exactly one |
| FullStateServer.Server.constructor | server_ACK.py:22-27 | no clients, an empty grid, snapshot id 0, the next player id 1 |
| FullStateServer.Server.Receive | server_ACK.py:94-140 | one datagram's effect and the sends are those of `Handle`; the invariant is kept |
| FullStateServer.Server.Connect | server_ACK.py:101-117 | the INIT branch is `OnInit` |
| FullStateServer.Server.TakeData | server_ACK.py:119-134 | the DATA branch, after the payload decodes, is `OnData` |
| FullStateServer.Server.BroadcastSnapshot | server_ACK.py:142-160 | `broadcast_snapshot` is `Broadcast` |
| FullStateServer.HandlePreserves | server_ACK.py:94-140 | every datagram keeps the invariant, never removes a cell, and moves the snapshot id by at most one |
| FullStateServer.SessionsZero | server_ACK.py:103-107 | every session's `seq` and `last_snapshot` stay 0 |
| FullStateServer.SnapshotsSound | server_ACK.py:153-160 | whatever a broadcast sends is one client's snapshot: type 3, the new snapshot id, that client's `seq`, and the whole grid as payload |
| FullStateServer.SnapshotsComplete | server_ACK.py:153-160 | when the numbers fit, every client gets exactly one snapshot, in the clients' order |
| FullStateServer.SnapshotFits | server_ACK.py:155-158 | one client's snapshot packs when its numbers fit |
| FullStateServer.SnapshotsZeroSeq | server_ACK.py:156 | every snapshot carries sequence number 0 |
| FullStateServer.InitSession | server_ACK.py:101-117 | INIT registers the sender under the next player id (in 1..4), with zeroed counters; the counter grows by one; the grid and snapshot id stay; one reply carries the id |
| FullStateServer.AcquireBroadcasts | server_ACK.py:119-134 | an acquisition gives the cell to the requested player whoever held it, moves the snapshot id by one and broadcasts the new grid to every client; a payload that is not an acquisition changes nothing and sends nothing |
| FullStateClient.Client.constructor | client_ACK.py:22-27 | no player id, every cell unowned, an empty queue |
| FullStateClient.LineStep | client_ACK.py:166-175 | a line that is not skipped contains `CELL` and has at least three tokens once stripped; a cell it sets is on the grid and its owner has a colour |
| FullStateClient.OnDatagram | client_ACK.py:118-140 | a datagram shorter than the header only queues an error entry; the view is never touched; the old queue stays a prefix of the new one, which holds at most one more entry |
| FullStateClient.Client.Receive | client_ACK.py:118-140 | one datagram's effect is `OnDatagram` |
| FullStateClient.Client.Click | client_ACK.py:103-116 | before the player id is known a click sends nothing; when the id is one digit and the cell is on the grid, exactly one packet goes to the server, and the server reads it as the acquisition of the cell by the player |
| FullStateClient.Client.ProcessSnapshot | client_ACK.py:163-175 | `process_snapshot` changes only the view, which becomes `ApplyPayload` of the old view; it raises exactly when a step of the payload aborts |
| FullStateClient.Client.ProcessLine | client_ACK.py:166-175 | one line's effect on the view is its step; it aborts exactly when its step is an abort |
| FullStateClient.Client.UpdateUi | client_ACK.py:142-158 | one `update_ui` call is `UpdateUiPass` on the view and the queue: entries are taken off oldest first until the queue is empty or one raises (a player id without a colour, a payload line that raises); the raising entry is gone, the rest stay queued, and the updates made before the exception stay |
| FullStateClient.ClickRoundTrip | client_ACK.py:108 | the server reads a click back as the acquisition of the clicked cell by the player |
| FullStateClient.ClickFits | client_ACK.py:111-112 | a click of a one-digit player id on a grid cell packs |
| FullStateClient.SegmentOfEntry | client_ACK.py:166-171 | a `CELL id owner` segment, with any whitespace around it, is read as that entry's step |
| FullStateClient.PayloadStepsOfGrid | client_ACK.py:163-175 | a non-empty grid's payload is read back as the steps of its entries, in order |
| FullStateClient.EmptyPayloadKeeps | client_ACK.py:164 | the empty payload of an empty grid changes nothing |
| FullStateClient.FullRoundTrip | client_ACK.py:163-175 | whatever the view, applying the server's payload applies exactly the grid's entries, in order |
| FullStateClient.FullSnapshotSyncs | client_ACK.py:163-175 | after a full snapshot of a grid with well-formed ids and coloured owners, the view shows every on-grid cell that grid lists, with its owner, and keeps every other cell |
| FullStateClient.SnapshotQueued | client_ACK.py:132-134 | every snapshot is queued, whatever its id; nothing else changes and nothing is sent |
| FullStateClient.ClientGridQuiet | client_ACK.py:163-175 | the payload of a grid with `r_c` ids and owners in 1..4 raises on no line |
| FullStateClient.ServerReadsInit | client_ACK.py:95-98 | the server registers the sender of the INIT packet |
| FullStateClient.ClientReadsReply | client_ACK.py:127-130 | the client takes its player id from the server's connection reply and queues it as a `connected` entry |
| FullStateClient.DecodedDatagram | client_ACK.py:127-140 | a connection reply that parses sets the player id and is queued; one that does not parse queues an error entry; a snapshot is queued |
| FullStateClient.ServerReadsClick | client_ACK.py:107-113 | a click that packs makes the server give the clicked cell to the player and broadcast the new grid |
| FullStateClient.ClientTakesSnapshot | client_ACK.py:132-158 | a snapshot the server sends is queued; calling `update_ui` until the queue is empty makes the view show every listed on-grid cell with the server's owner, on top of whatever the earlier entries did; when no earlier entry raises, one call does it and empties the queue |
| FullStateClient.SnapshotDatagram | client_ACK.py:132-134 | a type-3 datagram is queued as its payload |
| StopWaitServer.EmptyGrid | Aser_GUI/server.py:26 | a 10x10 grid of zeros |
| StopWaitServer.TickUpTo | Aser_GUI/server.py:42-73 | the loop keeps one entry per client |
| StopWaitServer.Rows2 | Aser_GUI/server.py:48 | the list of lists `json.dumps` sees holds the grid's cells |
| StopWaitServer.EventCell | Aser_GUI/server.py:130-133 | a request is read only from exactly three tokens, the first `ACQUIRE_CELL`, as the `int()` values of the second and third |
| StopWaitServer.Kind | Aser_GUI/server.py:47-73 | HEARTBEAT exactly when the grid is unmodified, DELTA exactly when it is modified and the client acknowledged, FULL exactly when it is modified and the client did not |
| StopWaitServer.TickOne | Aser_GUI/server.py:43-73 | both counters move by one and the number stays; a message, sent when its header packs, goes to that client with the type `Kind` picks, the moved counters, the payload's encoded length, and the grid's JSON as payload exactly when the grid is modified; the acknowledged flag is cleared exactly when a DELTA is sent |
| StopWaitServer.Handle | Aser_GUI/server.py:86-139 | once the main loop has ended nothing changes and nothing is sent; a datagram shorter than the header ends it; there are at most two replies, all to the sender; the broadcast thread is untouched and the client counter never decreases |
| StopWaitServer.Tick | Aser_GUI/server.py:38-76 | a tick keeps the grid, the client counter, the main loop and the number of clients, sends at most one message per client, and leaves the grid unmodified unless the broadcast thread stopped |
| StopWaitServer.Server.constructor | Aser_GUI/server.py:21-33 | no clients, counter 0, a new all-zero 10x10 grid, `modifiedFlag` true; the invariant holds |
| StopWaitServer.Server.Receive | Aser_GUI/server.py:86-139 | one datagram's effect on the globals and the grid, and the sends, are those of `Handle`; the invariant is kept |
| StopWaitServer.Server.Register | Aser_GUI/server.py:94-113 | the INIT branch is `OnInit` |
| StopWaitServer.Server.MarkAck | Aser_GUI/server.py:116-119 | the ACK branch is `OnAck` |
| StopWaitServer.Server.TakeCell | Aser_GUI/server.py:122-139 | the EVENT branch, writing the grid in place, is `OnEvent` |
| StopWaitServer.Server.Broadcast | Aser_GUI/server.py:38-76 | one round of `broadcast_snapshots` is `Tick`; it keeps the grid array and the invariant |
| StopWaitServer.Server.SendAll | Aser_GUI/server.py:42-73 | the loop over the clients is `TickUpTo` over all of them |
| StopWaitServer.TickEntry | Aser_GUI/server.py:43-73 | one client's turn is `TickOne` |
| StopWaitServer.FreshEntry | Aser_GUI/server.py:96-108 | a zeroed entry whose counters are then moved is the entry with both counters 1 |
| StopWaitServer.HandlePreserves | Aser_GUI/server.py:86-139 | every datagram keeps the invariant, and a cell changes only from free to the number of the registered client that asked for it |
| StopWaitServer.InitPreserves | Aser_GUI/server.py:94-113 | INIT keeps the invariant and the grid |
| StopWaitServer.AckPreserves | Aser_GUI/server.py:116-119 | ACK keeps the invariant and the grid |
| StopWaitServer.EventPreserves | Aser_GUI/server.py:122-139 | EVENT keeps the invariant, and changes a cell only from free to the sender's number |
| StopWaitServer.Claim | Aser_GUI/server.py:135-136 | giving a free cell a number changes that cell only, and keeps every number within the bound |
| StopWaitServer.NumbersBounded | Aser_GUI/server.py:95-96 | every client number stays between 1 and the counter |
| StopWaitServer.TickStopped | Aser_GUI/server.py:50-73 | once a header fails to pack, the loop does nothing more |
| StopWaitServer.TickKeys | Aser_GUI/server.py:42-44 | the tick keeps every client's address and number, in order |
| StopWaitServer.TickOk | Aser_GUI/server.py:42-73 | the loop completes exactly when every client's header packs |
| StopWaitServer.TickSent | Aser_GUI/server.py:42-73 | a completed loop sends every client, in order, the message `Kind` picks, with both counters moved by one |
| StopWaitServer.TickPreserves | Aser_GUI/server.py:38-76 | a tick keeps the invariant and never touches the grid or the client counter |
| StopWaitServer.StopAndWait | Aser_GUI/server.py:42-75 | each client gets exactly one message per completed tick. It is a DELTA exactly when the grid was modified and the client had acknowledged, a HEARTBEAT (empty) exactly when the grid was not modified, and a FULL otherwise. DELTA and FULL carry the grid's JSON, and the ids are one past the entry's. Afterwards the grid is unmodified, and a client stays acknowledged only after a HEARTBEAT |
| StopWaitServer.TickStops | Aser_GUI/server.py:50-73 | a tick completes exactly when every header packs; otherwise the broadcast thread stops for good with the grid still modified |
| StopWaitServer.InitialInv | Aser_GUI/server.py:21-33 | the server starts in a state that keeps the invariant |
| StopWaitServer.InitRegisters | Aser_GUI/server.py:94-108 | INIT gives the sender the next client number, replacing any earlier entry, with `last_ack` false and both counters 1 after the FULL; no other entry and no cell changes |
| StopWaitServer.InitReplies | Aser_GUI/server.py:99-113 | INIT is answered with the ACK and then, exactly when it packs, a FULL snapshot with ids 1 whose JSON reads back as the grid |
| StopWaitServer.AckMarks | Aser_GUI/server.py:116-119 | ACK sets `last_ack` only for a registered sender, and changes nothing else |
| StopWaitServer.EventTakes | Aser_GUI/server.py:122-139 | EVENT always marks the grid modified. A well-formed request of a registered client for a free in-bounds cell gives exactly that cell the client's number, and every other request leaves the grid alone. A payload that is not UTF-8 ends the loop |
| StopWaitServer.ShortDatagramStops | Aser_GUI/server.py:87-91 | a datagram shorter than the header ends the main loop; from then on every datagram is ignored |
| StopWaitClient.Client.constructor | Aser_GUI/client.py:31 | an all-zero view, waiting for the handshake |
| StopWaitClient.Snapshot | Aser_GUI/client.py:84-90 | a grid is taken only when it is non-empty and the payload is exactly its `json.dumps` |
| StopWaitClient.SnapshotIsDumps | Aser_GUI/client.py:84-90 | the grid taken from a payload is g exactly when g is non-empty and the payload is `json.dumps(g)` |
| StopWaitClient.OnSnapshot | Aser_GUI/client.py:77-100 | nothing happens outside the listening phase; a datagram shorter than the header ends the listener, and nothing else changes the phase; at most one message is sent, the empty ACK to the sender |
| StopWaitClient.Client.Connect | Aser_GUI/client.py:103-106 | the INIT packet is type 0 and always packs |
| StopWaitClient.Client.Handshake | Aser_GUI/client.py:109-112 | the handshake is `OnHandshake`: any reply of at least 24 bytes starts the listener |
| StopWaitClient.Client.Click | Aser_GUI/client.py:53-58 | a click on a grid button sends a type-2 message to the server that packs and that the server parses as exactly the clicked cell |
| StopWaitClient.Client.Receive | Aser_GUI/client.py:79-94 | one pass of the listener loop, while it runs, is `OnSnapshot` |
| StopWaitClient.Client.Listen | Aser_GUI/client.py:74-100 | the listener loop's effect and ACKs are `ListenUpTo` over all datagrams, each datagram handled by `OnSnapshot`, which adopts a grid only from its exact `json.dumps` text |
| StopWaitClient.ListenStopped | Aser_GUI/client.py:95-100 | once the listener has ended, later datagrams change nothing |
| StopWaitClient.ListenAcks | Aser_GUI/client.py:77-100 | the listener only ever sends empty type-1 ACKs, at most one per datagram, and does nothing once it has ended |
| StopWaitClient.ShortStopsListener | Aser_GUI/client.py:79-100 | a datagram shorter than the header ends the listener for good |
| StopWaitClient.EverySnapshotAcked | Aser_GUI/client.py:83-94 | types 3, 4 and 5 are each answered by exactly one ACK, with or without a grid in the payload; the view changes only to a grid whose `json.dumps` is the payload; other types are ignored |
| StopWaitClient.ClickParses | Aser_GUI/client.py:55 | the server parses `ACQUIRE_CELL r c` as (r, c), for any integers |
| StopWaitClient.ClickFits | Aser_GUI/client.py:56 | a click on a grid button packs |
| StopWaitClient.InitFits | Aser_GUI/client.py:104 | the INIT header packs at any time |
| StopWaitClient.AckArrives | Aser_GUI/client.py:93-94 | an ACK unpacks to the header it was built from |
| StopWaitClient.ClickTakesCell | Aser_GUI/server.py:122-136 | a registered client's click on a free cell gives that cell the client's number; a click on a taken cell, or from an unregistered address, changes no cell; the grid counts as modified either way |
| StopWaitClient.AckAcknowledges | Aser_GUI/server.py:116-119 | the client's ACK sets its `last_ack` on the server |
| StopWaitClient.SnapshotAdopted | Aser_GUI/client.py:83-94 | a FULL or DELTA whose payload is a non-empty grid's JSON makes the client adopt exactly that grid, and it is acknowledged |
| StopWaitClient.Adopts | Aser_GUI/client.py:86-94 | a snapshot-type datagram whose payload is the `json.dumps` of a non-empty grid replaces the view with that grid and is acknowledged |
| StopWaitClient.HeartbeatKept | Aser_GUI/client.py:83-94 | a HEARTBEAT leaves the view alone and is acknowledged |
| StopWaitClient.TickSyncs | Aser_GUI/server.py:42-73 | after a completed tick on a modified grid, every client holds exactly the server's grid and acknowledges it; on an unmodified grid every client keeps its view and still acknowledges |
| StopWaitClient.ConnectSyncs | Aser_GUI/client.py:103-112 | the server's replies to INIT end the client's handshake, and the FULL snapshot gives the new client the server's grid, which it acknowledges |

## Left out

- The tkinter user interface: `setup_ui`, `update_grid_display`,
  `update_button_colors`, `log`, the colour maps (except that an owner
  without a colour raises, which is modelled), the labels and
  `on_closing`. They are presentation only.
- Sockets, `settimeout`, `time.sleep` and the tick periods. Sends are the
  returned `Outgoing` lists. A `sendto` that fails is not modelled, so
  every send is taken to succeed.
- The clock is a parameter, `now`, between 0 and 2^64 - 1.
- Threads. The delta server runs `server_loop` and `broadcast_loop` as
  two threads (server_Decode.py:50-55), and the stop-and-wait server runs
  `broadcast_snapshots` beside its receive loop (Aser_GUI/server.py:80).
  Both pairs share the grid and the client tables with no lock. The GCLP
  clients hand datagrams to their UI through a `queue.Queue`. The model
  runs every handler, tick and `update_ui` call as one serialized step, so no
  interleaving inside a step is modelled. One example it cannot show: an
  ACQUIRE for a new cell id that lands while `compute_delta` iterates the
  grid (server_Decode.py:242) makes Python raise, and that client's
  packet is skipped for the tick (server_Decode.py:227-228).
- `recvfrom`'s buffer sizes (2048 bytes, and 1200 bytes for the
  stop-and-wait handshake). The model assumes every datagram arrives
  whole; a longer datagram would be cut to the buffer size. Every payload
  this model's senders build for a 10x10 grid is shorter than 2048
  bytes.
- `json.loads` is read only for the texts `json.dumps` writes for a list
  of integer lists (`Json.Loads` and `Json.LoadsDumps` prove both
  directions). Every other JSON spelling counts as "no grid", although
  Python would read it: other whitespace, `-0`, exponents, whitespace
  around the value, and values that are not lists of integer lists (a
  non-zero number, a non-empty dict). Every stop-and-wait payload the
  server builds is `json.dumps` output, so this gap concerns only
  datagrams from other senders.
- StopWaitClient.Client.Listen: a datagram holding another JSON spelling
  of a grid is acknowledged but not modelled being adopted, for the
  reason in the line above.
- StopWaitClient.EverySnapshotAcked: states the view change only for
  payloads that are `json.dumps` output, for the same reason.
- StopWaitClient.Adopts: is stated for payloads that are `json.dumps`
  output, for the same reason.
- `int()` here accepts ASCII digits only. Python also accepts other
  Unicode decimal digits, which are not modelled.
- `server.py` and `OGDOMX/client.py` are not part of this model. They are
  a bare echo server and a test driver, whose header is the codec above.
- The stop-and-wait globals that nothing reads are left out:
  `snapshot_id`, `numberOfClicks`, the client's `player_id`.
- The log and exception texts are left out. An `('error', text)` queue
  entry is the value `Failed`, which `update_ui` only logs.
- The delta client's `snapshot` queue entry also carries the snapshot id,
  sequence number and timestamp (client_Decode.py:168). `update_ui` only
  shows them in a label, so the model queues the payload alone.
- DeltaClient.DeltaRoundTrip: needs the delta's cell ids to be
  whitespace-free tokens without `|`. The server's grid ids come from
  `split()` and so are tokens, but an id containing `|` would be read
  back as two lines.
- FullStateClient.FullRoundTrip: has the same requirement on the grid's
  ids.
- DeltaClient.ClientTakesDelta: has the same requirement on the grid's
  ids.
- FullStateClient.FullSnapshotSyncs: is stated for grids whose ids are
  all of the `r_c` form and whose owners are in 1..4. Other grids make
  the client abort part-way, which is what `Gclp.AbortKeepsEarlier`
  states.
- FullStateClient.Client.Click: promises the packet only for one-digit
  player ids, the ones the server assigns. For any other id it states
  only that nothing goes to the server before the id is known.
