/** The full-state client (client_ACK.py): it registers, sends cell
    acquisitions, queues every snapshot it receives, and applies the queued
    payloads, each of which lists the whole grid, to its view of the grid. */
module FullStateClient {
  import opened Common
  import opened PyText
  import opened OrderedDict
  import opened Wire
  import opened Gclp
  import opened FullStateServer
  import opened UiQueue

  /** `(serverName, serverPort)`. */
  const ServerAddr: Addr := Addr("localhost", 12000)

  /** `f"ACQUIRE {cell_id} {self.player_id}"`. */
  function ClickText(id: string, pid: int): string
  {
    "ACQUIRE " + id + " " + IntToString(pid)
  }

  // ---------------------------------------------------------------- process_snapshot

  /** One `|`-separated line of a snapshot payload: it must mention `CELL`
      and, stripped, split into at least three tokens; the second and third
      are the cell id and the owner. */
  function LineStep(line: string): (s: Step)
    ensures s.SetCell? ==> OnGrid(s.cell) && HasColour(s.owner)
    ensures s != Skip ==> Contains(line, "CELL") && |SplitWs(Strip(line))| >= 3
  {
    if Contains(line, "CELL") then
      var parts := SplitWs(Strip(line));
      if |parts| >= 3 then CellStep(parts[1], parts[2]) else Skip
    else Skip
  }

  /** One step per line, in order. */
  function LineSteps(lines: seq<string>): (steps: seq<Step>)
    ensures |steps| == |lines|
    ensures forall i :: 0 <= i < |lines| ==> steps[i] == LineStep(lines[i])
  {
    seq(|lines|, i requires 0 <= i < |lines| => LineStep(lines[i]))
  }

  /** The steps of a whole payload, one per `|`-separated line. */
  function PayloadSteps(payload: string): seq<Step>
  {
    LineSteps(SplitOn(payload, "|"))
  }

  /** `process_snapshot(snapshot_data)` on a view of the grid. */
  function ApplyPayload(owners: Owners, payload: string): Owners
  {
    ApplySteps(owners, PayloadSteps(payload))
  }

  // ---------------------------------------------------------------- state

  /** The client's fields, as one value; `pending` is the message queue's
      entries, which the UI thread has not processed yet. */
  datatype ClientState = ClientState(
    playerId: Option<int>,
    cellOwners: Owners,
    pending: seq<Queued>)

  /** The fields once `__init__` and the grid setup have run. */
  function Start(): ClientState
  {
    ClientState(None, InitialOwners(), [])
  }

  /** `connect_to_server`: a type-0 header with zero ids and no payload. */
  function InitPacket(now: Millis): Outgoing
  {
    Outgoing(ServerAddr, MakeHeader(GclpMagic, Code(Init), 0, 0, now, ""), "")
  }

  /** The DATA message of a click on cell `(r, c)` by player `pid`: zero ids. */
  function ClickPacket(pid: int, r: int, c: int, now: Millis): Outgoing
  {
    var text := ClickText(CellId(r, c), pid);
    Outgoing(ServerAddr, MakeHeader(GclpMagic, Code(Data), 0, 0, now, text), text)
  }

  /** `click_cell(row, col)`: nothing before the player id is known, and
      nothing when `struct.pack` raises; the state never changes. */
  function OnClick(st: ClientState, r: int, c: int, now: Millis): seq<Outgoing>
  {
    if st.playerId.None? then []
    else
      var o := ClickPacket(st.playerId.value, r, c, now);
      if Fits(o.header) then [o] else []
  }

  /** One pass of `network_loop`'s body: the connection reply sets the
      player id and is queued, a snapshot is queued whatever its id. A
      datagram too short for the header, a payload that is not UTF-8 or a
      reply that does not parse is caught, and only an error entry is
      queued. */
  function OnDatagram(st: ClientState, data: seq<byte>): (r: ClientState)
    ensures |data| < HeaderSize ==> r == st.(pending := st.pending + [Failed])
    ensures r.cellOwners == st.cellOwners
    ensures st.pending <= r.pending && |r.pending| <= |st.pending| + 1
  {
    match Unpack(data)
    case None => st.(pending := st.pending + [Failed])
    case Some(h) =>
      if h.msgType == Code(ConnAck) then
        match PayloadText(data, h)
        case None => st.(pending := st.pending + [Failed])
        case Some(p) =>
          match ParsePlayer(p)
          case None => st.(pending := st.pending + [Failed])
          case Some(pid) => st.(playerId := Some(pid), pending := st.pending + [Connected(pid)])
      else if h.msgType == Code(Snapshot) then
        match PayloadText(data, h)
        case None => st.(pending := st.pending + [Failed])
        case Some(p) => st.(pending := st.pending + [SnapshotText(p)])
      else st
  }

  /** One `update_ui` call: queued entries in order, up to and including the
      first that raises. */
  function OnUpdateUi(st: ClientState): ClientState
  {
    var r := UpdateUiPass(PayloadSteps, st.cellOwners, st.pending);
    st.(cellOwners := r.0, pending := r.1)
  }

  // ---------------------------------------------------------------- the client object

  class Client {
    var playerId: Option<int>
    var cellOwners: Owners
    var pending: seq<Queued>

    function Fields(): ClientState
      reads this
    {
      ClientState(playerId, cellOwners, pending)
    }

    constructor ()
      ensures Fields() == Start()
    {
      playerId := None;
      cellOwners := InitialOwners();
      pending := [];
    }

    /** One datagram taken off the socket by `network_loop`. */
    method Receive(data: seq<byte>)
      modifies this
      ensures Fields() == OnDatagram(old(Fields()), data)
    {
      if |data| < HeaderSize {
        pending := pending + [Failed];
        return;
      }
      var h := Unpack(data).value;
      if h.msgType == 2 {
        var text := PayloadText(data, h);
        if text.None? {
          pending := pending + [Failed];
          return;
        }
        var pid := ParsePlayer(text.value);
        if pid.None? {
          pending := pending + [Failed];
          return;
        }
        playerId := pid;
        pending := pending + [Connected(pid.value)];
      } else if h.msgType == 3 {
        var text := PayloadText(data, h);
        if text.None? {
          pending := pending + [Failed];
          return;
        }
        pending := pending + [SnapshotText(text.value)];
      }
    }

    /** `click_cell(row, col)`. */
    method Click(r: int, c: int, now: Millis) returns (out: seq<Outgoing>)
      ensures out == OnClick(Fields(), r, c, now)
      ensures playerId.None? ==> out == []
      ensures playerId.Some? && 0 <= playerId.value < 10 && 0 <= r < GridSize && 0 <= c < GridSize ==>
        |out| == 1 && out[0].to == ServerAddr
        && ParseAcquire(out[0].payload) == Some((CellId(r, c), playerId.value))
    {
      out := [];
      if playerId.None? {
        return;
      }
      var text := ClickText(CellId(r, c), playerId.value);
      var h := MakeHeader(GclpMagic, Code(Data), 0, 0, now, text);
      if Fits(h) {
        out := [Outgoing(ServerAddr, h, text)];
      }
      if 0 <= playerId.value < 10 && 0 <= r < GridSize && 0 <= c < GridSize {
        ClickFits(playerId.value, r, c, now);
        ClickRoundTrip(r, c, playerId.value);
      }
    }

    /** `process_snapshot(snapshot_data)`: the lines in order; an exception
        (an owner or a cell id that is not an integer, an owner without a
        colour) ends the payload, keeps what earlier lines stored and reaches
        the caller, here as `raised`. */
    method ProcessSnapshot(payload: string) returns (raised: bool)
      modifies this
      ensures raised <==> Abort in PayloadSteps(payload)
      ensures Fields() == old(Fields()).(cellOwners := ApplyPayload(old(cellOwners), payload))
    {
      var lines := SplitOn(payload, "|");
      ghost var steps := LineSteps(lines);
      ghost var target := ApplySteps(cellOwners, steps);
      var i := 0;
      while i < |lines|
        invariant 0 <= i <= |lines| == |steps|
        invariant ApplySteps(cellOwners, steps[i..]) == target
        invariant forall j :: 0 <= j < i ==> !steps[j].Abort?
        invariant Fields() == old(Fields()).(cellOwners := cellOwners)
      {
        ghost var step := steps[i];
        assert step == LineStep(lines[i]);
        ApplyFrom(cellOwners, steps, i);
        raised := ProcessLine(lines[i]);
        if raised {
          return;
        }
        i := i + 1;
      }
      raised := false;
    }

    /** The body of `process_snapshot`'s loop for one line; `aborted` when it
        raises. */
    method ProcessLine(line: string) returns (aborted: bool)
      modifies this
      ensures aborted <==> LineStep(line).Abort?
      ensures Fields() == old(Fields()).(cellOwners := StepOwners(old(cellOwners), LineStep(line)))
    {
      aborted := false;
      if Contains(line, "CELL") {
        var parts := SplitWs(Strip(line));
        if |parts| >= 3 {
          var owner := ParseInt(parts[2]);
          if owner.None? {
            return true;
          }
          var cell := ParseCellId(parts[1]);
          if cell.None? {
            return true;
          }
          if OnGrid(cell.value) {
            if !HasColour(owner.value) {
              return true;
            }
            cellOwners := cellOwners[cell.value := Some(owner.value)];
          }
        }
      }
    }

    /** `update_ui`: queued entries, oldest first, until the queue is empty
        or an entry raises; the `try` around the loop swallows the exception
        and leaves the rest queued. */
    method UpdateUi()
      modifies this
      ensures Fields() == OnUpdateUi(old(Fields()))
    {
      ghost var target := UpdateUiPass(PayloadSteps, cellOwners, pending);
      var raised := false;
      while pending != [] && !raised
        invariant !raised ==> UpdateUiPass(PayloadSteps, cellOwners, pending) == target
        invariant raised ==> (cellOwners, pending) == target
        invariant Fields() == old(Fields()).(cellOwners := cellOwners, pending := pending)
        decreases |pending|
      {
        var entry := pending[0];
        pending := pending[1..];
        match entry {
          case Connected(pid) =>
            raised := !HasColour(pid);
          case SnapshotText(payload) =>
            raised := ProcessSnapshot(payload);
          case Failed =>
        }
      }
    }
  }

  // ---------------------------------------------------------------- lemmas: click

  /** The server reads a click back as the acquisition of the clicked cell
      by the client's player. */
  lemma ClickRoundTrip(r: int, c: int, pid: int)
    ensures ParseAcquire(ClickText(CellId(r, c), pid)) == Some((CellId(r, c), pid))
  {
    var id, n := CellId(r, c), IntToString(pid);
    CellIdToken(r, c);
    assert "ACQUIRE " == "ACQUIRE" + " ";
    assert ClickText(id, pid) == "ACQUIRE" + " " + id + " " + n;
    JoinThree("ACQUIRE", id, n);
    assert ["ACQUIRE", id, n] + [] == ["ACQUIRE", id, n];
    AcquireRoundTrip(id, pid, []);
  }

  /** Three tokens joined by single spaces. */
  lemma JoinThree(a: string, b: string, c: string)
    ensures Join(" ", [a, b, c]) == a + " " + b + " " + c
  {
    assert [a, b, c] == [a] + [b, c] && [b, c] == [b] + [c];
    JoinCons(" ", a, [b, c]);
    JoinCons(" ", b, [c]);
  }

  /** A click on a grid cell by a one-digit player packs. */
  lemma ClickFits(pid: int, r: int, c: int, now: Millis)
    requires 0 <= pid < 10 && 0 <= r < GridSize && 0 <= c < GridSize
    ensures Fits(ClickPacket(pid, r, c, now).header)
  {
    var text := ClickText(CellId(r, c), pid);
    assert IntToString(r) == [DigitChar(r)] && IntToString(c) == [DigitChar(c)];
    assert IntToString(pid) == [DigitChar(pid)];
    assert |text| == 13;
    assert forall i :: 0 <= i < |text| ==> text[i] as int < 0x80;
    Utf8.EncodeAsciiLength(text);
    assert Pow256(1) == 0x100 && Pow256(2) == 0x1_0000;
    assert Pow256(4) == 0x1_0000_0000 && Pow256(8) == 0x1_0000_0000_0000_0000;
  }

  // ---------------------------------------------------------------- lemmas: full payloads

  /** A `CELL id owner` segment, with any whitespace around it, is read back
      as that entry's step. */
  lemma SegmentOfEntry(w1: string, id: string, owner: int, w2: string)
    requires AllSpace(w1) && AllSpace(w2) && id != [] && NoSpace(id)
    ensures LineStep(w1 + CellSegment(id, owner) + w2) == EntryStep(id, owner)
  {
    var n := IntToString(owner);
    var seg := CellSegment(id, owner);
    var line := w1 + seg + w2;
    SegmentHasCell(w1, id, n, w2);
    SegmentStrips(w1, id, owner, w2);
    IntToStringToken(owner);
    SegmentTokens(id, n);
    IntRoundTrip(owner);
    assert LineStep(line) == CellStep(id, n);
  }

  lemma SegmentHasCell(w1: string, id: string, n: string, w2: string)
    ensures Contains(w1 + ("CELL " + id + " " + n) + w2, "CELL")
  {
    assert w1 + ("CELL " + id + " " + n) + w2 == w1 + "CELL" + (" " + id + " " + n + w2);
    ContainsWithin(w1, "CELL", " " + id + " " + n + w2);
  }

  lemma SegmentStrips(w1: string, id: string, owner: int, w2: string)
    requires AllSpace(w1) && AllSpace(w2)
    ensures Strip(w1 + CellSegment(id, owner) + w2) == CellSegment(id, owner)
  {
    var n := IntToString(owner);
    var seg := CellSegment(id, owner);
    IntToStringToken(owner);
    assert seg[0] == 'C' && seg[|seg| - 1] == n[|n| - 1];
    StripPadded(w1, seg, w2);
  }

  lemma SegmentTokens(id: string, n: string)
    requires id != [] && NoSpace(id) && n != [] && NoSpace(n)
    ensures SplitWs("CELL " + id + " " + n) == ["CELL", id, n]
  {
    var toks := ["CELL", id, n];
    assert Join(" ", toks) == "CELL " + id + " " + n by {
      var tail := id + " " + n;
      assert toks[1..] == [id, n] && [id, n][1..] == [n];
      assert Join(" ", [id, n]) == tail;
      assert Join(" ", toks) == "CELL" + " " + tail;
    }
    forall i | 0 <= i < |toks| ensures toks[i] != [] && NoSpace(toks[i]) {
    }
    SplitWsJoinBare(toks);
  }

  /** A segment holds no bar when its id holds none. */
  lemma SegmentLacksBar(id: string, owner: int)
    requires Lacks(id, '|')
    ensures Lacks(CellSegment(id, owner), '|')
  {
    IntToStringLacks(owner, '|');
    assert Lacks("CELL ", '|') && Lacks(" ", '|');
    LacksConcat("CELL ", id, '|');
    LacksConcat("CELL " + id, " ", '|');
    LacksConcat("CELL " + id + " ", IntToString(owner), '|');
  }

  /** A non-empty grid's payload is read back, line by line, as the steps
      of its entries, in the server's order. */
  lemma PayloadStepsOfGrid(grid: Dict<string, int>)
    requires grid != [] && TokenIds(grid)
    ensures PayloadSteps(FullPayload(grid)) == EntrySteps(grid)
  {
    var segs := CellSegments(grid);
    var payload := FullPayload(grid);
    assert payload == Join(" | ", segs);
    forall i | 0 <= i < |segs| ensures Lacks(segs[i], '|') {
      SegmentLacksBar(grid[i].0, grid[i].1);
    }
    SplitJoinBar("", segs);
    assert "" + payload == payload;
    var lines := SplitOn(payload, "|");
    assert AllSpace("") && AllSpace(" ");
    forall i | 0 <= i < |lines| ensures LineStep(lines[i]) == EntryStep(grid[i].0, grid[i].1) {
      var w1: string := if i == 0 then "" else " ";
      var w2: string := if i + 1 < |segs| then " " else "";
      assert lines[i] == w1 + CellSegment(grid[i].0, grid[i].1) + w2;
      SegmentOfEntry(w1, grid[i].0, grid[i].1, w2);
    }
  }

  /** The empty payload of an empty grid changes nothing. */
  lemma EmptyPayloadKeeps(owners: Owners)
    ensures ApplyPayload(owners, []) == owners
  {
    SplitOnLacking([], '|');
    LacksNotContains([], "CELL");
    assert PayloadSteps([]) == [Skip];
  }

  /** Whatever the client's view, applying the payload the server wrote for
      its grid has the effect of applying the grid's entries in order. */
  lemma FullRoundTrip(owners: Owners, grid: Dict<string, int>)
    requires TokenIds(grid)
    ensures ApplyPayload(owners, FullPayload(grid)) == ApplySteps(owners, EntrySteps(grid))
  {
    if grid == [] {
      EmptyPayloadKeeps(owners);
    } else {
      PayloadStepsOfGrid(grid);
    }
  }

  /** A grid whose ids are all ids `CellId` writes and whose owners all have
      a colour: what the clients' clicks put there, for players 1..4. */
  predicate ClientGrid(grid: Dict<string, int>)
  {
    forall i :: 0 <= i < |grid| ==>
      && ParseCellId(grid[i].0).Some?
      && CellId(ParseCellId(grid[i].0).value.0, ParseCellId(grid[i].0).value.1) == grid[i].0
      && HasColour(grid[i].1)
  }

  /** The view shows every on-grid cell such a grid lists with the grid's
      owner. */
  ghost predicate ShowsGrid(view: Owners, grid: Dict<string, int>)
    requires ClientGrid(grid)
  {
    forall i :: 0 <= i < |grid| && OnGrid(ParseCellId(grid[i].0).value) ==>
      var p := ParseCellId(grid[i].0).value; p in view && view[p] == Some(grid[i].1)
  }

  /** After a full snapshot of such a grid, the client shows every on-grid
      cell the grid lists with the grid's owner, and every cell the grid
      does not list as it was. */
  lemma FullSnapshotSyncs(owners: Owners, grid: Dict<string, int>)
    requires KeysUnique(grid) && ClientGrid(grid)
    ensures ShowsGrid(ApplyPayload(owners, FullPayload(grid)), grid)
    ensures var view := ApplyPayload(owners, FullPayload(grid));
      forall p :: p in owners && p !in SetCells(EntrySteps(grid)) ==> p in view && view[p] == owners[p]
  {
    ClientGridTokens(grid);
    FullRoundTrip(owners, grid);
    var steps := EntrySteps(grid);
    forall j | 0 <= j < |steps| ensures !steps[j].Abort? {
    }
    forall i | 0 <= i < |grid| && OnGrid(ParseCellId(grid[i].0).value)
      ensures var p := ParseCellId(grid[i].0).value; p in ApplySteps(owners, steps) && ApplySteps(owners, steps)[p] == Some(grid[i].1)
    {
      forall j | i < j < |steps| && steps[j].SetCell? ensures steps[j].cell != steps[i].cell {
        assert grid[j].0 != grid[i].0;
      }
      LastSetWins(owners, steps, i);
    }
  }

  /** The ids `CellId` writes are tokens without a bar. */
  lemma ClientGridTokens(grid: Dict<string, int>)
    requires ClientGrid(grid)
    ensures TokenIds(grid)
  {
    forall i | 0 <= i < |grid| ensures grid[i].0 != [] && NoSpace(grid[i].0) && Lacks(grid[i].0, '|') {
      var p := ParseCellId(grid[i].0).value;
      CellIdToken(p.0, p.1);
      IntToStringLacks(p.0, '|');
      IntToStringLacks(p.1, '|');
      LacksConcat(IntToString(p.0), "_", '|');
    }
  }

  // ---------------------------------------------------------------- lemmas: receiving

  /** Every snapshot is queued, whatever its id, and nothing else changes;
      the view of the grid is not touched until the queue is drained. */
  lemma SnapshotQueued(st: ClientState, data: seq<byte>)
    requires Unpack(data).Some? && Unpack(data).value.msgType == Code(Snapshot)
    requires PayloadText(data, Unpack(data).value).Some?
    ensures OnDatagram(st, data) == st.(pending := st.pending + [SnapshotText(PayloadText(data, Unpack(data).value).value)])
  {
  }

  /** The payload of a grid the clients' clicks could have built raises on
      no line. */
  lemma ClientGridQuiet(grid: Dict<string, int>)
    requires ClientGrid(grid)
    ensures !Raises(PayloadSteps, SnapshotText(FullPayload(grid)))
  {
    if grid == [] {
      SplitOnLacking([], '|');
      LacksNotContains([], "CELL");
      assert PayloadSteps(FullPayload(grid)) == [Skip];
    } else {
      ClientGridTokens(grid);
      PayloadStepsOfGrid(grid);
      var steps := EntrySteps(grid);
      forall j | 0 <= j < |steps| ensures steps[j] != Abort {
      }
    }
  }

  // ---------------------------------------------------------------- lemmas: the two ends together

  /** The server registers the sender of `connect_to_server`'s datagram. */
  lemma ServerReadsInit(sst: State, from: Addr, now: Millis, now': Millis)
    ensures Fits(InitPacket(now).header)
    ensures Handle(sst, from, Datagram(InitPacket(now)), now') == OnInit(sst, from, now')
  {
    assert Pow256(1) == 0x100 && Pow256(2) == 0x1_0000;
    assert Pow256(4) == 0x1_0000_0000 && Pow256(8) == 0x1_0000_0000_0000_0000;
    assert Utf8.Encode("") == [];
    DatagramRoundTrip(InitPacket(now));
  }

  /** The client takes the player id from the server's connection reply. */
  lemma ClientReadsReply(st: ClientState, server: Addr, pid: int, now: Millis)
    requires 1 <= pid <= 4
    ensures Fits(ConnReply(server, pid, now).header)
    ensures OnDatagram(st, Datagram(ConnReply(server, pid, now)))
      == st.(playerId := Some(pid), pending := st.pending + [Connected(pid)])
  {
    PlayerTextLength(pid);
    PlayerRoundTrip(pid);
    assert Pow256(1) == 0x100 && Pow256(2) == 0x1_0000;
    assert Pow256(4) == 0x1_0000_0000 && Pow256(8) == 0x1_0000_0000_0000_0000;
    var o := ConnReply(server, pid, now);
    DatagramRoundTrip(o);
    DecodedDatagram(st, Datagram(o), o.header, o.payload);
  }

  /** What the listener does with a datagram whose header and payload
      decode. */
  lemma DecodedDatagram(st: ClientState, data: seq<byte>, h: Header, p: string)
    requires Unpack(data) == Some(h) && PayloadText(data, h) == Some(p)
    ensures h.msgType == Code(ConnAck) && ParsePlayer(p).Some? ==>
      OnDatagram(st, data) == st.(playerId := ParsePlayer(p), pending := st.pending + [Connected(ParsePlayer(p).value)])
    ensures h.msgType == Code(ConnAck) && ParsePlayer(p).None? ==> OnDatagram(st, data) == st.(pending := st.pending + [Failed])
    ensures h.msgType == Code(Snapshot) ==> OnDatagram(st, data) == st.(pending := st.pending + [SnapshotText(p)])
  {
  }

  /** A click that packs gives the clicked cell to the client's player on
      the server, moves the snapshot id by one and broadcasts the new grid. */
  lemma ServerReadsClick(sst: State, from: Addr, pid: int, r: int, c: int, now: Millis, now': Millis)
    requires Fits(ClickPacket(pid, r, c, now).header)
    ensures Handle(sst, from, Datagram(ClickPacket(pid, r, c, now)), now')
      == Broadcast(sst.(grid := Put(sst.grid, CellId(r, c), pid)), now')
  {
    DatagramRoundTrip(ClickPacket(pid, r, c, now));
    ClickRoundTrip(r, c, pid);
  }

  /** A snapshot the server sends is queued by the client. Calling
      `update_ui` until the queue is empty then shows the server's grid,
      every listed on-grid cell with its owner, on top of whatever the
      earlier entries did; when none of them raises, one call does it all. */
  lemma ClientTakesSnapshot(sst: State, c: (Addr, Session), o: Outgoing, st: ClientState)
    requires IsSnapshotOf(sst, c, o) && KeysUnique(sst.grid) && ClientGrid(sst.grid)
    ensures var st' := OnDatagram(st, Datagram(o));
      var view := Drained(PayloadSteps, st.cellOwners, st'.pending);
      && st' == st.(pending := st.pending + [SnapshotText(o.payload)])
      && view == ApplyPayload(HandleAll(PayloadSteps, st.cellOwners, st.pending), FullPayload(sst.grid))
      && ShowsGrid(view, sst.grid)
      && ((forall i :: 0 <= i < |st.pending| ==> !Raises(PayloadSteps, st.pending[i])) ==>
            OnUpdateUi(st') == st.(cellOwners := view, pending := []))
  {
    SnapshotDatagram(st, o);
    var q := st.pending + [SnapshotText(o.payload)];
    var before := HandleAll(PayloadSteps, st.cellOwners, st.pending);
    DrainedHandlesAll(PayloadSteps, st.cellOwners, q);
    HandleConcat(PayloadSteps, st.cellOwners, st.pending, [SnapshotText(o.payload)]);
    assert [SnapshotText(o.payload)][1..] == [];
    FullSnapshotSyncs(before, sst.grid);
    if forall i :: 0 <= i < |st.pending| ==> !Raises(PayloadSteps, st.pending[i]) {
      ClientGridQuiet(sst.grid);
      QuietPass(PayloadSteps, st.cellOwners, q);
    }
  }

  /** A type-3 datagram a sender builds is queued as its payload. */
  lemma SnapshotDatagram(st: ClientState, o: Outgoing)
    requires Fits(o.header) && o.header.magic == GclpMagic && o.header.msgType == Code(Snapshot)
    requires o.header.payloadLen == |Utf8.Encode(o.payload)|
    ensures OnDatagram(st, Datagram(o)) == st.(pending := st.pending + [SnapshotText(o.payload)])
  {
    DatagramRoundTrip(o);
    DecodedDatagram(st, Datagram(o), o.header, o.payload);
  }
}
