/** The delta-snapshot client (client_Decode.py): it registers, sends cell
    acquisitions carrying its snapshot cursor, drops snapshots older than the
    newest one it has seen, acknowledges each snapshot it keeps, and applies
    the queued delta payloads to its view of the grid. */
module DeltaClient {
  import opened Common
  import opened PyText
  import opened OrderedDict
  import opened Wire
  import opened Gclp
  import opened DeltaServer
  import opened UiQueue

  /** `(serverName, serverPort)`. */
  const ServerAddr: Addr := Addr("localhost", 12000)

  // ---------------------------------------------------------------- payload texts

  /** `f"ACK {snapshot_id}"`, the type-4 payload. */
  function AckText(k: int): string
  {
    "ACK " + IntToString(k)
  }

  /** `f"ACQUIRE {cell_id} {player_id} ACK_SNAP:{last_acknowledged_snapshot}"`. */
  function ClickText(id: string, pid: int, k: int): string
  {
    "ACQUIRE " + id + " " + IntToString(pid) + " ACK_SNAP:" + IntToString(k)
  }

  // ---------------------------------------------------------------- process_snapshot

  /** One `|`-separated line of a snapshot payload: stripped, it must mention
      both `DELTA` and `CELL` and split into at least four tokens, and then
      the third and fourth tokens are the cell id and the owner. */
  function SegmentStep(line: string): (s: Step)
    ensures s.SetCell? ==> OnGrid(s.cell) && HasColour(s.owner)
    ensures s != Skip ==> var l := Strip(line);
      Contains(l, "DELTA") && Contains(l, "CELL") && |SplitWs(l)| >= 4
  {
    var l := Strip(line);
    if Contains(l, "DELTA") && Contains(l, "CELL") then
      var parts := SplitWs(l);
      if |parts| >= 4 then CellStep(parts[2], parts[3]) else Skip
    else Skip
  }

  /** The steps of a whole payload: none for a blank one, otherwise one per
      line. */
  function DeltaSteps(payload: string): (steps: seq<Step>)
  {
    if Strip(payload) == [] then [] else LineSteps(SplitOn(payload, "|"))
  }

  /** One step per line, in order. */
  function LineSteps(lines: seq<string>): (steps: seq<Step>)
    ensures |steps| == |lines|
    ensures forall i :: 0 <= i < |lines| ==> steps[i] == SegmentStep(lines[i])
  {
    seq(|lines|, i requires 0 <= i < |lines| => SegmentStep(lines[i]))
  }

  /** `process_snapshot(snapshot_data)` on a view of the grid. */
  function ApplyPayload(owners: Owners, payload: string): Owners
  {
    ApplySteps(owners, DeltaSteps(payload))
  }

  // ---------------------------------------------------------------- state

  /** The client's fields, as one value; `pending` is the message queue's
      entries, which the UI thread has not processed yet. */
  datatype ClientState = ClientState(
    playerId: Option<int>,
    cellOwners: Owners,
    lastAck: int,
    current: int,
    seqNo: int,
    pending: seq<Queued>)

  /** The fields once `__init__` and the grid setup have run. */
  function Start(): ClientState
  {
    ClientState(None, InitialOwners(), 0, 0, 0, [])
  }

  /** `connect_to_server`: a type-0 header with zero ids and no payload. */
  function InitPacket(now: Millis): Outgoing
  {
    Outgoing(ServerAddr, MakeHeader(GclpMagic, Code(Init), 0, 0, now, ""), "")
  }

  /** The type-4 acknowledgement of snapshot `k`, sent with sequence number `n`. */
  function AckPacket(k: int, n: int, now: Millis): Outgoing
  {
    Outgoing(ServerAddr, MakeHeader(GclpMagic, Code(SnapAck), k, n, now, AckText(k)), AckText(k))
  }

  /** `send_ack`: the counter moves first, so it moves even when `struct.pack`
      raises and nothing is sent. */
  function SendAck(st: ClientState, k: int, now: Millis): (ClientState, seq<Outgoing>)
  {
    var o := AckPacket(k, st.seqNo + 1, now);
    (st.(seqNo := st.seqNo + 1), if Fits(o.header) then [o] else [])
  }

  /** One pass of `network_loop`'s body. A datagram too short for the
      header, a payload that is not UTF-8 or a connection reply that does not
      parse is caught, and only an error entry is queued. */
  function OnDatagram(st: ClientState, data: seq<byte>, now: Millis): (r: (ClientState, seq<Outgoing>))
    ensures |data| < HeaderSize ==> r == (st.(pending := st.pending + [Failed]), [])
    ensures r.0.current >= st.current && r.0.cellOwners == st.cellOwners
    ensures st.pending <= r.0.pending && |r.0.pending| <= |st.pending| + 1
    ensures |r.1| <= 1 && forall i :: 0 <= i < |r.1| ==> r.1[i].header.msgType == Code(SnapAck)
  {
    match Unpack(data)
    case None => (st.(pending := st.pending + [Failed]), [])
    case Some(h) =>
      if h.msgType == Code(ConnAck) then
        match PayloadText(data, h)
        case None => (st.(pending := st.pending + [Failed]), [])
        case Some(p) =>
          match ParsePlayer(p)
          case None => (st.(pending := st.pending + [Failed]), [])
          case Some(pid) => (st.(playerId := Some(pid), pending := st.pending + [Connected(pid)]), [])
      else if h.msgType == Code(Snapshot) then
        if h.snapshotId < st.current then (st, [])
        else
          match PayloadText(data, h)
          case None => (st.(pending := st.pending + [Failed]), [])
          case Some(p) =>
            SendAck(st.(current := h.snapshotId, pending := st.pending + [SnapshotText(p)], lastAck := h.snapshotId), h.snapshotId, now)
      else (st, [])
  }

  /** The DATA message of a click on cell `(r, c)`. */
  function ClickPacket(st: ClientState, r: int, c: int, now: Millis): Outgoing
    requires st.playerId.Some?
  {
    var text := ClickText(CellId(r, c), st.playerId.value, st.lastAck);
    Outgoing(ServerAddr, MakeHeader(GclpMagic, Code(Data), st.lastAck, st.seqNo + 1, now, text), text)
  }

  /** `click_cell(row, col)`: nothing before the player id is known; then the
      counter moves and the acquisition is sent when its header packs. */
  function OnClick(st: ClientState, r: int, c: int, now: Millis): (ClientState, seq<Outgoing>)
  {
    if st.playerId.None? then (st, [])
    else
      var o := ClickPacket(st, r, c, now);
      (st.(seqNo := st.seqNo + 1), if Fits(o.header) then [o] else [])
  }

  /** One `update_ui` call: queued entries in order, up to and including the
      first that raises. */
  function OnUpdateUi(st: ClientState): ClientState
  {
    var r := UpdateUiPass(DeltaSteps, st.cellOwners, st.pending);
    st.(cellOwners := r.0, pending := r.1)
  }

  // ---------------------------------------------------------------- the client object

  class Client {
    var playerId: Option<int>
    var cellOwners: Owners
    var lastAcknowledgedSnapshot: int
    var currentSnapshotId: int
    var sequenceNumber: int
    var pending: seq<Queued>

    function Fields(): ClientState
      reads this
    {
      ClientState(playerId, cellOwners, lastAcknowledgedSnapshot, currentSnapshotId, sequenceNumber, pending)
    }

    constructor ()
      ensures Fields() == Start()
    {
      playerId := None;
      cellOwners := InitialOwners();
      lastAcknowledgedSnapshot := 0;
      currentSnapshotId := 0;
      sequenceNumber := 0;
      pending := [];
    }

    /** `send_ack(snapshot_id)`. */
    method SendSnapshotAck(k: int, now: Millis) returns (out: seq<Outgoing>)
      modifies this
      ensures (Fields(), out) == SendAck(old(Fields()), k, now)
    {
      sequenceNumber := sequenceNumber + 1;
      var o := AckPacket(k, sequenceNumber, now);
      out := [];
      if Fits(o.header) {
        out := [o];
      }
    }

    /** One datagram taken off the socket by `network_loop`. */
    method Receive(data: seq<byte>, now: Millis) returns (out: seq<Outgoing>)
      modifies this
      ensures (Fields(), out) == OnDatagram(old(Fields()), data, now)
    {
      out := [];
      var u := Unpack(data);
      if u.None? {
        pending := pending + [Failed];
        return;
      }
      var h := u.value;
      if h.msgType == Code(ConnAck) {
        var text := PayloadText(data, h);
        var pid := if text.Some? then ParsePlayer(text.value) else None;
        if pid.Some? {
          playerId := pid;
          pending := pending + [Connected(pid.value)];
        } else {
          pending := pending + [Failed];
        }
      } else if h.msgType == Code(Snapshot) && h.snapshotId >= currentSnapshotId {
        var text := PayloadText(data, h);
        if text.None? {
          pending := pending + [Failed];
          return;
        }
        currentSnapshotId := h.snapshotId;
        pending := pending + [SnapshotText(text.value)];
        lastAcknowledgedSnapshot := h.snapshotId;
        out := SendSnapshotAck(h.snapshotId, now);
      }
    }

    /** `click_cell(row, col)`. */
    method Click(r: int, c: int, now: Millis) returns (out: seq<Outgoing>)
      modifies this
      ensures (Fields(), out) == OnClick(old(Fields()), r, c, now)
    {
      out := [];
      if playerId.None? {
        return;
      }
      var id := CellId(r, c);
      sequenceNumber := sequenceNumber + 1;
      var text := ClickText(id, playerId.value, lastAcknowledgedSnapshot);
      var h := MakeHeader(GclpMagic, Code(Data), lastAcknowledgedSnapshot, sequenceNumber, now, text);
      if Fits(h) {
        out := [Outgoing(ServerAddr, h, text)];
      }
    }

    /** `process_snapshot(snapshot_data)`: the lines in order; an exception
        (an owner or a cell id that is not an integer, an owner without a
        colour) ends the payload, keeps what earlier lines stored and reaches
        the caller, here as `raised`. */
    method ProcessSnapshot(payload: string) returns (raised: bool)
      modifies this
      ensures raised <==> Abort in DeltaSteps(payload)
      ensures Fields() == old(Fields()).(cellOwners := ApplyPayload(old(cellOwners), payload))
    {
      if Strip(payload) == [] {
        return false;
      }
      raised := ApplyLines(SplitOn(payload, "|"));
    }

    /** `process_snapshot`'s loop over the lines of a non-blank payload;
        `raised` when a line raises. */
    method ApplyLines(lines: seq<string>) returns (raised: bool)
      modifies this
      ensures raised <==> Abort in LineSteps(lines)
      ensures Fields() == old(Fields()).(cellOwners := ApplySteps(old(cellOwners), LineSteps(lines)))
    {
      ghost var steps := LineSteps(lines);
      ghost var target := ApplySteps(cellOwners, steps);
      var i := 0;
      while i < |lines|
        invariant 0 <= i <= |lines| == |steps|
        invariant ApplySteps(cellOwners, steps[i..]) == target
        invariant forall j :: 0 <= j < i ==> !steps[j].Abort?
        invariant Fields() == old(Fields()).(cellOwners := cellOwners)
      {
        ghost var step := steps[i];
        assert step == SegmentStep(lines[i]);
        ApplyFrom(cellOwners, steps, i);
        raised := ProcessLine(lines[i]);
        if raised {
          return;
        }
        i := i + 1;
      }
      raised := false;
    }

    /** The body of `process_snapshot`'s loop for one line; `aborted` when it
        raises. */
    method ProcessLine(line: string) returns (aborted: bool)
      modifies this
      ensures aborted <==> SegmentStep(line).Abort?
      ensures Fields() == old(Fields()).(cellOwners := StepOwners(old(cellOwners), SegmentStep(line)))
    {
      aborted := false;
      var l := Strip(line);
      if Contains(l, "DELTA") && Contains(l, "CELL") {
        var parts := SplitWs(l);
        if |parts| >= 4 {
          var owner := ParseInt(parts[3]);
          if owner.None? {
            return true;
          }
          var cell := ParseCellId(parts[2]);
          if cell.None? {
            return true;
          }
          if OnGrid(cell.value) {
            if !HasColour(owner.value) {
              return true;
            }
            cellOwners := cellOwners[cell.value := Some(owner.value)];
          }
        }
      }
    }

    /** `update_ui`: queued entries, oldest first, until the queue is empty
        or an entry raises; the `try` around the loop swallows the exception
        and leaves the rest queued. */
    method UpdateUi()
      modifies this
      ensures Fields() == OnUpdateUi(old(Fields()))
    {
      ghost var target := UpdateUiPass(DeltaSteps, cellOwners, pending);
      var raised := false;
      while pending != [] && !raised
        invariant !raised ==> UpdateUiPass(DeltaSteps, cellOwners, pending) == target
        invariant raised ==> (cellOwners, pending) == target
        invariant Fields() == old(Fields()).(cellOwners := cellOwners, pending := pending)
        decreases |pending|
      {
        var entry := pending[0];
        pending := pending[1..];
        match entry {
          case Connected(pid) =>
            raised := !HasColour(pid);
          case SnapshotText(payload) =>
            raised := ProcessSnapshot(payload);
          case Failed =>
        }
      }
    }
  }

  // ---------------------------------------------------------------- lemmas

  // ---------------------------------------------------------------- lemmas: payload texts

  /** The server reads back the snapshot id a client acknowledges. */
  lemma AckRoundTrip(k: int)
    ensures ParseSnapAck(AckText(k)) == Some(k)
  {
    var n := IntToString(k);
    StartsContains("ACK", " " + n);
    assert AckText(k) == "ACK" + " " + n;
    assert Join(" ", ["ACK", n]) == "ACK" + " " + n;
    IntToStringToken(k);
    assert NoSpace("ACK");
    assert forall i :: 0 <= i < 2 ==> ["ACK", n][i] != [] && NoSpace(["ACK", n][i]);
    SplitWsJoinBare(["ACK", n]);
    IntRoundTrip(k);
  }

  /** The server reads a click back as the client's cursor and the
      acquisition of the clicked cell by the client's player. */
  lemma ClickRoundTrip(r: int, c: int, pid: int, k: int)
    ensures ParseData(ClickText(CellId(r, c), pid, k)) == DataEffect(Some(k), Some((CellId(r, c), pid)))
  {
    var id := CellId(r, c);
    var text := ClickText(id, pid, k);
    CellIdToken(r, c);
    ClickCursor(id, pid, k);
    IntRoundTrip(k);
    assert ParseInt(SplitOn(text, "ACK_SNAP:")[1]) == Some(k);
    ClickTokens(id, pid, k);
    var tag := TagToken(k);
    AcquireRoundTrip(id, pid, [tag]);
    assert ParseAcquire(text) == Some((id, pid));
  }

  /** A click before the player id is known does nothing. Afterwards the
      counter moves by one, and exactly when the header packs one DATA
      message goes to the server; it carries the cursor both in its
      snapshot field and in a payload the server reads back as that cursor
      and the acquisition of the clicked cell by the client's player. */
  lemma ClickSends(st: ClientState, r: int, c: int, now: Millis)
    ensures var (st', out) := OnClick(st, r, c, now);
      && (st.playerId.None? ==> st' == st && out == [])
      && (st.playerId.Some? ==>
            && st' == st.(seqNo := st.seqNo + 1)
            && (|out| == 1 <==> Fits(ClickPacket(st, r, c, now).header)) && |out| <= 1
            && forall o :: o in out ==>
                 && o.to == ServerAddr && o.header.msgType == Code(Data)
                 && o.header.snapshotId == st.lastAck && o.header.seqNo == st.seqNo + 1
                 && ParseData(o.payload) == DataEffect(Some(st.lastAck), Some((CellId(r, c), st.playerId.value))))
  {
    if st.playerId.Some? {
      ClickRoundTrip(r, c, st.playerId.value, st.lastAck);
    }
  }

  /** The cursor part of a click is one token. */
  lemma TagToken(k: int) returns (tag: string)
    ensures tag == "ACK_SNAP:" + IntToString(k)
    ensures tag != [] && NoSpace(tag)
  {
    tag := "ACK_SNAP:" + IntToString(k);
    IntToStringToken(k);
    assert forall i :: 0 <= i < 9 ==> tag[i] == "ACK_SNAP:"[i];
    assert forall i :: 9 <= i < |tag| ==> tag[i] == IntToString(k)[i - 9];
  }

  /** The text after `ACK_SNAP:` in a click is exactly the cursor. */
  lemma ClickCursor(id: string, pid: int, k: int)
    requires Lacks(id, ':')
    ensures Contains(ClickText(id, pid, k), "ACK_SNAP:")
    ensures SplitOn(ClickText(id, pid, k), "ACK_SNAP:") == ["ACQUIRE " + id + " " + IntToString(pid) + " ", IntToString(k)]
  {
    var x := "ACQUIRE " + id + " " + IntToString(pid) + " ";
    IntToStringLacks(pid, ':');
    IntToStringLacks(k, ':');
    assert Lacks("ACQUIRE ", ':') && Lacks(" ", ':');
    LacksConcat("ACQUIRE ", id, ':');
    LacksConcat("ACQUIRE " + id, " ", ':');
    LacksConcat("ACQUIRE " + id + " ", IntToString(pid), ':');
    LacksConcat("ACQUIRE " + id + " " + IntToString(pid), " ", ':');
    assert ClickText(id, pid, k) == x + "ACK_SNAP:" + IntToString(k);
    SplitOnUnique(x, "ACK_SNAP:", IntToString(k), 8);
  }

  /** A click is its four tokens joined by single spaces. */
  lemma ClickTokens(id: string, pid: int, k: int)
    ensures ClickText(id, pid, k) == Join(" ", ["ACQUIRE", id, IntToString(pid)] + ["ACK_SNAP:" + IntToString(k)])
  {
    var a, b, c, t := "ACQUIRE", id, IntToString(pid), IntToString(k);
    var d := "ACK_SNAP:" + t;
    assert [a, b, c] + [d] == [a, b, c, d];
    JoinFour(a, b, c, d);
    assert " ACK_SNAP:" == " " + "ACK_SNAP:";
    assert ClickText(id, pid, k) == (a + " " + b + " " + c) + (" ACK_SNAP:" + t);
    assert " ACK_SNAP:" + t == " " + d;
  }

  // ---------------------------------------------------------------- lemmas: delta payloads

  /** A `DELTA CELL id owner` segment, with any whitespace around it, is read
      back as that entry's step. */
  lemma SegmentOfEntry(w1: string, id: string, owner: int, w2: string)
    requires AllSpace(w1) && AllSpace(w2) && id != [] && NoSpace(id)
    ensures SegmentStep(w1 + DeltaSegment(id, owner) + w2) == EntryStep(id, owner)
  {
    var n := IntToString(owner);
    var seg := DeltaSegment(id, owner);
    IntToStringToken(owner);
    assert seg[0] == 'D' && seg[|seg| - 1] == n[|n| - 1];
    StripPadded(w1, seg, w2);
    SegmentKeywords(id, n);
    SegmentTokens(id, n);
    IntRoundTrip(owner);
  }

  lemma SegmentKeywords(id: string, n: string)
    ensures Contains("DELTA CELL " + id + " " + n, "DELTA")
    ensures Contains("DELTA CELL " + id + " " + n, "CELL")
  {
    var tail := " " + id + " " + n;
    assert "DELTA CELL " + id + " " + n == "DELTA" + (" CELL" + tail);
    StartsContains("DELTA", " CELL" + tail);
    assert "DELTA CELL " + id + " " + n == "DELTA " + "CELL" + tail;
    ContainsWithin("DELTA ", "CELL", tail);
  }

  lemma SegmentTokens(id: string, n: string)
    requires id != [] && NoSpace(id) && n != [] && NoSpace(n)
    ensures SplitWs("DELTA CELL " + id + " " + n) == ["DELTA", "CELL", id, n]
  {
    assert "DELTA CELL " + id + " " + n == "DELTA" + " " + "CELL" + " " + id + " " + n;
    assert NoSpace("DELTA") && NoSpace("CELL");
    FourTokens("DELTA", "CELL", id, n);
  }

  /** Four tokens joined by single spaces split back into themselves. */
  lemma FourTokens(a: string, b: string, c: string, d: string)
    requires a != [] && NoSpace(a) && b != [] && NoSpace(b)
    requires c != [] && NoSpace(c) && d != [] && NoSpace(d)
    ensures SplitWs(a + " " + b + " " + c + " " + d) == [a, b, c, d]
  {
    JoinFour(a, b, c, d);
    assert [a, b] + [c, d] == [a, b, c, d];
    TokensSplit([a, b], [c, d]);
  }

  lemma JoinFour(a: string, b: string, c: string, d: string)
    ensures Join(" ", [a, b, c, d]) == a + " " + b + " " + c + " " + d
  {
    assert [a, b, c, d] == [a] + [b, c, d] && [b, c, d] == [b] + [c, d] && [c, d] == [c] + [d];
    JoinCons(" ", a, [b, c, d]);
    JoinCons(" ", b, [c, d]);
    JoinCons(" ", c, [d]);
  }

  /** A segment holds no bar when its id holds none. */
  lemma SegmentLacksBar(id: string, owner: int)
    requires Lacks(id, '|')
    ensures Lacks(DeltaSegment(id, owner), '|')
  {
    IntToStringLacks(owner, '|');
    assert Lacks("DELTA CELL ", '|') && Lacks(" ", '|');
    LacksConcat("DELTA CELL ", id, '|');
    LacksConcat("DELTA CELL " + id, " ", '|');
    LacksConcat("DELTA CELL " + id + " ", IntToString(owner), '|');
  }

  /** A non-empty delta is read back, line by line, as the steps of its
      entries, in the server's order. */
  lemma DeltaStepsOfPayload(d: Dict<string, int>)
    requires d != [] && TokenIds(d)
    ensures DeltaSteps(DeltaPayload(d)) == EntrySteps(d)
  {
    var segs := DeltaSegments(d);
    var payload := DeltaPayload(d);
    assert payload == Join(" | ", segs);
    assert payload[..6] == segs[0][..6];
    assert payload[0] == segs[0][0] == 'D';
    StripNonBlank(payload);
    forall i | 0 <= i < |segs| ensures Lacks(segs[i], '|') {
      SegmentLacksBar(d[i].0, d[i].1);
    }
    SplitJoinBar("", segs);
    assert "" + payload == payload;
    LinesAreEntries(d, SplitOn(payload, "|"));
  }

  /** The pieces of a delta payload cut at `|` are the delta's segments
      with the separator's spaces around them, and each reads back as its
      entry. */
  lemma LinesAreEntries(d: Dict<string, int>, lines: seq<string>)
    requires TokenIds(d) && |lines| == |d|
    requires forall i :: 0 <= i < |d| ==>
      lines[i] == (if i == 0 then "" else " ") + DeltaSegment(d[i].0, d[i].1) + (if i + 1 < |d| then " " else "")
    ensures LineSteps(lines) == EntrySteps(d)
  {
    assert AllSpace("") && AllSpace(" ");
    forall i | 0 <= i < |lines| ensures SegmentStep(lines[i]) == EntryStep(d[i].0, d[i].1) {
      var w1: string := if i == 0 then "" else " ";
      var w2: string := if i + 1 < |d| then " " else "";
      SegmentOfEntry(w1, d[i].0, d[i].1, w2);
    }
  }

  /** `NO_CHANGES` changes no cell. */
  lemma NoChangesKeeps(owners: Owners, text: string)
    requires text == DeltaPayload([])
    ensures ApplyPayload(owners, text) == owners
  {
    NoChangesShape(text);
    SkipLine(text);
    assert ApplySteps(owners, [Skip]) == owners;
  }

  lemma NoChangesShape(text: string)
    requires text == DeltaPayload([])
    ensures text != [] && !IsSpace(text[0]) && !IsSpace(text[|text| - 1])
    ensures Lacks(text, '|') && Lacks(text, 'D')
  {
    assert text == "NO_CHANGES";
  }

  /** A one-line payload without `D` (so without `DELTA`) is one step that
      changes nothing. */
  lemma SkipLine(line: string)
    requires line != [] && !IsSpace(line[0]) && !IsSpace(line[|line| - 1])
    requires Lacks(line, '|') && Lacks(line, 'D')
    ensures DeltaSteps(line) == [Skip]
  {
    StripNonBlank(line);
    SplitOnLacking(line, '|');
    StripPadded("", line, "");
    assert "" + line + "" == line;
    LacksNotContains(line, "DELTA");
    assert SegmentStep(line) == Skip;
  }

  /** Whatever the client's view, applying the payload the server wrote for a
      delta has the effect of applying the delta's entries in order. */
  lemma DeltaRoundTrip(owners: Owners, d: Dict<string, int>)
    requires TokenIds(d)
    ensures ApplyPayload(owners, DeltaPayload(d)) == ApplySteps(owners, EntrySteps(d))
  {
    if d == [] {
      NoChangesKeeps(owners, DeltaPayload(d));
    } else {
      DeltaStepsOfPayload(d);
    }
  }

  // ---------------------------------------------------------------- lemmas: receiving

  /** A snapshot older than the newest one kept is dropped: no state change
      and no acknowledgement. */
  lemma StaleDropped(st: ClientState, data: seq<byte>, now: Millis)
    requires Unpack(data).Some? && Unpack(data).value.msgType == Code(Snapshot)
    requires Unpack(data).value.snapshotId < st.current
    ensures OnDatagram(st, data, now) == (st, [])
  {
  }

  /** A snapshot that is not older is queued, becomes both the newest and the
      acknowledged snapshot, and is answered with one `ACK` the server reads
      back as its id (unless the sequence number no longer fits the header);
      the view of the grid is not touched until the queue is drained. */
  lemma SnapshotAccepted(st: ClientState, data: seq<byte>, now: Millis)
    requires Unpack(data).Some? && Unpack(data).value.msgType == Code(Snapshot)
    requires Unpack(data).value.snapshotId >= st.current
    requires |data| >= HeaderSize && PayloadText(data, Unpack(data).value).Some?
    ensures var h := Unpack(data).value;
      var (st', out) := OnDatagram(st, data, now);
      && st'.current == st'.lastAck == h.snapshotId
      && st'.pending == st.pending + [SnapshotText(PayloadText(data, h).value)]
      && st'.seqNo == st.seqNo + 1
      && st'.cellOwners == st.cellOwners && st'.playerId == st.playerId
      && |out| <= 1
      && (0 <= st.seqNo + 1 < 0x1_0000_0000 ==> |out| == 1)
      && (forall o :: o in out ==>
            && o.to == ServerAddr && o.header.msgType == Code(SnapAck)
            && o.header.snapshotId == h.snapshotId && o.header.seqNo == st.seqNo + 1
            && ParseSnapAck(o.payload) == Some(h.snapshotId))
  {
    var h := Unpack(data).value;
    PackUnpack(data);
    AckRoundTrip(h.snapshotId);
    if 0 <= st.seqNo + 1 < 0x1_0000_0000 {
      AckFits(h.snapshotId, st.seqNo + 1, now);
    }
  }

  /** The acknowledgement of a snapshot id the header carried packs whenever
      its sequence number fits. */
  lemma AckFits(k: int, n: int, now: Millis)
    requires 0 <= k < 0x1_0000_0000 && 0 <= n < 0x1_0000_0000
    ensures Fits(AckPacket(k, n, now).header)
  {
    var text := AckText(k);
    NatDigits(k, 10);
    IntToStringToken(k);
    assert forall i :: 0 <= i < |text| ==> text[i] as int < 0x80 by {
      assert forall i :: 4 <= i < |text| ==> text[i] == IntToString(k)[i - 4];
    }
    Utf8.EncodeAsciiLength(text);
    assert Pow256(1) == 0x100 && Pow256(2) == 0x1_0000;
    assert Pow256(4) == 0x1_0000_0000 && Pow256(8) == 0x1_0000_0000_0000_0000;
  }

  /** Numbers below `10^k` have at most `k` decimal digits. */
  lemma {:induction false} NatDigits(n: nat, k: nat)
    requires 1 <= k && n < Pow10(k)
    ensures |NatToString(n)| <= k
  {
    if n >= 10 {
      var p := Pow10(k - 1);
      assert n < 10 * p;
      assert n == 10 * (n / 10) + n % 10;
      NatDigits(n / 10, k - 1);
    }
  }

  function Pow10(k: nat): nat
  {
    if k == 0 then 1 else 10 * Pow10(k - 1)
  }

  /** Receiving never moves the newest snapshot id backwards, never shrinks
      the queue and never touches the view of the grid. */
  lemma ReceiveMonotone(st: ClientState, data: seq<byte>, now: Millis)
    ensures var st' := OnDatagram(st, data, now).0;
      && st'.current >= st.current
      && |st'.pending| >= |st.pending| && st'.pending[..|st.pending|] == st.pending
      && st'.cellOwners == st.cellOwners
  {
  }

  // ---------------------------------------------------------------- lemmas: the two ends together

  /** The server registers the sender of `connect_to_server`'s datagram. */
  lemma ServerReadsInit(sst: State, from: Addr, now: Millis, now': Millis)
    ensures Fits(InitPacket(now).header)
    ensures Handle(sst, from, Datagram(InitPacket(now)), now') == OnInit(sst, from, now')
  {
    var o := InitPacket(now);
    assert Pow256(1) == 0x100 && Pow256(2) == 0x1_0000;
    assert Pow256(4) == 0x1_0000_0000 && Pow256(8) == 0x1_0000_0000_0000_0000;
    assert Utf8.Encode("") == [];
    DatagramRoundTrip(o);
  }

  /** The client takes the player id from the server's connection reply. */
  lemma ClientReadsReply(st: ClientState, server: Addr, pid: int, now: Millis, now': Millis)
    requires 1 <= pid <= 4
    ensures Fits(ConnReply(server, pid, now).header)
    ensures OnDatagram(st, Datagram(ConnReply(server, pid, now)), now')
      == (st.(playerId := Some(pid), pending := st.pending + [Connected(pid)]), [])
  {
    var o := ConnReply(server, pid, now);
    PlayerTextLength(pid);
    PlayerRoundTrip(pid);
    assert Pow256(1) == 0x100 && Pow256(2) == 0x1_0000;
    assert Pow256(4) == 0x1_0000_0000 && Pow256(8) == 0x1_0000_0000_0000_0000;
    DatagramRoundTrip(o);
  }

  /** An acknowledgement that packs moves the server's cursor for its sender
      to the acknowledged id, and changes nothing else. */
  lemma ServerReadsAck(sst: State, from: Addr, k: int, n: int, now: Millis, now': Millis)
    requires Fits(AckPacket(k, n, now).header)
    ensures Handle(sst, from, Datagram(AckPacket(k, n, now)), now')
      == (sst.(clientLastAck := sst.clientLastAck[from := k]), [])
  {
    var o := AckPacket(k, n, now);
    DatagramRoundTrip(o);
    AckRoundTrip(k);
    assert FromCode(o.header.msgType) == Some(SnapAck);
    assert OnSnapAck(sst, from, o.payload) == sst.(clientLastAck := sst.clientLastAck[from := k]);
    HandleSnapAck(sst, from, Datagram(o), o.header, o.payload, now');
  }

  /** How the server dispatches a type-4 datagram whose payload decodes. */
  lemma HandleSnapAck(sst: State, from: Addr, data: seq<byte>, h: Header, p: string, now: Millis)
    requires Unpack(data) == Some(h) && FromCode(h.msgType) == Some(SnapAck)
    requires PayloadText(data, h) == Some(p)
    ensures Handle(sst, from, data, now) == (OnSnapAck(sst, from, p), [])
  {
  }

  /** A click that packs moves the server's cursor for its sender to the
      client's acknowledged snapshot and gives the clicked cell to the
      client's player. */
  lemma ServerReadsClick(sst: State, from: Addr, st: ClientState, r: int, c: int, now: Millis, now': Millis)
    requires st.playerId.Some? && Fits(ClickPacket(st, r, c, now).header)
    ensures var sst' := Handle(sst, from, Datagram(ClickPacket(st, r, c, now)), now').0;
      && sst' == sst.(clientLastAck := sst.clientLastAck[from := st.lastAck],
                      grid := Put(sst.grid, CellId(r, c), st.playerId.value))
  {
    DatagramRoundTrip(ClickPacket(st, r, c, now));
    ClickRoundTrip(r, c, st.playerId.value, st.lastAck);
  }

  /** A delta the server sends to a client that has seen no newer snapshot
      is queued, and its id becomes the newest and the acknowledged one.
      Applying it applies the delta's entries in the server's order, whatever
      the view was; calling `update_ui` until the queue is empty does that on
      top of whatever the earlier entries did. */
  lemma ClientTakesDelta(sst: State, a: Addr, now: Millis, st: ClientState, now': Millis, owners: Owners)
    requires PacketFor(sst, a, now) != [] && sst.snapshotId >= st.current && TokenIds(sst.grid)
    ensures var o := PacketFor(sst, a, now)[0];
      var st' := OnDatagram(st, Datagram(o), now').0;
      var steps := EntrySteps(ComputeDelta(sst.grid, sst.history, AckOf(sst.clientLastAck, a)));
      && st'.current == st'.lastAck == sst.snapshotId
      && st'.pending == st.pending + [SnapshotText(o.payload)]
      && ApplyPayload(owners, o.payload) == ApplySteps(owners, steps)
      && Drained(DeltaSteps, st.cellOwners, st'.pending)
         == ApplySteps(HandleAll(DeltaSteps, st.cellOwners, st.pending), steps)
  {
    var o := PacketFor(sst, a, now)[0];
    SnapshotDatagram(st, o, now');
    var d := ComputeDelta(sst.grid, sst.history, AckOf(sst.clientLastAck, a));
    DeltaTokenIds(sst.grid, sst.history, AckOf(sst.clientLastAck, a));
    DeltaRoundTrip(owners, d);
    var before := HandleAll(DeltaSteps, st.cellOwners, st.pending);
    DeltaRoundTrip(before, d);
    DrainedHandlesAll(DeltaSteps, st.cellOwners, st.pending + [SnapshotText(o.payload)]);
    HandleConcat(DeltaSteps, st.cellOwners, st.pending, [SnapshotText(o.payload)]);
    assert [SnapshotText(o.payload)][1..] == [];
  }

  /** The delta carries only entries of the grid, so only its ids. */
  lemma DeltaTokenIds(grid: Dict<string, int>, history: Dict<int, map<string, int>>, b: int)
    requires TokenIds(grid)
    ensures TokenIds(ComputeDelta(grid, history, b))
  {
    var d := ComputeDelta(grid, history, b);
    forall i | 0 <= i < |d| ensures d[i].0 != [] && NoSpace(d[i].0) && Lacks(d[i].0, '|') {
      assert d[i] in d;
      var j :| 0 <= j < |grid| && grid[j] == d[i];
    }
  }

  /** A type-3 datagram built by a sender, with an id that is not older, is
      kept by the client. */
  lemma SnapshotDatagram(st: ClientState, o: Outgoing, now': Millis)
    requires Fits(o.header) && o.header.magic == GclpMagic && o.header.msgType == Code(Snapshot)
    requires o.header.payloadLen == |Utf8.Encode(o.payload)| && o.header.snapshotId >= st.current
    ensures OnDatagram(st, Datagram(o), now').0
      == st.(current := o.header.snapshotId, pending := st.pending + [SnapshotText(o.payload)],
             lastAck := o.header.snapshotId, seqNo := st.seqNo + 1)
  {
    DatagramRoundTrip(o);
  }
}
