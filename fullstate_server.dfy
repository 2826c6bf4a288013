/** The full-state server (server_ACK.py): it registers players and, on
    every acquisition, stores the new owner and sends every client the whole
    grid under a fresh snapshot id. */
module FullStateServer {
  import opened Common
  import opened PyText
  import opened OrderedDict
  import opened Wire
  import opened Gclp

  // ---------------------------------------------------------------- message types

  /** The message-type numbers of this variant (and of client_ACK.py). */
  datatype MsgType = Init | Data | ConnAck | Snapshot

  function Code(t: MsgType): int
  {
    match t
    case Init => 0
    case Data => 1
    case ConnAck => 2
    case Snapshot => 3
  }

  // ---------------------------------------------------------------- state

  /** A `self.clients` entry; nothing ever changes `seq` or `last_snapshot`
      after registration. */
  datatype Session = Session(seqNo: int, lastSnapshot: int, playerId: int)

  /** The server's fields, as one value. */
  datatype State = State(
    clients: Dict<Addr, Session>,
    snapshotId: int,
    grid: Dict<string, int>,
    nextPlayerId: int)

  /** The fields as `__init__` sets them. */
  function Initial(): State
  {
    State([], 0, [], 1)
  }

  /** What stays true between handlers: one entry per address and per cell
      id, a snapshot id that only counts up from 0, and sessions whose
      counters are still the zeros registration wrote. */
  ghost predicate Inv(st: State)
  {
    && KeysUnique(st.clients) && KeysUnique(st.grid)
    && st.snapshotId >= 0 && st.nextPlayerId >= 1
    && forall i :: 0 <= i < |st.clients| ==> st.clients[i].1.seqNo == 0 && st.clients[i].1.lastSnapshot == 0
  }

  // ---------------------------------------------------------------- snapshot text

  /** `f"CELL {cell_id} {owner}"`. */
  function CellSegment(id: string, owner: int): string
  {
    "CELL " + id + " " + IntToString(owner)
  }

  function CellSegments(grid: Dict<string, int>): (segs: seq<string>)
    ensures |segs| == |grid|
    ensures forall i :: 0 <= i < |grid| ==> segs[i] == CellSegment(grid[i].0, grid[i].1)
  {
    seq(|grid|, i requires 0 <= i < |grid| => CellSegment(grid[i].0, grid[i].1))
  }

  /** The snapshot payload: one segment per grid entry, in grid order,
      joined by `" | "`; empty only for an empty grid. */
  function FullPayload(grid: Dict<string, int>): (text: string)
    ensures grid == [] <==> text == []
  {
    var segs := CellSegments(grid);
    var text := Join(" | ", segs);
    assert grid != [] ==> text != [] by {
      if grid != [] {
        JoinNonEmpty(segs);
      }
    }
    text
  }

  lemma JoinNonEmpty(segs: seq<string>)
    requires |segs| >= 1 && segs[0] != []
    ensures Join(" | ", segs) != [] && Join(" | ", segs)[0] == segs[0][0]
  {
  }

  // ---------------------------------------------------------------- handlers

  /** The connection reply, `PLAYER:<id>` with type 2 and zero ids. */
  function ConnReply(to: Addr, pid: int, now: Millis): Outgoing
  {
    Outgoing(to, MakeHeader(GclpMagic, Code(ConnAck), 0, 0, now, PlayerText(pid)), PlayerText(pid))
  }

  /** INIT: the next player id, a fresh session (replacing any earlier one
      from the same address, which keeps its place), and the reply. */
  function OnInit(st: State, from: Addr, now: Millis): (State, seq<Outgoing>)
  {
    var pid := PlayerId(st.nextPlayerId);
    var st' := st.(clients := Put(st.clients, from, Session(0, 0, pid)),
                   nextPlayerId := st.nextPlayerId + 1);
    var reply := ConnReply(from, pid, now);
    (st', if Fits(reply.header) then [reply] else [])
  }

  /** The snapshot for one session: type 3, the current snapshot id, the
      session's own sequence number; nothing when `struct.pack` raises (a
      snapshot id past 32 bits, a payload past 65535 bytes). */
  function SnapshotFor(st: State, c: (Addr, Session), now: Millis): seq<Outgoing>
  {
    var payload := FullPayload(st.grid);
    var h := MakeHeader(GclpMagic, Code(Snapshot), st.snapshotId, c.1.seqNo, now, payload);
    if Fits(h) then [Outgoing(c.0, h, payload)] else []
  }

  /** The snapshots for the sessions `cs`, in order. */
  function Snapshots(st: State, cs: Dict<Addr, Session>, now: Millis): (out: seq<Outgoing>)
    ensures |out| <= |cs|
  {
    if cs == [] then []
    else Snapshots(st, cs[..|cs| - 1], now) + SnapshotFor(st, cs[|cs| - 1], now)
  }

  /** `broadcast_snapshot`: a new snapshot id (even without clients) and the
      whole grid to every client. */
  function Broadcast(st: State, now: Millis): (State, seq<Outgoing>)
  {
    var st' := st.(snapshotId := st.snapshotId + 1);
    (st', Snapshots(st', st'.clients, now))
  }

  /** DATA: an acquisition stores its owner over any earlier one and is
      broadcast; any other payload changes nothing. */
  function OnData(st: State, payload: string, now: Millis): (State, seq<Outgoing>)
  {
    match ParseAcquire(payload)
    case None => (st, [])
    case Some((id, pid)) => Broadcast(st.(grid := Put(st.grid, id, pid)), now)
  }

  /** One pass of `server_loop`'s body for a datagram from `from`. A datagram
      too short for the header, or whose payload is not UTF-8, is dropped by
      the catch-all and changes nothing. */
  function Handle(st: State, from: Addr, data: seq<byte>, now: Millis): (r: (State, seq<Outgoing>))
    ensures |data| < HeaderSize ==> r == (st, [])
    ensures r.0.clients != st.clients ==> Unpack(data).Some? && Unpack(data).value.msgType == Code(Init)
    ensures r.0.grid != st.grid ==> r.0.snapshotId == st.snapshotId + 1
  {
    match Unpack(data)
    case None => (st, [])
    case Some(h) =>
      if h.msgType == Code(Init) then OnInit(st, from, now)
      else if h.msgType == Code(Data) then
        match PayloadText(data, h)
        case None => (st, [])
        case Some(p) => OnData(st, p, now)
      else (st, [])
  }

  // ---------------------------------------------------------------- the server object

  class Server {
    var clients: Dict<Addr, Session>
    var snapshotId: int
    var gridState: Dict<string, int>
    var nextPlayerId: int

    function Fields(): State
      reads this
    {
      State(clients, snapshotId, gridState, nextPlayerId)
    }

    ghost predicate Valid()
      reads this
    {
      Inv(Fields())
    }

    constructor ()
      ensures Fields() == Initial() && Valid()
    {
      clients := [];
      snapshotId := 0;
      gridState := [];
      nextPlayerId := 1;
    }

    /** One datagram taken off the socket by `server_loop`. */
    method Receive(from: Addr, data: seq<byte>, now: Millis) returns (out: seq<Outgoing>)
      requires Valid()
      modifies this
      ensures Valid()
      ensures (Fields(), out) == Handle(old(Fields()), from, data, now)
    {
      ghost var st := Fields();
      HandlePreserves(st, from, data, now);
      out := [];
      if |data| < HeaderSize {
        return;
      }
      var h := Unpack(data).value;
      if h.msgType == 0 {
        out := Connect(from, now);
      } else if h.msgType == 1 {
        var text := PayloadText(data, h);
        if text.None? {
          return;
        }
        out := TakeData(text.value, now);
      }
    }

    /** The INIT branch. */
    method Connect(from: Addr, now: Millis) returns (out: seq<Outgoing>)
      modifies this
      ensures (Fields(), out) == OnInit(old(Fields()), from, now)
    {
      var pid := ((nextPlayerId - 1) % 4) + 1;
      clients := Put(clients, from, Session(0, 0, pid));
      nextPlayerId := nextPlayerId + 1;
      var reply := ConnReply(from, pid, now);
      out := [];
      if Fits(reply.header) {
        out := [reply];
      }
    }

    /** The DATA branch, once the payload has decoded. */
    method TakeData(payload: string, now: Millis) returns (out: seq<Outgoing>)
      modifies this
      ensures (Fields(), out) == OnData(old(Fields()), payload, now)
    {
      out := [];
      var acquire := ParseAcquire(payload);
      if acquire.Some? {
        gridState := Put(gridState, acquire.value.0, acquire.value.1);
        out := BroadcastSnapshot(now);
      }
    }

    /** `broadcast_snapshot`. */
    method BroadcastSnapshot(now: Millis) returns (out: seq<Outgoing>)
      modifies this
      ensures (Fields(), out) == Broadcast(old(Fields()), now)
    {
      snapshotId := snapshotId + 1;
      var payload := FullPayload(gridState);
      out := [];
      var i := 0;
      assert clients[..0] == [];
      while i < |clients|
        invariant 0 <= i <= |clients|
        invariant out == Snapshots(Fields(), clients[..i], now)
      {
        var h := MakeHeader(GclpMagic, Code(Snapshot), snapshotId, clients[i].1.seqNo, now, payload);
        if Fits(h) {
          out := out + [Outgoing(clients[i].0, h, payload)];
        }
        assert clients[..i + 1][..i] == clients[..i];
        i := i + 1;
      }
      assert clients[..i] == clients;
    }
  }

  // ---------------------------------------------------------------- lemmas

  /** Every handler keeps the invariant, never removes a cell, and moves the
      snapshot id by at most one. */
  lemma HandlePreserves(st: State, from: Addr, data: seq<byte>, now: Millis)
    requires Inv(st)
    ensures var st' := Handle(st, from, data, now).0;
      && Inv(st')
      && ToMap(st.grid).Keys <= ToMap(st'.grid).Keys
      && st.snapshotId <= st'.snapshotId <= st.snapshotId + 1
  {
    if |data| >= HeaderSize {
      var h := Unpack(data).value;
      if h.msgType == Code(Init) {
        var pid := PlayerId(st.nextPlayerId);
        PutUnique(st.clients, from, Session(0, 0, pid));
        SessionsZero(st.clients, from, Session(0, 0, pid));
        assert Handle(st, from, data, now).0 == OnInit(st, from, now).0;
      } else if h.msgType == Code(Data) && PayloadText(data, h).Some? {
        var p := PayloadText(data, h).value;
        match ParseAcquire(p)
        case None =>
        case Some((id, pid)) =>
          PutUnique(st.grid, id, pid);
          PutToMap(st.grid, id, pid);
      }
    }
  }

  /** Registering a zeroed session keeps every session zeroed. */
  lemma SessionsZero(cs: Dict<Addr, Session>, a: Addr, s: Session)
    requires forall i :: 0 <= i < |cs| ==> cs[i].1.seqNo == 0 && cs[i].1.lastSnapshot == 0
    requires s.seqNo == 0 && s.lastSnapshot == 0
    ensures forall i :: 0 <= i < |Put(cs, a, s)| ==> Put(cs, a, s)[i].1.seqNo == 0 && Put(cs, a, s)[i].1.lastSnapshot == 0
  {
    var cs' := Put(cs, a, s);
    forall i | 0 <= i < |cs'| ensures cs'[i].1.seqNo == 0 && cs'[i].1.lastSnapshot == 0 {
      assert cs'[i] in cs';
      PutEntries(cs, a, s, cs'[i]);
    }
  }

  /** The one-session step of the broadcast loop. */
  lemma SnapshotsSnoc(st: State, cs: Dict<Addr, Session>, i: int, now: Millis)
    requires 0 <= i < |cs|
    ensures Snapshots(st, cs[..i + 1], now) == Snapshots(st, cs[..i], now) + SnapshotFor(st, cs[i], now)
  {
    assert cs[..i + 1][..i] == cs[..i];
  }

  /** A snapshot that packs goes to a session's address as a type-3 message
      carrying the current snapshot id, that session's sequence number and
      the whole grid. */
  ghost predicate IsSnapshotOf(st: State, c: (Addr, Session), o: Outgoing)
  {
    && o.to == c.0
    && o.header.magic == GclpMagic && o.header.msgType == Code(Snapshot)
    && o.header.snapshotId == st.snapshotId && o.header.seqNo == c.1.seqNo
    && o.payload == FullPayload(st.grid)
    && o.header.payloadLen == |Utf8.Encode(o.payload)| && Fits(o.header)
  }

  /** Whatever `broadcast_snapshot` sends is one session's snapshot. */
  lemma {:induction false} SnapshotsSound(st: State, cs: Dict<Addr, Session>, now: Millis)
    ensures forall o :: o in Snapshots(st, cs, now) ==> exists i :: 0 <= i < |cs| && IsSnapshotOf(st, cs[i], o)
  {
    if cs != [] {
      var init := cs[..|cs| - 1];
      SnapshotsSound(st, init, now);
      assert forall i :: 0 <= i < |init| ==> init[i] == cs[i];
      var last := SnapshotFor(st, cs[|cs| - 1], now);
      assert forall o :: o in last ==> IsSnapshotOf(st, cs[|cs| - 1], o);
    }
  }

  /** When the snapshot id, the payload's size and every sequence number fit
      their fields, `broadcast_snapshot` sends every session, in
      registration order, exactly its snapshot. */
  lemma {:induction false} SnapshotsComplete(st: State, cs: Dict<Addr, Session>, now: Millis)
    requires InWidth(st.snapshotId, 4) && InWidth(|Utf8.Encode(FullPayload(st.grid))|, 2)
    requires forall i :: 0 <= i < |cs| ==> InWidth(cs[i].1.seqNo, 4)
    ensures |Snapshots(st, cs, now)| == |cs|
    ensures forall i :: 0 <= i < |cs| ==> IsSnapshotOf(st, cs[i], Snapshots(st, cs, now)[i])
  {
    if cs != [] {
      var init := cs[..|cs| - 1];
      assert forall i :: 0 <= i < |init| ==> init[i] == cs[i];
      SnapshotsComplete(st, init, now);
      var last := cs[|cs| - 1];
      SnapshotFits(st, last, now);
      var pre := Snapshots(st, init, now);
      var p := SnapshotFor(st, last, now);
      assert Snapshots(st, cs, now) == pre + p;
      assert cs == init + [last];
      SnapshotsAppend(st, pre, p, init, last);
    }
  }

  lemma SnapshotsAppend(st: State, pre: seq<Outgoing>, p: seq<Outgoing>, init: Dict<Addr, Session>, last: (Addr, Session))
    requires |pre| == |init| && forall i :: 0 <= i < |init| ==> IsSnapshotOf(st, init[i], pre[i])
    requires |p| == 1 && IsSnapshotOf(st, last, p[0])
    ensures |pre + p| == |init + [last]|
    ensures forall i :: 0 <= i < |init| + 1 ==> IsSnapshotOf(st, (init + [last])[i], (pre + p)[i])
  {
  }

  /** One session's snapshot packs when its numbers fit. */
  lemma SnapshotFits(st: State, c: (Addr, Session), now: Millis)
    requires InWidth(st.snapshotId, 4) && InWidth(|Utf8.Encode(FullPayload(st.grid))|, 2)
    requires InWidth(c.1.seqNo, 4)
    ensures |SnapshotFor(st, c, now)| == 1 && IsSnapshotOf(st, c, SnapshotFor(st, c, now)[0])
  {
    assert Pow256(1) == 0x100 && Pow256(8) == 0x1_0000_0000_0000_0000;
  }

  /** Under the invariant, every snapshot the server sends carries sequence
      number 0, whatever it broadcasts. */
  lemma SnapshotsZeroSeq(st: State, now: Millis)
    requires Inv(st)
    ensures forall o :: o in Snapshots(st, st.clients, now) ==> o.header.seqNo == 0
  {
    SnapshotsSound(st, st.clients, now);
  }

  /** INIT registers the sender under the next player id (cycling through
      1..4), with zeroed counters, and replies with that id. */
  lemma InitSession(st: State, from: Addr, now: Millis)
    ensures var (st', out) := OnInit(st, from, now);
      && Get(st'.clients, from) == Some(Session(0, 0, PlayerId(st.nextPlayerId)))
      && 1 <= PlayerId(st.nextPlayerId) <= 4
      && st'.nextPlayerId == st.nextPlayerId + 1
      && st'.grid == st.grid && st'.snapshotId == st.snapshotId
      && |out| == 1 && out[0].to == from
      && ParsePlayer(out[0].payload) == Some(PlayerId(st.nextPlayerId))
  {
    var pid := PlayerId(st.nextPlayerId);
    PutGetSame(st.clients, from, Session(0, 0, pid));
    PlayerTextLength(pid);
    PlayerRoundTrip(pid);
    assert Pow256(1) == 0x100 && Pow256(2) == 0x1_0000;
    assert Pow256(4) == 0x1_0000_0000 && Pow256(8) == 0x1_0000_0000_0000_0000;
  }

  /** An acquisition gives the cell to the requested player, whoever held it
      before, leaves every other cell and every session alone, moves the
      snapshot id by one and broadcasts the new grid; a DATA payload that is
      not an acquisition changes nothing and sends nothing. */
  lemma AcquireBroadcasts(st: State, payload: string, now: Millis)
    ensures var (st', out) := OnData(st, payload, now);
      match ParseAcquire(payload)
      case None => st' == st && out == []
      case Some((id, pid)) =>
        && ToMap(st'.grid) == ToMap(st.grid)[id := pid]
        && st'.clients == st.clients && st'.nextPlayerId == st.nextPlayerId
        && st'.snapshotId == st.snapshotId + 1
        && out == Snapshots(st', st.clients, now)
  {
    match ParseAcquire(payload)
    case None =>
    case Some((id, pid)) =>
      PutToMap(st.grid, id, pid);
  }
}
