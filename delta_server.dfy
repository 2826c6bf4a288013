/** The delta-snapshot server (server_Decode.py): it registers players,
    takes cell acquisitions and snapshot acknowledgements, and on every
    broadcast tick sends each client the cells that changed since the
    snapshot that client last acknowledged. */
module DeltaServer {
  import opened Common
  import opened PyText
  import opened OrderedDict
  import opened Wire
  import opened Gclp

  // ---------------------------------------------------------------- message types

  /** The message-type numbers of this variant (and of client_Decode.py). */
  datatype MsgType = Init | Data | ConnAck | Snapshot | SnapAck

  function Code(t: MsgType): int
  {
    match t
    case Init => 0
    case Data => 1
    case ConnAck => 2
    case Snapshot => 3
    case SnapAck => 4
  }

  /** The type a header's number stands for; `None` for numbers the
      handlers ignore. */
  function FromCode(n: int): (t: Option<MsgType>)
    ensures forall m :: t == Some(m) <==> Code(m) == n
  {
    if n == 0 then Some(Init)
    else if n == 1 then Some(Data)
    else if n == 2 then Some(ConnAck)
    else if n == 3 then Some(Snapshot)
    else if n == 4 then Some(SnapAck)
    else None
  }

  // ---------------------------------------------------------------- state

  /** A `self.clients` entry. */
  datatype Session = Session(seqNo: int, lastSnapshot: int, playerId: int)

  /** The server's fields, as one value. */
  datatype State = State(
    clients: Dict<Addr, Session>,
    clientLastAck: map<Addr, int>,
    grid: Dict<string, int>,
    snapshotId: int,
    sequenceNumber: int,
    history: Dict<int, map<string, int>>,
    nextPlayerId: int)

  /** The fields as `__init__` sets them. */
  function Initial(): State
  {
    State([], map[], [], 0, 0, [], 1)
  }

  /** How many snapshots the history keeps. */
  const HistoryLimit: int := 100

  /** The snapshot ids the history holds after `n` ticks, in insertion
      order: the last (at most) one hundred. */
  function Window(n: int): seq<int>
  {
    Range(Max(1, n - HistoryLimit + 1), n)
  }

  /** The ids from `lo` to `hi`, ascending. */
  function Range(lo: int, hi: int): (r: seq<int>)
    ensures |r| == if lo <= hi then hi - lo + 1 else 0
    ensures forall i :: 0 <= i < |r| ==> r[i] == lo + i
  {
    seq(if lo <= hi then hi - lo + 1 else 0, i => lo + i)
  }

  /** What stays true between handlers. */
  ghost predicate Inv(st: State)
  {
    && KeysUnique(st.clients) && KeysUnique(st.grid)
    && st.snapshotId >= 0 && st.sequenceNumber == st.snapshotId
    && Keys(st.history) == Window(st.snapshotId)
    && (forall i :: 0 <= i < |st.history| ==> st.history[i].1.Keys <= ToMap(st.grid).Keys)
  }

  // ---------------------------------------------------------------- payload texts

  /** The DATA payload: an optional `ACK_SNAP:k` cursor update (a `k` that is
      not an integer raises and ends the handler) and an optional acquire. */
  datatype DataEffect = DataEffect(ack: Option<int>, acquire: Option<(string, int)>)

  function ParseData(payload: string): (e: DataEffect)
    ensures e.ack.Some? ==> Contains(payload, "ACK_SNAP:")
    ensures e.acquire.Some? ==> ParseAcquire(payload) == e.acquire
    ensures Contains(payload, "ACK_SNAP:") && e.ack.None? ==> e.acquire.None?
  {
    if Contains(payload, "ACK_SNAP:") then
      match ParseInt(SplitOn(payload, "ACK_SNAP:")[1])
      case None => DataEffect(None, None)
      case Some(k) => DataEffect(Some(k), ParseAcquire(payload))
    else DataEffect(None, ParseAcquire(payload))
  }

  /** The type-4 payload: when `'ACK' in payload`, `int(payload.split()[1])`;
      `None` where there is no `ACK` or the indexing or conversion raises. */
  function ParseSnapAck(payload: string): (k: Option<int>)
    ensures k.Some? ==> Contains(payload, "ACK") && |SplitWs(payload)| >= 2
    ensures k.Some? ==> ParseInt(SplitWs(payload)[1]) == k
  {
    if !Contains(payload, "ACK") then None
    else
      var parts := SplitWs(payload);
      if |parts| < 2 then None else ParseInt(parts[1])
  }

  /** `f"DELTA CELL {cell_id} {owner}"`. */
  function DeltaSegment(id: string, owner: int): string
  {
    "DELTA CELL " + id + " " + IntToString(owner)
  }

  function DeltaSegments(delta: Dict<string, int>): (segs: seq<string>)
    ensures |segs| == |delta|
    ensures forall i :: 0 <= i < |delta| ==> segs[i] == DeltaSegment(delta[i].0, delta[i].1)
  {
    seq(|delta|, i requires 0 <= i < |delta| => DeltaSegment(delta[i].0, delta[i].1))
  }

  /** The snapshot payload: `"NO_CHANGES"` for an empty delta, otherwise
      one segment per changed cell, in grid order, joined by `" | "`. */
  function DeltaPayload(delta: Dict<string, int>): (text: string)
    ensures delta == [] <==> text == "NO_CHANGES"
  {
    if delta == [] then "NO_CHANGES"
    else
      var text := Join(" | ", DeltaSegments(delta));
      assert text != "NO_CHANGES" by {
        assert text[..6] == DeltaSegments(delta)[0][..6] == "DELTA ";
      }
      text
  }

  // ---------------------------------------------------------------- compute_delta

  /** The cells of `grid`, in grid order, that `base` lacks or holds with a
      different owner. */
  function ChangedCells(grid: Dict<string, int>, base: map<string, int>): (d: Dict<string, int>)
    ensures forall p :: p in d <==> p in grid && (p.0 !in base || base[p.0] != p.1)
    ensures KeysUnique(grid) ==> KeysUnique(d)
    ensures |d| <= |grid|
  {
    if grid == [] then []
    else
      var rest := ChangedCells(grid[1..], base);
      var p := grid[0];
      assert forall q :: q in grid <==> q == p || q in grid[1..];
      if p.0 !in base || base[p.0] != p.1 then
        var d := [p] + rest;
        assert KeysUnique(grid) ==> KeysUnique(d) by {
          if KeysUnique(grid) {
            forall j | 0 <= j < |rest| ensures rest[j].0 != p.0 {
              var q := rest[j];
              assert q in grid[1..];
              var m :| 0 <= m < |grid[1..]| && grid[1..][m] == q;
              assert grid[m + 1] == q;
            }
          }
        }
        d
      else rest
  }

  /** `compute_delta(last_snapshot_id)`: the whole grid when the id is 0 or no
      longer in the history, the changed cells otherwise. */
  function ComputeDelta(grid: Dict<string, int>, history: Dict<int, map<string, int>>, b: int): (d: Dict<string, int>)
    ensures (b == 0 || Get(history, b).None?) ==> d == grid
    ensures b != 0 && Get(history, b).Some? ==>
      var base := Get(history, b).value;
      forall p :: p in d <==> p in grid && (p.0 !in base || base[p.0] != p.1)
  {
    match Get(history, b)
    case None => grid
    case Some(base) => if b == 0 then grid else ChangedCells(grid, base)
  }

  /** A client's cursor, `self.client_last_ack.get(client_addr, 0)`. */
  function AckOf(acks: map<Addr, int>, a: Addr): int
  {
    if a in acks then acks[a] else 0
  }

  // ---------------------------------------------------------------- handlers

  /** The connection reply, `PLAYER:<id>` with type 2 and zero ids. */
  function ConnReply(to: Addr, pid: int, now: Millis): Outgoing
  {
    Outgoing(to, MakeHeader(GclpMagic, Code(ConnAck), 0, 0, now, PlayerText(pid)), PlayerText(pid))
  }

  /** INIT: the next player id, a fresh session (replacing any earlier one),
      the cursor reset to 0, and the reply. */
  function OnInit(st: State, from: Addr, now: Millis): (State, seq<Outgoing>)
  {
    var pid := PlayerId(st.nextPlayerId);
    var st' := st.(clients := Put(st.clients, from, Session(0, 0, pid)),
                   clientLastAck := st.clientLastAck[from := 0],
                   nextPlayerId := st.nextPlayerId + 1);
    var reply := ConnReply(from, pid, now);
    (st', if Fits(reply.header) then [reply] else [])
  }

  /** DATA: first the cursor (which overwrites, even for an address that never
      sent INIT), then the acquire (which overwrites any owner). */
  function OnData(st: State, from: Addr, payload: string): State
  {
    var e := ParseData(payload);
    var st1 := if e.ack.Some? then st.(clientLastAck := st.clientLastAck[from := e.ack.value]) else st;
    if e.acquire.Some? then st1.(grid := Put(st1.grid, e.acquire.value.0, e.acquire.value.1)) else st1
  }

  /** Type 4: `"ACK k"` overwrites the sender's cursor. */
  function OnSnapAck(st: State, from: Addr, payload: string): State
  {
    match ParseSnapAck(payload)
    case None => st
    case Some(k) => st.(clientLastAck := st.clientLastAck[from := k])
  }

  /** One pass of `server_loop`'s body for a datagram from `from`. A datagram
      too short for the header, or whose payload is not UTF-8, is dropped by
      the catch-all and changes nothing. */
  function Handle(st: State, from: Addr, data: seq<byte>, now: Millis): (r: (State, seq<Outgoing>))
    ensures |data| < HeaderSize ==> r == (st, [])
    ensures |r.1| <= 1 && forall i :: 0 <= i < |r.1| ==> r.1[i].to == from
    ensures r.0.snapshotId == st.snapshotId && r.0.sequenceNumber == st.sequenceNumber
    ensures r.0.history == st.history
  {
    match Unpack(data)
    case None => (st, [])
    case Some(h) =>
      match FromCode(h.msgType)
      case Some(Init) => OnInit(st, from, now)
      case Some(Data) =>
        (match PayloadText(data, h)
         case None => (st, [])
         case Some(p) => (OnData(st, from, p), []))
      case Some(SnapAck) =>
        (match PayloadText(data, h)
         case None => (st, [])
         case Some(p) => (OnSnapAck(st, from, p), []))
      case _ => (st, [])
  }

  // ---------------------------------------------------------------- broadcast tick

  /** `min(...)` of a non-empty sequence of ids. */
  function MinOf(ks: seq<int>): int
    requires ks != []
  {
    if |ks| == 1 then ks[0] else Min(MinOf(ks[..|ks| - 1]), ks[|ks| - 1])
  }

  /** `MinOf` is one of the ids and no larger than any. */
  lemma {:induction false} MinOfIsMin(ks: seq<int>)
    requires ks != []
    ensures MinOf(ks) in ks
    ensures forall i :: 0 <= i < |ks| ==> MinOf(ks) <= ks[i]
  {
    if |ks| > 1 {
      var init := ks[..|ks| - 1];
      MinOfIsMin(init);
      assert forall i :: 0 <= i < |init| ==> init[i] == ks[i];
    }
  }

  /** The history after snapshot `id` of `grid` is stored: more than one
      hundred entries lose the smallest id. */
  function Record(history: Dict<int, map<string, int>>, id: int, grid: map<string, int>): Dict<int, map<string, int>>
  {
    var added := Put(history, id, grid);
    if |added| > HistoryLimit then Remove(added, MinOf(Keys(added))) else added
  }

  /** The packet for one client: its delta as a type-3 message with the
      tick's snapshot id and sequence number; nothing when `struct.pack`
      raises. */
  function PacketFor(st: State, a: Addr, now: Millis): seq<Outgoing>
  {
    var payload := DeltaPayload(ComputeDelta(st.grid, st.history, AckOf(st.clientLastAck, a)));
    var h := MakeHeader(GclpMagic, Code(Snapshot), st.snapshotId, st.sequenceNumber, now, payload);
    if Fits(h) then [Outgoing(a, h, payload)] else []
  }

  /** The packets for the clients `cs`, in order. */
  function Packets(st: State, cs: seq<Addr>, now: Millis): (out: seq<Outgoing>)
    ensures |out| <= |cs|
  {
    if cs == [] then []
    else Packets(st, cs[..|cs| - 1], now) + PacketFor(st, cs[|cs| - 1], now)
  }

  /** `broadcast_delta_snapshot`: nothing without clients; otherwise a new
      snapshot id and sequence number, the grid recorded under that id, and
      one delta per client. */
  function Tick(st: State, now: Millis): (r: (State, seq<Outgoing>))
    ensures st.clients == [] ==> r == (st, [])
    ensures st.clients != [] ==> r.0.snapshotId == st.snapshotId + 1 && r.0.sequenceNumber == st.sequenceNumber + 1
    ensures r.0.clients == st.clients && r.0.clientLastAck == st.clientLastAck && r.0.grid == st.grid
    ensures |r.1| <= |st.clients|
  {
    if st.clients == [] then (st, [])
    else
      var st' := Advance(st);
      (st', Packets(st', Keys(st.clients), now))
  }

  /** The counters and the history after a tick with clients. */
  function Advance(st: State): State
  {
    var id := st.snapshotId + 1;
    st.(snapshotId := id, sequenceNumber := st.sequenceNumber + 1,
        history := Record(st.history, id, ToMap(st.grid)))
  }

  // ---------------------------------------------------------------- the server object

  class Server {
    var clients: Dict<Addr, Session>
    var clientLastAck: map<Addr, int>
    var grid: Dict<string, int>
    var snapshotId: int
    var sequenceNumber: int
    var history: Dict<int, map<string, int>>
    var nextPlayerId: int

    function Fields(): State
      reads this
    {
      State(clients, clientLastAck, grid, snapshotId, sequenceNumber, history, nextPlayerId)
    }

    ghost predicate Valid()
      reads this
    {
      Inv(Fields())
    }

    constructor ()
      ensures Fields() == Initial() && Valid()
    {
      clients := [];
      clientLastAck := map[];
      grid := [];
      snapshotId := 0;
      sequenceNumber := 0;
      history := [];
      nextPlayerId := 1;
    }

    /** One datagram taken off the socket by `server_loop`. */
    method Receive(from: Addr, data: seq<byte>, now: Millis) returns (out: seq<Outgoing>)
      requires Valid()
      modifies this
      ensures Valid()
      ensures (Fields(), out) == Handle(old(Fields()), from, data, now)
    {
      ghost var st := Fields();
      HandlePreserves(st, from, data, now);
      out := [];
      if |data| < HeaderSize {
        return;
      }
      var h := Unpack(data).value;
      if h.msgType == 0 {
        out := Connect(from, now);
      } else if h.msgType == 1 {
        var text := PayloadText(data, h);
        if text.None? {
          return;
        }
        TakeData(from, text.value);
      } else if h.msgType == 4 {
        var text := PayloadText(data, h);
        if text.None? {
          return;
        }
        var k := ParseSnapAck(text.value);
        if k.Some? {
          clientLastAck := clientLastAck[from := k.value];
        }
        assert Fields() == OnSnapAck(st, from, text.value);
      }
    }

    /** The INIT branch: a fresh session under the next player id. */
    method Connect(from: Addr, now: Millis) returns (out: seq<Outgoing>)
      modifies this
      ensures (Fields(), out) == OnInit(old(Fields()), from, now)
    {
      var pid := ((nextPlayerId - 1) % 4) + 1;
      clients := Put(clients, from, Session(0, 0, pid));
      clientLastAck := clientLastAck[from := 0];
      nextPlayerId := nextPlayerId + 1;
      var reply := ConnReply(from, pid, now);
      out := [];
      if Fits(reply.header) {
        out := [reply];
      }
    }

    /** The DATA branch: the cursor, then the acquire. */
    method TakeData(from: Addr, payload: string)
      modifies this
      ensures Fields() == OnData(old(Fields()), from, payload)
    {
      if Contains(payload, "ACK_SNAP:") {
        var ack := ParseInt(SplitOn(payload, "ACK_SNAP:")[1]);
        if ack.None? {
          return;
        }
        clientLastAck := clientLastAck[from := ack.value];
      }
      var acquire := ParseAcquire(payload);
      if acquire.Some? {
        grid := Put(grid, acquire.value.0, acquire.value.1);
      }
    }

    /** The body of the per-client `try`: the client's delta under the
        current ids, or nothing when `struct.pack` raises. */
    method DeltaPacket(a: Addr, now: Millis) returns (packet: seq<Outgoing>)
      ensures packet == PacketFor(Fields(), a, now)
    {
      var lastAck := AckOf(clientLastAck, a);
      var payload := DeltaPayload(ComputeDelta(grid, history, lastAck));
      var h := MakeHeader(GclpMagic, Code(Snapshot), snapshotId, sequenceNumber, now, payload);
      packet := [];
      if Fits(h) {
        packet := [Outgoing(a, h, payload)];
      }
    }

    /** The start of a tick with clients: new ids, and the grid copied into
        the history, whose oldest entry goes once there are over a hundred. */
    method NextSnapshot()
      modifies this
      ensures Fields() == Advance(old(Fields()))
    {
      snapshotId := snapshotId + 1;
      sequenceNumber := sequenceNumber + 1;
      var recorded := Put(history, snapshotId, ToMap(grid));
      if |recorded| > HistoryLimit {
        var oldest := MinOf(Keys(recorded));
        recorded := Remove(recorded, oldest);
      }
      assert recorded == Record(history, snapshotId, ToMap(grid));
      history := recorded;
    }

    /** The per-client loop of a tick: one delta packet per address, in
        order, skipping those whose `struct.pack` raises. */
    method SendDeltas(addrs: seq<Addr>, now: Millis) returns (out: seq<Outgoing>)
      ensures out == Packets(Fields(), addrs, now)
    {
      out := [];
      var i := 0;
      assert addrs[..0] == [];
      while i < |addrs|
        invariant 0 <= i <= |addrs|
        invariant out == Packets(Fields(), addrs[..i], now)
      {
        var packet := DeltaPacket(addrs[i], now);
        out := out + packet;
        PacketsSnoc(Fields(), addrs, i, now);
        i := i + 1;
      }
      assert addrs[..i] == addrs;
    }

    /** `broadcast_delta_snapshot`, one tick of the broadcast thread. */
    method Broadcast(now: Millis) returns (out: seq<Outgoing>)
      requires Valid()
      modifies this
      ensures Valid()
      ensures (Fields(), out) == Tick(old(Fields()), now)
    {
      ghost var st := Fields();
      out := [];
      if clients == [] {
        return;
      }
      NextSnapshot();
      out := SendDeltas(Keys(clients), now);
      TickPreserves(st, now);
    }
  }

  // ---------------------------------------------------------------- lemmas

  /** The DATA and type-4 handlers keep the invariant, never touch the
      snapshot counters or the history, and never remove a cell. */
  lemma OnDataPreserves(st: State, from: Addr, payload: string)
    requires Inv(st)
    ensures var st' := OnData(st, from, payload);
      Inv(st') && st'.history == st.history && st'.snapshotId == st.snapshotId
      && ToMap(st.grid).Keys <= ToMap(st'.grid).Keys
  {
    var e := ParseData(payload);
    if e.acquire.Some? {
      PutUnique(st.grid, e.acquire.value.0, e.acquire.value.1);
      PutToMap(st.grid, e.acquire.value.0, e.acquire.value.1);
    }
  }

  lemma HandlePreserves(st: State, from: Addr, data: seq<byte>, now: Millis)
    requires Inv(st)
    ensures var st' := Handle(st, from, data, now).0;
      Inv(st') && st'.history == st.history && st'.snapshotId == st.snapshotId
      && ToMap(st.grid).Keys <= ToMap(st'.grid).Keys
  {
    var r := Handle(st, from, data, now).0;
    if |data| < HeaderSize {
      assert r == st;
    } else {
      var h := Unpack(data).value;
      match FromCode(h.msgType)
      case Some(Init) =>
        assert r == OnInit(st, from, now).0;
        PutUnique(st.clients, from, Session(0, 0, PlayerId(st.nextPlayerId)));
      case Some(Data) =>
        var text := PayloadText(data, h);
        if text.Some? {
          assert r == OnData(st, from, text.value);
          OnDataPreserves(st, from, text.value);
        } else {
          assert r == st;
        }
      case Some(SnapAck) =>
        var text := PayloadText(data, h);
        if text.Some? {
          assert r == OnSnapAck(st, from, text.value);
        } else {
          assert r == st;
        }
      case _ =>
        assert r == st;
    }
  }

  /** Recording snapshot `n` into the history of ids `Window(n - 1)` leaves
      exactly the ids `Window(n)`: the first hundred snapshots are all kept,
      after that each new one pushes out the oldest. */
  lemma RecordWindow(history: Dict<int, map<string, int>>, n: int, g: map<string, int>)
    requires n >= 1 && Keys(history) == Window(n - 1)
    ensures Keys(Record(history, n, g)) == Window(n)
    ensures forall i :: 0 <= i < |Record(history, n, g)| ==>
      Record(history, n, g)[i] in history || Record(history, n, g)[i] == (n, g)
  {
    var r := RecordShape(history, n, g);
    forall i | 0 <= i < |r| ensures r[i] in history || r[i] == (n, g) {
      if n > HistoryLimit {
        assert r[i] == (history + [(n, g)])[i + 1];
      } else {
        assert r[i] == (history + [(n, g)])[i];
      }
    }
  }

  /** What recording does to a full window and to one with room left. */
  lemma RecordShape(history: Dict<int, map<string, int>>, n: int, g: map<string, int>)
      returns (r: Dict<int, map<string, int>>)
    requires n >= 1 && Keys(history) == Window(n - 1)
    ensures r == Record(history, n, g)
    ensures Keys(r) == Window(n)
    ensures n > HistoryLimit ==> r == (history + [(n, g)])[1..]
    ensures n <= HistoryLimit ==> r == history + [(n, g)]
  {
    var lo := Max(1, n - HistoryLimit);
    var added := Put(history, n, g);
    AppendId(history, n, g);
    r := Record(history, n, g);
    assert |added| == n - lo + 1;
    if n > HistoryLimit {
      assert lo == n - HistoryLimit && |added| > HistoryLimit;
      DropOldest(added, lo, n);
      assert r == added[1..];
      assert Window(n) == Range(lo + 1, n);
    } else {
      assert lo == 1 && r == added;
      assert Window(n) == Range(lo, n);
    }
  }

  /** A new id larger than every recorded one goes to the end. */
  lemma AppendId(history: Dict<int, map<string, int>>, n: int, g: map<string, int>)
    requires n >= 1 && Keys(history) == Window(n - 1)
    ensures Put(history, n, g) == history + [(n, g)]
    ensures Keys(Put(history, n, g)) == Range(Max(1, n - HistoryLimit), n)
  {
    assert n !in Keys(history);
    PutNew(history, n, g);
    assert Keys(history + [(n, g)]) == Keys(history) + [n];
  }

  /** In a dict whose ids ascend from `lo`, the smallest is the first, and
      deleting it leaves the ids from `lo + 1`. */
  lemma DropOldest(added: Dict<int, map<string, int>>, lo: int, n: int)
    requires lo <= n && Keys(added) == Range(lo, n)
    ensures Remove(added, MinOf(Keys(added))) == added[1..]
    ensures Keys(added[1..]) == Range(lo + 1, n)
  {
    assert Range(lo, n)[1..] == Range(lo + 1, n);
    assert MinOf(Keys(added)) == lo by {
      MinOfIsMin(Keys(added));
      assert Keys(added)[0] == lo;
    }
    assert KeysUnique(added) by {
      forall i, j | 0 <= i < j < |added| ensures added[i].0 != added[j].0 {
        assert Keys(added)[i] == lo + i && Keys(added)[j] == lo + j;
      }
    }
    RemoveFirst(added);
    KeysTail(added);
  }

  lemma TickPreserves(st: State, now: Millis)
    requires Inv(st)
    ensures Inv(Tick(st, now).0)
  {
    if st.clients != [] {
      assert Tick(st, now).0 == Advance(st);
      AdvancePreserves(st);
    }
  }

  /** Capturing a snapshot keeps the invariant. */
  lemma AdvancePreserves(st: State)
    requires Inv(st)
    ensures Inv(Advance(st))
  {
    var n := st.snapshotId + 1;
    var g := ToMap(st.grid);
    RecordWindow(st.history, n, g);
    RecordWithin(st.history, n, g);
    var st' := Advance(st);
    assert st'.history == Record(st.history, n, g) && st'.grid == st.grid;
  }

  /** Recording a grid keeps every recorded grid within that grid's cells. */
  lemma RecordWithin(history: Dict<int, map<string, int>>, n: int, g: map<string, int>)
    requires n >= 1 && Keys(history) == Window(n - 1)
    requires forall i :: 0 <= i < |history| ==> history[i].1.Keys <= g.Keys
    ensures forall i :: 0 <= i < |Record(history, n, g)| ==> Record(history, n, g)[i].1.Keys <= g.Keys
  {
    var h := Record(history, n, g);
    RecordWindow(history, n, g);
    forall i | 0 <= i < |h| ensures h[i].1.Keys <= g.Keys {
      if h[i] != (n, g) {
        var j :| 0 <= j < |history| && history[j] == h[i];
      }
    }
  }

  /** One more client adds that client's packet at the end. */
  lemma PacketsSnoc(st: State, cs: seq<Addr>, i: int, now: Millis)
    requires 0 <= i < |cs|
    ensures Packets(st, cs[..i + 1], now) == Packets(st, cs[..i], now) + PacketFor(st, cs[i], now)
  {
    assert cs[..i + 1][..i] == cs[..i];
  }

  /** A client's packet, when there is one, goes to that client as a type-3
      message with the tick's ids and carries that client's delta. */
  lemma PacketForSpec(st: State, a: Addr, now: Millis)
    ensures |PacketFor(st, a, now)| <= 1
    ensures forall j :: 0 <= j < |PacketFor(st, a, now)| ==> IsDeltaPacket(st, PacketFor(st, a, now)[j]) && PacketFor(st, a, now)[j].to == a
  {
  }

  /** `o` is the tick's snapshot message to its destination. */
  ghost predicate IsDeltaPacket(st: State, o: Outgoing)
  {
    && o.header.msgType == Code(Snapshot)
    && o.header.snapshotId == st.snapshotId
    && o.header.seqNo == st.sequenceNumber
    && o.payload == DeltaPayload(ComputeDelta(st.grid, st.history, AckOf(st.clientLastAck, o.to)))
  }

  /** Every packet of a tick goes to one of the clients, as a type-3 message
      with the tick's ids, carrying that client's delta. */
  lemma {:induction false} PacketsSpec(st: State, cs: seq<Addr>, now: Millis)
    ensures forall j :: 0 <= j < |Packets(st, cs, now)| ==>
      Packets(st, cs, now)[j].to in cs && IsDeltaPacket(st, Packets(st, cs, now)[j])
  {
    if cs != [] {
      var init := cs[..|cs| - 1];
      var last := cs[|cs| - 1];
      PacketsSpec(st, init, now);
      PacketForSpec(st, last, now);
      var out := Packets(st, cs, now);
      var pre := Packets(st, init, now);
      assert out == pre + PacketFor(st, last, now);
      forall j | 0 <= j < |out| ensures out[j].to in cs && IsDeltaPacket(st, out[j]) {
        if j < |pre| {
          assert out[j] == pre[j];
          assert pre[j].to in init;
          var k :| 0 <= k < |init| && init[k] == pre[j].to;
          assert cs[k] == init[k];
        } else {
          assert out[j] == PacketFor(st, last, now)[j - |pre|];
        }
      }
    }
  }

  /** When no pack raises, each client gets exactly one packet, in
      `self.clients` order. */
  lemma {:induction false} PacketsOnePerClient(st: State, cs: seq<Addr>, now: Millis)
    requires forall j :: 0 <= j < |cs| ==> |PacketFor(st, cs[j], now)| == 1
    ensures |Packets(st, cs, now)| == |cs|
    ensures forall j :: 0 <= j < |cs| ==> Packets(st, cs, now)[j].to == cs[j]
  {
    if cs != [] {
      var init := cs[..|cs| - 1];
      var last := cs[|cs| - 1];
      assert cs == init + [last];
      assert forall j :: 0 <= j < |init| ==> init[j] == cs[j];
      PacketsOnePerClient(st, init, now);
      PacketForSpec(st, last, now);
      var out := Packets(st, cs, now);
      var pre := Packets(st, init, now);
      var p := PacketFor(st, last, now);
      assert |p| == 1 && p[0].to == last;
      assert out == pre + p;
    }
  }

  // ---------------------------------------------------------------- handler effects

  /** INIT opens a fresh session for the sender under the next player id
      (replacing any earlier session of that address), resets its cursor to
      0 even when it had acknowledged snapshots, advances the counter by one,
      and leaves the grid and the history alone. */
  lemma InitSession(st: State, from: Addr, now: Millis)
    ensures var st' := OnInit(st, from, now).0;
      && Get(st'.clients, from) == Some(Session(0, 0, PlayerId(st.nextPlayerId)))
      && (forall a :: a != from ==> Get(st'.clients, a) == Get(st.clients, a))
      && st'.clientLastAck == st.clientLastAck[from := 0]
      && st'.nextPlayerId == st.nextPlayerId + 1
      && st'.grid == st.grid && st'.history == st.history && st'.snapshotId == st.snapshotId
  {
    PutGet(st.clients, from, Session(0, 0, PlayerId(st.nextPlayerId)));
  }

  /** INIT is answered by exactly one type-2 message, with zero ids, that the
      client reads back as the assigned player id. */
  lemma InitReply(st: State, from: Addr, now: Millis)
    ensures var out := OnInit(st, from, now).1;
      && |out| == 1 && out[0].to == from
      && out[0].header.msgType == Code(ConnAck)
      && out[0].header.snapshotId == 0 && out[0].header.seqNo == 0
      && ParsePlayer(out[0].payload) == Some(PlayerId(st.nextPlayerId))
  {
    var pid := PlayerId(st.nextPlayerId);
    PlayerTextLength(pid);
    PlayerRoundTrip(pid);
    assert Fits(ConnReply(from, pid, now).header);
  }

  /** A type-4 `ACK k` overwrites the sender's cursor with `k`, whatever it
      was (so the cursor can move backwards), and changes nothing else. */
  lemma SnapAckOverwrites(st: State, from: Addr, payload: string, k: int)
    requires ParseSnapAck(payload) == Some(k)
    ensures var st' := OnSnapAck(st, from, payload);
      && from in st'.clientLastAck && st'.clientLastAck[from] == k
      && (forall a :: a != from && a in st.clientLastAck ==> a in st'.clientLastAck && st'.clientLastAck[a] == st.clientLastAck[a])
      && st'.clients == st.clients && st'.grid == st.grid
      && st'.history == st.history && st'.snapshotId == st.snapshotId
  {
  }

  /** DATA: an `ACK_SNAP:k` overwrites the sender's cursor; an acquire makes
      the named player the owner of the named cell, whoever owned it before,
      and leaves every other cell as it was; a non-integer `k` drops the
      rest of the message. */
  lemma DataEffects(st: State, from: Addr, payload: string)
    ensures var st' := OnData(st, from, payload);
      var e := ParseData(payload);
      && (e.ack.Some? ==> from in st'.clientLastAck && st'.clientLastAck[from] == e.ack.value)
      && (e.ack.None? ==> st'.clientLastAck == st.clientLastAck)
      && (e.acquire.Some? ==> ToMap(st'.grid) == ToMap(st.grid)[e.acquire.value.0 := e.acquire.value.1])
      && (e.acquire.None? ==> st'.grid == st.grid)
      && st'.clients == st.clients && st'.history == st.history && st'.snapshotId == st.snapshotId
  {
    var e := ParseData(payload);
    if e.acquire.Some? {
      var st1 := if e.ack.Some? then st.(clientLastAck := st.clientLastAck[from := e.ack.value]) else st;
      PutToMap(st1.grid, e.acquire.value.0, e.acquire.value.1);
    }
  }

  // ---------------------------------------------------------------- tick effects

  /** A tick without clients changes nothing and sends nothing; a tick with
      clients advances both counters by exactly one and changes neither the
      sessions, the cursors nor the grid. */
  lemma TickCounters(st: State, now: Millis)
    ensures st.clients == [] ==> Tick(st, now) == (st, [])
    ensures st.clients != [] ==>
      var st' := Tick(st, now).0;
      && st'.snapshotId == st.snapshotId + 1
      && st'.sequenceNumber == st.sequenceNumber + 1
      && st'.clients == st.clients && st'.clientLastAck == st.clientLastAck && st'.grid == st.grid
      && st'.nextPlayerId == st.nextPlayerId
  {
  }

  /** A tick with clients (whose new state is `Advance`) records a copy of
      the grid under the new snapshot id, and afterwards the history holds at most one hundred entries, all
      among the last one hundred ids. */
  lemma TickRecords(st: State)
    requires st.snapshotId >= 0 && Keys(st.history) == Window(st.snapshotId)
    ensures var st' := Advance(st);
      && Get(st'.history, st'.snapshotId) == Some(ToMap(st.grid))
      && |st'.history| <= HistoryLimit
      && (forall i :: 0 <= i < |st'.history| ==> st'.snapshotId - HistoryLimit < st'.history[i].0 <= st'.snapshotId)
  {
    var st' := Advance(st);
    RecordLatest(st.history, st'.snapshotId, ToMap(st.grid));
    assert st'.history == Record(st.history, st'.snapshotId, ToMap(st.grid));
  }

  lemma RecordLatest(history: Dict<int, map<string, int>>, n: int, g: map<string, int>)
    requires n >= 1 && Keys(history) == Window(n - 1)
    ensures Get(Record(history, n, g), n) == Some(g)
    ensures |Record(history, n, g)| <= HistoryLimit
    ensures forall i :: 0 <= i < |Record(history, n, g)| ==> n - HistoryLimit < Record(history, n, g)[i].0 <= n
  {
    var r := RecordShape(history, n, g);
    WindowUnique(r, n);
    var last := |r| - 1;
    assert r[last] == (n, g) by {
      if n > HistoryLimit {
        assert r[last] == (history + [(n, g)])[last + 1];
      } else {
        assert r[last] == (history + [(n, g)])[last];
      }
    }
    GetListed(r, last);
    forall i | 0 <= i < |r| ensures n - HistoryLimit < r[i].0 <= n {
      assert Keys(r)[i] == r[i].0;
    }
  }

  /** Ids that ascend by one never repeat. */
  lemma WindowUnique(d: Dict<int, map<string, int>>, n: int)
    requires Keys(d) == Window(n)
    ensures KeysUnique(d)
  {
    forall i, j | 0 <= i < j < |d| ensures d[i].0 != d[j].0 {
      assert Keys(d)[i] == d[i].0 && Keys(d)[j] == d[j].0;
    }
  }

  // ---------------------------------------------------------------- compute_delta

  /** Merging the changed cells into the base gives the current grid back,
      when the base holds no cell the grid lacks. */
  lemma ChangedMerge(grid: Dict<string, int>, base: map<string, int>)
    requires KeysUnique(grid) && base.Keys <= ToMap(grid).Keys
    ensures base + ToMap(ChangedCells(grid, base)) == ToMap(grid)
  {
    ChangedMergeAt(grid, base);
  }

  lemma {:induction false} ChangedMergeAt(grid: Dict<string, int>, base: map<string, int>)
    requires KeysUnique(grid)
    ensures ToMap(ChangedCells(grid, base)).Keys <= ToMap(grid).Keys
    ensures forall k :: k in ToMap(grid) ==> k in base + ToMap(ChangedCells(grid, base))
    ensures forall k :: k in ToMap(grid) ==> (base + ToMap(ChangedCells(grid, base)))[k] == ToMap(grid)[k]
  {
    if grid != [] {
      var p := grid[0];
      var tail := grid[1..];
      assert KeysUnique(tail);
      ChangedMergeAt(tail, base);
      var rest := ChangedCells(tail, base);
      assert p.0 !in ToMap(tail) by {
        ToMapGet(tail, p.0);
        forall j | 0 <= j < |tail| ensures Keys(tail)[j] != p.0 {
          assert tail[j] == grid[j + 1];
        }
      }
      if p.0 in base && base[p.0] == p.1 {
        assert ChangedCells(grid, base) == rest;
      } else {
        assert ChangedCells(grid, base) == [p] + rest;
        assert ([p] + rest)[1..] == rest;
      }
    }
  }

  /** The delta keeps the grid's order: the changed cells of two stretches
      of the grid are those of the first followed by those of the second.
      With the membership clause of `ChangedCells` on a one-entry grid, this
      makes the delta the grid's changed entries, in grid order. */
  lemma {:induction false} ChangedInOrder(g1: Dict<string, int>, g2: Dict<string, int>, base: map<string, int>)
    ensures ChangedCells(g1 + g2, base) == ChangedCells(g1, base) + ChangedCells(g2, base)
    decreases |g1|
  {
    if g1 == [] {
      assert g1 + g2 == g2;
    } else {
      var p, t := g1[0], g1[1..];
      var h: Dict<string, int> := if p.0 !in base || base[p.0] != p.1 then [p] else [];
      var c1, c2 := ChangedCells(t, base), ChangedCells(g2, base);
      SplitHead(g1, g2);
      ChangedCons(p, t + g2, base);
      ChangedInOrder(t, g2, base);
      ChangedCons(p, t, base);
      Regroup(h, c1, c2);
    }
  }

  // The two sequence facts below are stated as lemmas, not asserts: proved
  // inside ChangedInOrder they drag in the quantified contract of every
  // ChangedCells term there and run out of resource.

  lemma SplitHead<T>(g1: seq<T>, g2: seq<T>)
    requires g1 != []
    ensures g1 == [g1[0]] + g1[1..] && g1 + g2 == [g1[0]] + (g1[1..] + g2)
  {
  }

  lemma Regroup<T>(a: seq<T>, b: seq<T>, c: seq<T>)
    ensures a + (b + c) == (a + b) + c
  {
  }

  /** The changed cells of a grid are its first entry, when that one
      changed, followed by the changed cells of the rest. */
  lemma ChangedCons(p: (string, int), rest: Dict<string, int>, base: map<string, int>)
    ensures ChangedCells([p] + rest, base)
      == (if p.0 !in base || base[p.0] != p.1 then [p] else []) + ChangedCells(rest, base)
  {
    assert ([p] + rest)[1..] == rest;
  }

  /** `compute_delta(b)` against a base still in the history, merged into
      that base, is the current grid. */
  lemma DeltaMerge(st: State, b: int)
    requires Inv(st) && b != 0 && Get(st.history, b).Some?
    ensures Get(st.history, b).value + ToMap(ComputeDelta(st.grid, st.history, b)) == ToMap(st.grid)
  {
    GetKeys(st.history, b);
    var i := GetFound(st.history, b);
    ChangedMerge(st.grid, st.history[i].1);
  }
}
