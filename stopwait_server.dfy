/** The stop-and-wait server (Aser_GUI/server.py): it numbers the clients
    that connect, lets a client take a free cell, and every broadcast tick
    sends each client the whole grid as a DELTA (when the grid changed and
    the client acknowledged its last message), a FULL snapshot (when the
    grid changed and it did not) or an empty HEARTBEAT (when nothing
    changed). */
module StopWaitServer {
  import opened Common
  import opened PyText
  import opened OrderedDict
  import opened Wire
  import opened Json

  // ---------------------------------------------------------------- message types

  /** `INIT=0, ACK=1, EVENT=2, FULL=3, DELTA=4, HEARTBEAT=5`. */
  datatype MsgType = Init | Ack | Event | Full | Delta | Heartbeat

  function Code(t: MsgType): int
  {
    match t
    case Init => 0
    case Ack => 1
    case Event => 2
    case Full => 3
    case Delta => 4
    case Heartbeat => 5
  }

  // ---------------------------------------------------------------- state

  const Rows: int := 10
  const Cols: int := 10

  /** `grid[r][c]`: 0 for a free cell, otherwise the number of the client
      that took it. */
  type Grid = seq<seq<int>>

  predicate IsGrid(g: Grid)
  {
    |g| == Rows && forall r :: 0 <= r < Rows ==> |g[r]| == Cols
  }

  function EmptyGrid(): (g: Grid)
    ensures IsGrid(g) && forall r, c :: 0 <= r < Rows && 0 <= c < Cols ==> g[r][c] == 0
  {
    seq(Rows, _ => seq(Cols, _ => 0))
  }

  /** A `clients` entry. */
  datatype Entry = Entry(seqNo: int, lastSnapshot: int, number: int, lastAck: bool)

  /** The module's globals, as one value. `alive` is false once an exception
      has ended the main loop (which catches nothing), `broadcasting` once
      one has ended the broadcast thread. */
  datatype State = State(
    clients: Dict<Addr, Entry>,
    clientNumber: int,
    grid: Grid,
    modified: bool,
    alive: bool,
    broadcasting: bool)

  function Initial(): State
  {
    State([], 0, EmptyGrid(), true, true, true)
  }

  /** What stays true: one entry per address, a 10x10 grid, client numbers
      handed out from 1 up to the counter, and every taken cell holding one
      of those numbers. */
  ghost predicate Inv(st: State)
  {
    && KeysUnique(st.clients) && IsGrid(st.grid) && st.clientNumber >= 0
    && (forall i :: 0 <= i < |st.clients| ==> 1 <= st.clients[i].1.number <= st.clientNumber)
    && (forall r, c :: 0 <= r < Rows && 0 <= c < Cols ==> 0 <= st.grid[r][c] <= st.clientNumber)
  }

  // ---------------------------------------------------------------- handlers

  /** The connection ACK: type 1, zero ids, no payload. */
  function AckReply(to: Addr, now: Millis): Outgoing
  {
    Outgoing(to, MakeHeader(DomxMagic, Code(Ack), 0, 0, now, ""), "")
  }

  /** INIT: the next client number, a fresh entry (replacing any earlier
      one), the ACK, and a FULL snapshot as the entry's first message. When
      that snapshot does not pack, the exception ends the main loop after
      the ACK went out. */
  function OnInit(st: State, from: Addr, now: Millis): (State, seq<Outgoing>)
  {
    var n := st.clientNumber + 1;
    var json := Dumps(st.grid);
    var full := Outgoing(from, MakeHeader(DomxMagic, Code(Full), 1, 1, now, json), json);
    var st' := st.(clientNumber := n, clients := Put(st.clients, from, Entry(1, 1, n, false)));
    if Fits(full.header) then (st', [AckReply(from, now), full])
    else (st'.(alive := false), [AckReply(from, now)])
  }

  /** ACK: only a registered client's flag is set. */
  function OnAck(st: State, from: Addr): State
  {
    match Get(st.clients, from)
    case None => st
    case Some(e) => st.(clients := Put(st.clients, from, e.(lastAck := true)))
  }

  /** `ACQUIRE_CELL r c`: exactly three tokens, the first one the keyword,
      the other two integers; `None` otherwise. */
  function EventCell(msg: string): (r: Option<(int, int)>)
    ensures r.Some? ==> |SplitWs(msg)| == 3 && SplitWs(msg)[0] == "ACQUIRE_CELL"
    ensures r.Some? ==> ParseInt(SplitWs(msg)[1]) == Some(r.value.0) && ParseInt(SplitWs(msg)[2]) == Some(r.value.1)
  {
    var parts := SplitWs(msg);
    if |parts| == 3 && parts[0] == "ACQUIRE_CELL" then
      match (ParseInt(parts[1]), ParseInt(parts[2]))
      case (Some(r), Some(c)) => Some((r, c))
      case _ => None
    else None
  }

  /** The cell is on the grid and nobody holds it. */
  predicate Free(g: Grid, r: int, c: int)
  {
    0 <= r < Rows && 0 <= c < Cols && r < |g| && c < |g[r]| && g[r][c] == 0
  }

  /** EVENT: the grid counts as modified whatever the payload; a payload
      that is not UTF-8 ends the main loop; a registered client's request
      for a free cell gives it the client's number; anything else (an
      unregistered sender, a taken or off-grid cell, a malformed request)
      changes no cell. */
  function OnEvent(st: State, from: Addr, data: seq<byte>, h: Header): State
    requires |data| >= HeaderSize
  {
    var st1 := st.(modified := true);
    match PayloadText(data, h)
    case None => st1.(alive := false)
    case Some(msg) =>
      match EventCell(msg)
      case None => st1
      case Some((r, c)) =>
        match Get(st.clients, from)
        case None => st1
        case Some(e) =>
          if Free(st.grid, r, c) then st1.(grid := st.grid[r := st.grid[r][c := e.number]]) else st1
  }

  /** One pass of the main loop for a datagram from `from`; nothing happens
      once the loop has ended. A datagram too short for the header ends it. */
  function Handle(st: State, from: Addr, data: seq<byte>, now: Millis): (r: (State, seq<Outgoing>))
    ensures !st.alive ==> r == (st, [])
    ensures st.alive && |data| < HeaderSize ==> !r.0.alive
    ensures |r.1| <= 2 && forall i :: 0 <= i < |r.1| ==> r.1[i].to == from
    ensures r.0.broadcasting == st.broadcasting && r.0.clientNumber >= st.clientNumber
  {
    if !st.alive then (st, [])
    else
      match Unpack(data)
      case None => (st.(alive := false), [])
      case Some(h) =>
        if h.msgType == Code(Init) then OnInit(st, from, now)
        else if h.msgType == Code(Ack) then (OnAck(st, from), [])
        else if h.msgType == Code(Event) then (OnEvent(st, from, data, h), [])
        else (st, [])
  }

  // ---------------------------------------------------------------- broadcast tick

  /** The message a client gets this tick. */
  function Kind(e: Entry, modified: bool): (k: MsgType)
    ensures k == Heartbeat <==> !modified
    ensures k == Delta <==> modified && e.lastAck
    ensures k == Full <==> modified && !e.lastAck
  {
    if modified && e.lastAck then Delta
    else if !modified then Heartbeat
    else Full
  }

  /** The entry with both counters moved on, as the tick does first. */
  function Counted(e: Entry): Entry
  {
    e.(lastSnapshot := e.lastSnapshot + 1, seqNo := e.seqNo + 1)
  }

  /** The payload of a message of that kind: nothing for a HEARTBEAT. */
  function KindPayload(k: MsgType, json: string): string
  {
    if k == Heartbeat then "" else json
  }

  function TickHeader(e: Entry, modified: bool, json: string, now: Millis): Header
  {
    var k := Kind(e, modified);
    MakeHeader(DomxMagic, Code(k), Counted(e).lastSnapshot, Counted(e).seqNo, now, KindPayload(k, json))
  }

  /** One entry's turn in the tick: its counters move, then its message is
      packed; a DELTA clears its flag. `None` when the header does not pack,
      which raises with the counters already moved. */
  function TickOne(a: Addr, e: Entry, modified: bool, json: string, now: Millis): (r: (Entry, Option<Outgoing>))
    ensures r.0.seqNo == e.seqNo + 1 && r.0.lastSnapshot == e.lastSnapshot + 1 && r.0.number == e.number
    ensures r.0.lastAck <==> e.lastAck && !(modified && r.1.Some?)
    ensures r.1.Some? ==> var o := r.1.value;
      && o.to == a && Fits(o.header) && o.header.msgType == Code(Kind(e, modified))
      && o.header.snapshotId == e.lastSnapshot + 1 && o.header.seqNo == e.seqNo + 1
      && o.header.payloadLen == |Utf8.Encode(o.payload)|
      && o.payload == (if modified then json else "")
  {
    var h := TickHeader(e, modified, json, now);
    var k := Kind(e, modified);
    if !Fits(h) then (Counted(e), None)
    else (if k == Delta then Counted(e).(lastAck := false) else Counted(e), Some(Outgoing(a, h, KindPayload(k, json))))
  }

  datatype TickResult = TickResult(clients: Dict<Addr, Entry>, out: seq<Outgoing>, ok: bool)

  /** The tick's loop over the entries `cs` after its first `n` turns: the
      entries as they then stand, the messages sent so far, and whether no
      header has yet failed to pack. The first one that does not pack ends
      the broadcast thread (`ok` false) and with it the loop. */
  function TickUpTo(cs: Dict<Addr, Entry>, n: int, modified: bool, json: string, now: Millis): (r: TickResult)
    requires 0 <= n <= |cs|
    ensures |r.clients| == |cs|
    ensures |r.out| <= n
  {
    if n == 0 then TickResult(cs, [], true)
    else
      var p := TickUpTo(cs, n - 1, modified, json, now);
      if !p.ok then p
      else
        var a := p.clients[n - 1].0;
        var t := TickOne(a, p.clients[n - 1].1, modified, json, now);
        TickResult(p.clients[n - 1 := (a, t.0)], p.out + (if t.1.Some? then [t.1.value] else []), t.1.Some?)
  }

  /** One round of `broadcast_snapshots`: the loop over the clients, then
      the modified flag cleared; nothing once the thread or the process has
      ended. */
  function Tick(st: State, now: Millis): (r: (State, seq<Outgoing>))
    ensures r.0.grid == st.grid && r.0.clientNumber == st.clientNumber && r.0.alive == st.alive
    ensures |r.0.clients| == |st.clients| && |r.1| <= |st.clients|
    ensures st.alive && r.0.broadcasting ==> !r.0.modified
  {
    if !st.alive || !st.broadcasting then (st, [])
    else
      var r := TickUpTo(st.clients, |st.clients|, st.modified, Dumps(st.grid), now);
      (st.(clients := r.clients, modified := if r.ok then false else st.modified, broadcasting := r.ok), r.out)
  }

  // ---------------------------------------------------------------- the server object

  /** The array's rows, as the list of lists `json.dumps` sees. */
  function Rows2(a: array2<int>): (g: Grid)
    reads a
    ensures |g| == a.Length0
    ensures forall r :: 0 <= r < a.Length0 ==> |g[r]| == a.Length1
    ensures forall r, c :: 0 <= r < a.Length0 && 0 <= c < a.Length1 ==> g[r][c] == a[r, c]
  {
    seq(a.Length0, r requires 0 <= r < a.Length0 reads a =>
      seq(a.Length1, c requires 0 <= c < a.Length1 reads a => a[r, c]))
  }

  class Server {
    var clients: Dict<Addr, Entry>
    var clientNumber: int
    var grid: array2<int>
    var modifiedFlag: bool
    var alive: bool
    var broadcasting: bool

    function Fields(): State
      reads this, grid
    {
      State(clients, clientNumber, Rows2(grid), modifiedFlag, alive, broadcasting)
    }

    ghost predicate Valid()
      reads this, grid
    {
      grid.Length0 == Rows && grid.Length1 == Cols && Inv(Fields())
    }

    constructor ()
      ensures Fields() == Initial() && Valid() && fresh(grid)
    {
      clients := [];
      clientNumber := 0;
      grid := new int[Rows, Cols]((r, c) => 0);
      modifiedFlag := true;
      alive := true;
      broadcasting := true;
      new;
      SameGrid(Rows2(grid), EmptyGrid());
    }

    /** One datagram taken off the socket by the main loop. */
    method Receive(from: Addr, data: seq<byte>, now: Millis) returns (out: seq<Outgoing>)
      requires Valid()
      modifies this, grid
      ensures grid == old(grid) && Valid()
      ensures (Fields(), out) == Handle(old(Fields()), from, data, now)
    {
      ghost var st := Fields();
      HandlePreserves(st, from, data, now);
      out := [];
      if alive {
        var u := Unpack(data);
        if u.None? {
          alive := false;
        } else if u.value.msgType == 0 {
          out := Register(from, now);
        } else if u.value.msgType == 1 {
          MarkAck(from);
        } else if u.value.msgType == 2 {
          TakeCell(from, data, u.value);
        }
      }
    }

    /** The INIT branch. */
    method Register(from: Addr, now: Millis) returns (out: seq<Outgoing>)
      requires grid.Length0 == Rows && grid.Length1 == Cols
      modifies this
      ensures grid == old(grid) && grid.Length0 == Rows && grid.Length1 == Cols
      ensures (Fields(), out) == OnInit(old(Fields()), from, now)
    {
      ghost var st := Fields();
      var n := clientNumber + 1;
      FreshEntry(clients, from, n);
      var cs := Put(clients, from, Entry(0, 0, n, false));
      out := [AckReply(from, now)];
      var json := Dumps(Rows2(grid));
      var e := Get(cs, from).value;
      cs := Put(cs, from, e.(lastSnapshot := e.lastSnapshot + 1, seqNo := e.seqNo + 1));
      assert cs == Put(st.clients, from, Entry(1, 1, n, false)) && json == Dumps(st.grid);
      clientNumber, clients := n, cs;
      ghost var st' := st.(clientNumber := n, clients := cs);
      assert Fields() == st';
      var h := MakeHeader(DomxMagic, Code(Full), 1, 1, now, json);
      if !Fits(h) {
        alive := false;
        assert OnInit(st, from, now) == (st'.(alive := false), out);
      } else {
        out := out + [Outgoing(from, h, json)];
        assert out == [AckReply(from, now), Outgoing(from, h, json)];
        assert OnInit(st, from, now) == (st', out);
      }
      assert st == old(Fields());
    }

    /** The ACK branch. */
    method MarkAck(from: Addr)
      modifies this
      ensures grid == old(grid)
      ensures Fields() == OnAck(old(Fields()), from)
    {
      var entry := Get(clients, from);
      if entry.Some? {
        clients := Put(clients, from, entry.value.(lastAck := true));
      }
    }

    /** The EVENT branch. */
    method TakeCell(from: Addr, data: seq<byte>, h: Header)
      requires |data| >= HeaderSize && grid.Length0 == Rows && grid.Length1 == Cols
      modifies this, grid
      ensures grid == old(grid) && grid.Length0 == Rows && grid.Length1 == Cols
      ensures Fields() == OnEvent(old(Fields()), from, data, h)
    {
      modifiedFlag := true;
      var text := PayloadText(data, h);
      if text.None? {
        alive := false;
        return;
      }
      var cell := EventCell(text.value);
      if cell.None? {
        return;
      }
      var (r, c) := cell.value;
      var entry := Get(clients, from);
      if entry.None? {
        return;
      }
      if 0 <= r < Rows && 0 <= c < Cols && grid[r, c] == 0 {
        ghost var g := Rows2(grid);
        grid[r, c] := entry.value.number;
        SameGrid(Rows2(grid), g[r := g[r][c := entry.value.number]]);
      }
    }

    /** One round of `broadcast_snapshots`. */
    method Broadcast(now: Millis) returns (out: seq<Outgoing>)
      requires Valid()
      modifies this
      ensures grid == old(grid) && Valid()
      ensures (Fields(), out) == Tick(old(Fields()), now)
    {
      TickPreserves(Fields(), now);
      out := [];
      if !alive || !broadcasting {
        return;
      }
      var json := Dumps(Rows2(grid));
      var ok;
      out, ok := SendAll(json, now);
      if ok {
        modifiedFlag := false;
      } else {
        broadcasting := false;
      }
    }

    /** The loop of `broadcast_snapshots` over the entries, in order; `ok`
        is false when a header did not pack, which leaves the entries as
        they were at that point. */
    method SendAll(json: string, now: Millis) returns (out: seq<Outgoing>, ok: bool)
      modifies this`clients
      ensures TickResult(clients, out, ok) == TickUpTo(old(clients), |old(clients)|, modifiedFlag, json, now)
    {
      ghost var cs0 := clients;
      out := [];
      var i := 0;
      while i < |clients|
        invariant |clients| == |cs0| && 0 <= i <= |clients|
        invariant TickResult(clients, out, true) == TickUpTo(cs0, i, modifiedFlag, json, now)
      {
        var a := clients[i].0;
        var e, o := TickEntry(a, clients[i].1, modifiedFlag, json, now);
        clients := clients[i := (a, e)];
        if o.None? {
          TickStopped(cs0, i + 1, |cs0|, modifiedFlag, json, now);
          return out, false;
        }
        out := out + [o.value];
        i := i + 1;
      }
      ok := true;
    }
  }

  /** The body of that loop for one entry: both counters move on, the
      message is chosen and packed, and a DELTA clears the flag; `None` when
      packing raises, with the counters already moved. */
  method TickEntry(a: Addr, e0: Entry, modified: bool, json: string, now: Millis) returns (e: Entry, o: Option<Outgoing>)
    ensures (e, o) == TickOne(a, e0, modified, json, now)
  {
    e := e0.(lastSnapshot := e0.lastSnapshot + 1, seqNo := e0.seqNo + 1);
    var h: Header;
    var payload: string;
    if modified && e.lastAck {
      payload := json;
      h := MakeHeader(DomxMagic, Code(Delta), e.lastSnapshot, e.seqNo, now, payload);
    } else if !modified {
      payload := "";
      h := MakeHeader(DomxMagic, Code(Heartbeat), e.lastSnapshot, e.seqNo, now, payload);
    } else {
      payload := json;
      h := MakeHeader(DomxMagic, Code(Full), e.lastSnapshot, e.seqNo, now, payload);
    }
    if !Fits(h) {
      return e, None;
    }
    o := Some(Outgoing(a, h, payload));
    if h.msgType == Code(Delta) {
      e := e.(lastAck := false);
    }
  }

  // ---------------------------------------------------------------- lemmas

  /** Storing a zeroed entry and then moving both its counters on is
      storing the counted entry. */
  lemma FreshEntry(cs: Dict<Addr, Entry>, a: Addr, n: int)
    ensures var e := Entry(0, 0, n, false);
      && Get(Put(cs, a, e), a) == Some(e)
      && Put(Put(cs, a, e), a, Entry(1, 1, n, false)) == Put(cs, a, Entry(1, 1, n, false))
  {
    PutGetSame(cs, a, Entry(0, 0, n, false));
    PutTwice(cs, a, Entry(0, 0, n, false), Entry(1, 1, n, false));
  }

  /** Two grids with the same cells are the same grid. */
  lemma SameGrid(a: Grid, b: Grid)
    requires IsGrid(a) && IsGrid(b)
    requires forall r, c :: 0 <= r < Rows && 0 <= c < Cols ==> a[r][c] == b[r][c]
    ensures a == b
  {
    forall r | 0 <= r < Rows ensures a[r] == b[r] {
    }
  }

  /** Every handler keeps the invariant, and no handler ever changes a
      taken cell: a cell changes only from free to the number of the
      registered client that asked for it. */
  lemma HandlePreserves(st: State, from: Addr, data: seq<byte>, now: Millis)
    requires Inv(st)
    ensures var st' := Handle(st, from, data, now).0;
      && Inv(st')
      && forall r, c :: 0 <= r < Rows && 0 <= c < Cols ==>
           || st'.grid[r][c] == st.grid[r][c]
           || (st.grid[r][c] == 0 && Get(st.clients, from).Some? && st'.grid[r][c] == Get(st.clients, from).value.number)
  {
    if st.alive && |data| >= HeaderSize {
      var h := Unpack(data).value;
      if h.msgType == Code(Init) {
        InitPreserves(st, from, now);
      } else if h.msgType == Code(Ack) {
        AckPreserves(st, from);
      } else if h.msgType == Code(Event) {
        EventPreserves(st, from, data, h);
      }
    }
  }

  lemma InitPreserves(st: State, from: Addr, now: Millis)
    requires Inv(st)
    ensures var st' := OnInit(st, from, now).0; Inv(st') && st'.grid == st.grid
  {
    var n := st.clientNumber + 1;
    PutUnique(st.clients, from, Entry(1, 1, n, false));
    NumbersBounded(st.clients, from, Entry(1, 1, n, false), n);
    var st1 := st.(clientNumber := n, clients := Put(st.clients, from, Entry(1, 1, n, false)));
    assert Inv(st1) && Inv(st1.(alive := false));
    assert OnInit(st, from, now).0 in {st1, st1.(alive := false)};
  }

  lemma AckPreserves(st: State, from: Addr)
    requires Inv(st)
    ensures var st' := OnAck(st, from); Inv(st') && st'.grid == st.grid
  {
    match Get(st.clients, from)
    case None =>
    case Some(e) =>
      PutUnique(st.clients, from, e.(lastAck := true));
      GetKeys(st.clients, from);
      var i := GetFound(st.clients, from);
      NumbersBounded(st.clients, from, e.(lastAck := true), st.clientNumber);
  }

  lemma EventPreserves(st: State, from: Addr, data: seq<byte>, h: Header)
    requires Inv(st) && |data| >= HeaderSize
    ensures var st' := OnEvent(st, from, data, h);
      && Inv(st')
      && forall r, c :: 0 <= r < Rows && 0 <= c < Cols ==>
           || st'.grid[r][c] == st.grid[r][c]
           || (st.grid[r][c] == 0 && Get(st.clients, from).Some? && st'.grid[r][c] == Get(st.clients, from).value.number)
  {
    var st1 := st.(modified := true);
    assert Inv(st1) && Inv(st1.(alive := false));
    var st' := OnEvent(st, from, data, h);
    var text := PayloadText(data, h);
    var e := Get(st.clients, from);
    if text.Some? && EventCell(text.value).Some? && e.Some?
       && Free(st.grid, EventCell(text.value).value.0, EventCell(text.value).value.1)
    {
      var (r, c) := EventCell(text.value).value;
      GetKeys(st.clients, from);
      var i := GetFound(st.clients, from);
      Claim(st.grid, r, c, e.value.number, st.clientNumber);
      assert st' == st1.(grid := st.grid[r := st.grid[r][c := e.value.number]]);
    } else {
      assert st' in {st1, st1.(alive := false)};
    }
  }

  /** Giving a free cell a number within the bound changes that cell only
      and keeps every cell within the bound. */
  lemma Claim(g: Grid, r: int, c: int, v: int, bound: int)
    requires IsGrid(g) && Free(g, r, c) && 0 <= v <= bound
    requires forall x, y :: 0 <= x < Rows && 0 <= y < Cols ==> 0 <= g[x][y] <= bound
    ensures var g' := g[r := g[r][c := v]];
      && IsGrid(g')
      && (forall x, y :: 0 <= x < Rows && 0 <= y < Cols ==> 0 <= g'[x][y] <= bound)
      && (forall x, y :: 0 <= x < Rows && 0 <= y < Cols ==> g'[x][y] == g[x][y] || (g[x][y] == 0 && g'[x][y] == v))
  {
  }

  /** Storing an entry whose number is within the counter keeps every number
      within it. */
  lemma NumbersBounded(cs: Dict<Addr, Entry>, a: Addr, e: Entry, n: int)
    requires forall i :: 0 <= i < |cs| ==> 1 <= cs[i].1.number <= n
    requires 1 <= e.number <= n
    ensures forall i :: 0 <= i < |Put(cs, a, e)| ==> 1 <= Put(cs, a, e)[i].1.number <= n
  {
    var cs' := Put(cs, a, e);
    forall i | 0 <= i < |cs'| ensures 1 <= cs'[i].1.number <= n {
      assert cs'[i] in cs';
      PutEntries(cs, a, e, cs'[i]);
    }
  }

  // ---------------------------------------------------------------- the broadcast tick

  /** An entry after a tick that packed: both counters one higher, the
      flag kept only when the grid was not modified. */
  function Ticked(e: Entry, modified: bool): Entry
  {
    Entry(e.seqNo + 1, e.lastSnapshot + 1, e.number, e.lastAck && !modified)
  }

  /** Once a header has failed to pack, the loop does nothing more. */
  lemma {:induction false} TickStopped(cs: Dict<Addr, Entry>, k: int, n: int, modified: bool, json: string, now: Millis)
    requires 0 <= k <= n <= |cs| && !TickUpTo(cs, k, modified, json, now).ok
    ensures TickUpTo(cs, n, modified, json, now) == TickUpTo(cs, k, modified, json, now)
    decreases n - k
  {
    if k < n {
      TickStopped(cs, k, n - 1, modified, json, now);
    }
  }

  /** The tick keeps every entry's address and number, and the entries stay
      in their order. */
  lemma {:induction false} TickKeys(cs: Dict<Addr, Entry>, n: int, modified: bool, json: string, now: Millis)
    requires 0 <= n <= |cs|
    ensures var r := TickUpTo(cs, n, modified, json, now);
      forall j :: 0 <= j < |cs| ==> r.clients[j].0 == cs[j].0 && r.clients[j].1.number == cs[j].1.number
  {
    if n > 0 {
      TickKeys(cs, n - 1, modified, json, now);
    }
  }

  /** The tick completes exactly when every client's header packs. */
  lemma {:induction false} TickOk(cs: Dict<Addr, Entry>, n: int, modified: bool, json: string, now: Millis)
    requires 0 <= n <= |cs|
    ensures var r := TickUpTo(cs, n, modified, json, now);
      && (r.ok <==> forall j :: 0 <= j < n ==> Fits(TickHeader(cs[j].1, modified, json, now)))
      && (r.ok ==> forall j :: n <= j < |cs| ==> r.clients[j] == cs[j])
  {
    if n > 0 {
      TickOk(cs, n - 1, modified, json, now);
    }
  }

  /** A completed tick sends every client, in order, the message `Kind`
      picks with both counters moved on, and leaves each entry `Ticked`. */
  lemma {:induction false} TickSent(cs: Dict<Addr, Entry>, n: int, modified: bool, json: string, now: Millis)
    requires 0 <= n <= |cs| && TickUpTo(cs, n, modified, json, now).ok
    ensures var r := TickUpTo(cs, n, modified, json, now);
      && |r.out| == n
      && forall j :: 0 <= j < n ==>
           && r.clients[j] == (cs[j].0, Ticked(cs[j].1, modified))
           && r.out[j] == Outgoing(cs[j].0, TickHeader(cs[j].1, modified, json, now), KindPayload(Kind(cs[j].1, modified), json))
  {
    if n > 0 {
      TickSent(cs, n - 1, modified, json, now);
      TickOk(cs, n - 1, modified, json, now);
    }
  }

  /** The broadcast tick keeps the invariant and never touches the grid or
      the client counter. */
  lemma TickPreserves(st: State, now: Millis)
    requires Inv(st)
    ensures var st' := Tick(st, now).0;
      Inv(st') && st'.grid == st.grid && st'.clientNumber == st.clientNumber
  {
    TickKeys(st.clients, |st.clients|, st.modified, Dumps(st.grid), now);
  }

  /** The stop-and-wait rule of a completed tick: a client gets a DELTA
      (type 4) exactly when the grid was modified and the client had
      acknowledged, a HEARTBEAT (type 5, empty) exactly when the grid was
      not modified, and a FULL snapshot (type 3) otherwise; DELTA and FULL
      carry the grid as JSON; the snapshot id and sequence number are one
      past the entry's; afterwards the grid counts as unmodified and a
      client stays acknowledged only when nothing was sent but a HEARTBEAT. */
  lemma StopAndWait(st: State, now: Millis)
    requires st.alive && st.broadcasting
    ensures var (st', out) := Tick(st, now);
      st'.broadcasting ==>
        && !st'.modified && |out| == |st.clients| == |st'.clients|
        && forall i :: 0 <= i < |st.clients| ==>
             var (a, e) := st.clients[i];
             && out[i].to == a && st'.clients[i].0 == a
             && (out[i].header.msgType == 4 <==> st.modified && e.lastAck)
             && (out[i].header.msgType == 5 <==> !st.modified)
             && (out[i].header.msgType == 3 <==> st.modified && !e.lastAck)
             && out[i].payload == (if st.modified then Dumps(st.grid) else "")
             && out[i].header.magic == DomxMagic
             && out[i].header.snapshotId == e.lastSnapshot + 1
             && out[i].header.seqNo == e.seqNo + 1
             && st'.clients[i].1 == Entry(e.seqNo + 1, e.lastSnapshot + 1, e.number, e.lastAck && !st.modified)
  {
    var r := TickUpTo(st.clients, |st.clients|, st.modified, Dumps(st.grid), now);
    if r.ok {
      TickSent(st.clients, |st.clients|, st.modified, Dumps(st.grid), now);
    }
  }

  /** A tick whose headers all pack completes; one that does not stops the
      broadcast thread for good, with the grid still marked as modified. */
  lemma TickStops(st: State, now: Millis, later: Millis)
    requires st.alive && st.broadcasting
    ensures var (st', out) := Tick(st, now);
      && (st'.broadcasting <==> forall i :: 0 <= i < |st.clients| ==> Fits(TickHeader(st.clients[i].1, st.modified, Dumps(st.grid), now)))
      && (!st'.broadcasting ==> st'.modified == st.modified && Tick(st', later) == (st', []))
  {
    TickOk(st.clients, |st.clients|, st.modified, Dumps(st.grid), now);
  }

  // ---------------------------------------------------------------- the handlers

  /** The server starts in a state that keeps the invariant. */
  lemma InitialInv()
    ensures Inv(Initial()) && Initial().clients == [] && Initial().modified
  {
  }

  /** INIT registers the sender under the next client number (replacing an
      earlier entry of the same address) and changes no cell. */
  lemma InitRegisters(st: State, from: Addr, data: seq<byte>, now: Millis)
    requires st.alive
    requires Unpack(data).Some? && Unpack(data).value.msgType == 0
    ensures var st' := Handle(st, from, data, now).0;
      && Get(st'.clients, from) == Some(Entry(1, 1, st.clientNumber + 1, false))
      && (forall a :: a != from ==> Get(st'.clients, a) == Get(st.clients, a))
      && st'.clientNumber == st.clientNumber + 1 && st'.grid == st.grid
  {
    HandleInit(st, from, data, now);
    var e := Entry(1, 1, st.clientNumber + 1, false);
    InitState(st, from, now);
    PutGet(st.clients, from, e);
  }

  /** A live server handles a datagram of type 0 as an INIT. */
  lemma HandleInit(st: State, from: Addr, data: seq<byte>, now: Millis)
    requires st.alive
    requires Unpack(data).Some? && Unpack(data).value.msgType == 0
    ensures Handle(st, from, data, now) == OnInit(st, from, now)
  {
  }

  /** INIT's new state, whether or not the FULL snapshot packs. */
  lemma InitState(st: State, from: Addr, now: Millis)
    ensures var st' := OnInit(st, from, now).0;
      && st'.clients == Put(st.clients, from, Entry(1, 1, st.clientNumber + 1, false))
      && st'.clientNumber == st.clientNumber + 1 && st'.grid == st.grid
  {
  }

  /** INIT is answered with the ACK and then, unless packing it raises, a
      FULL snapshot of the grid with snapshot id and sequence number 1. */
  lemma InitReplies(st: State, from: Addr, data: seq<byte>, now: Millis)
    requires st.alive
    requires Unpack(data).Some? && Unpack(data).value.msgType == 0
    ensures var (st', out) := Handle(st, from, data, now);
      && 1 <= |out| <= 2 && out[0] == AckReply(from, now) && out[0].header.msgType == 1
      && (|out| == 2 <==> st'.alive)
      && (|out| == 2 ==>
            && out[1].to == from && out[1].header.msgType == 3
            && out[1].header.snapshotId == 1 && out[1].header.seqNo == 1
            && Loads(out[1].payload) == Some(st.grid))
  {
    assert Handle(st, from, data, now) == OnInit(st, from, now);
    LoadsDumps(st.grid);
  }

  /** ACK marks a registered sender as acknowledged and changes nothing
      else; from an unknown address it changes nothing at all. */
  lemma AckMarks(st: State, from: Addr, data: seq<byte>, now: Millis)
    requires st.alive && Unpack(data).Some? && Unpack(data).value.msgType == 1
    ensures var (st', out) := Handle(st, from, data, now);
      && out == []
      && (Get(st.clients, from).None? ==> st' == st)
      && (Get(st.clients, from).Some? ==>
            && Get(st'.clients, from) == Some(Get(st.clients, from).value.(lastAck := true))
            && (forall a :: a != from ==> Get(st'.clients, a) == Get(st.clients, a))
            && st' == st.(clients := st'.clients))
  {
    if Get(st.clients, from).Some? {
      PutGet(st.clients, from, Get(st.clients, from).value.(lastAck := true));
    }
  }

  /** EVENT always marks the grid as modified; a well-formed request of a
      registered client for a free cell gives exactly that cell the
      client's number; every other request leaves the grid alone. */
  lemma EventTakes(st: State, from: Addr, data: seq<byte>, now: Millis)
    requires Inv(st) && st.alive && Unpack(data).Some? && Unpack(data).value.msgType == 2
    ensures var (st', out) := Handle(st, from, data, now);
      && out == [] && st'.modified && st'.clients == st.clients
      && (PayloadText(data, Unpack(data).value).Some? <==> st'.alive)
      && st'.grid == (
           var t := PayloadText(data, Unpack(data).value);
           if t.Some? && EventCell(t.value).Some? && Get(st.clients, from).Some?
              && Free(st.grid, EventCell(t.value).value.0, EventCell(t.value).value.1)
           then
             var (r, c) := EventCell(t.value).value;
             st.grid[r := st.grid[r][c := Get(st.clients, from).value.number]]
           else st.grid)
  {
  }

  /** Any datagram shorter than the header ends the main loop, and from
      then on the server ignores everything. */
  lemma ShortDatagramStops(st: State, from: Addr, data: seq<byte>, now: Millis, later: seq<byte>, from': Addr, now': Millis)
    requires |data| < HeaderSize
    ensures var st' := Handle(st, from, data, now).0;
      && !st'.alive && Handle(st', from', later, now') == (st', [])
  {
  }
}
