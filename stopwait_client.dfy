/** The stop-and-wait client (Aser_GUI/client.py): it sends INIT, waits for
    any reply, then a listener thread adopts every FULL or DELTA snapshot's
    grid as its view of the cells and acknowledges every FULL, DELTA and
    HEARTBEAT; a click on a cell sends `ACQUIRE_CELL r c`. */
module StopWaitClient {
  import opened Common
  import opened PyText
  import opened OrderedDict
  import opened Wire
  import opened Json
  import Gclp
  import opened StopWaitServer

  /** `(serverName, serverPort)`. */
  const ServerAddr: Addr := Addr("localhost", 12000)

  /** Where the script stands: blocked in the handshake's `recvfrom`; with
      its listener thread running; with the listener ended by an exception
      (the window stays open and clicks still go out); or ended, because the
      handshake reply was too short to unpack. */
  datatype Phase = AwaitingAck | Listening | ListenerStopped | Dead

  /** `cell_owner` and the phase. */
  datatype View = View(cellOwner: Grid, phase: Phase)

  function Start(): View
  {
    View(EmptyGrid(), AwaitingAck)
  }

  /** The INIT packet: type 0, zero ids, no payload. */
  function InitPacket(now: Millis): Outgoing
  {
    Outgoing(ServerAddr, MakeHeader(DomxMagic, Code(Init), 0, 0, now, ""), "")
  }

  /** The handshake: any reply long enough to unpack counts as the ACK,
      whatever its type; a shorter one raises at top level. */
  function OnHandshake(v: View, data: seq<byte>): View
  {
    if v.phase != AwaitingAck then v
    else if Unpack(data).None? then v.(phase := Dead)
    else v.(phase := Listening)
  }

  /** `f"ACQUIRE_CELL {r} {c}"`. */
  function ClickText(r: int, c: int): string
  {
    "ACQUIRE_CELL " + IntToString(r) + " " + IntToString(c)
  }

  /** `on_cell_click(r, c)`: an EVENT with zero ids to the server. */
  function ClickPacket(r: int, c: int, now: Millis): Outgoing
  {
    Outgoing(ServerAddr, MakeHeader(DomxMagic, Code(Event), 0, 0, now, ClickText(r, c)), ClickText(r, c))
  }

  /** `json.loads(snapshot_data.decode())` as the listener uses it: the grid
      when the payload decodes to a non-empty one; `None` when decoding or
      parsing raises (the listener then takes `[]`) or the list is empty. */
  function Snapshot(data: seq<byte>, h: Header): (r: Option<Grid>)
    requires |data| >= HeaderSize
    ensures r.Some? ==> r.value != [] && PayloadText(data, h) == Some(Dumps(r.value))
  {
    match PayloadText(data, h)
    case None => None
    case Some(t) =>
      match Loads(t)
      case None => None
      case Some(g) => if g == [] then None else Some(g)
  }

  /** One pass of `listen_for_snapshots` for a datagram from `from`: FULL,
      DELTA and HEARTBEAT (types 3, 4, 5) are answered with an ACK, and a
      non-empty grid in the payload replaces the view; other types are
      ignored; a datagram too short for the header ends the listener.
      Nothing happens unless the listener runs. */
  function OnSnapshot(v: View, from: Addr, data: seq<byte>, now: Millis): (r: (View, seq<Outgoing>))
    ensures v.phase != Listening ==> r == (v, [])
    ensures r.0.phase == (if v.phase == Listening && |data| < HeaderSize then ListenerStopped else v.phase)
    ensures |r.1| <= 1 && forall i :: 0 <= i < |r.1| ==> r.1[i] == AckReply(from, now)
  {
    if v.phase != Listening then (v, [])
    else
      match Unpack(data)
      case None => (v.(phase := ListenerStopped), [])
      case Some(h) =>
        if Code(Full) <= h.msgType <= Code(Heartbeat) then
          var g := Snapshot(data, h);
          (if g.Some? then v.(cellOwner := g.value) else v, [AckReply(from, now)])
        else (v, [])
  }

  /** A datagram as `recvfrom` returned it, with the clock reading of the
      ACK sent for it. */
  datatype Received = Received(from: Addr, data: seq<byte>, now: Millis)

  /** The listener after the first `n` datagrams of `msgs`: the view and the
      ACKs sent so far. */
  function ListenUpTo(v: View, msgs: seq<Received>, n: int): (r: (View, seq<Outgoing>))
    requires 0 <= n <= |msgs|
  {
    if n == 0 then (v, [])
    else
      var p := ListenUpTo(v, msgs, n - 1);
      var s := OnSnapshot(p.0, msgs[n - 1].from, msgs[n - 1].data, msgs[n - 1].now);
      (s.0, p.1 + s.1)
  }

  // ---------------------------------------------------------------- the client object

  class Client {
    var cellOwner: Grid
    var phase: Phase

    function Fields(): View
      reads this
    {
      View(cellOwner, phase)
    }

    constructor ()
      ensures Fields() == Start()
    {
      cellOwner := EmptyGrid();
      phase := AwaitingAck;
    }

    /** The INIT handshake's packet; it packs whatever the clock reads. */
    method Connect(now: Millis) returns (o: Outgoing)
      ensures o == InitPacket(now) && Fits(o.header) && o.header.msgType == 0
    {
      o := Outgoing(ServerAddr, MakeHeader(DomxMagic, Code(Init), 0, 0, now, ""), "");
      InitFits(now);
    }

    /** The blocking wait for the server's reply. */
    method Handshake(data: seq<byte>)
      modifies this
      ensures Fields() == OnHandshake(old(Fields()), data)
    {
      if phase == AwaitingAck {
        var h := Unpack(data);
        if h.None? {
          phase := Dead;
        } else {
          phase := Listening;
        }
      }
    }

    /** A click on one of the grid's buttons: the packet packs and the
        server reads back the clicked cell. The buttons answer only once
        the window's main loop runs, after the handshake, so no click comes
        while the phase is `AwaitingAck` or `Dead`; the packet does not
        depend on the phase, and clicks still go out after the listener has
        ended. */
    method Click(r: int, c: int, now: Millis) returns (o: Outgoing)
      requires 0 <= r < Rows && 0 <= c < Cols
      ensures o.to == ServerAddr && o.header.msgType == 2
      ensures Fits(o.header) && o.header.payloadLen == |Utf8.Encode(o.payload)|
      ensures EventCell(o.payload) == Some((r, c))
    {
      var msg := "ACQUIRE_CELL " + IntToString(r) + " " + IntToString(c);
      o := Outgoing(ServerAddr, MakeHeader(DomxMagic, Code(Event), 0, 0, now, msg), msg);
      ClickFits(r, c, now);
      ClickParses(r, c);
    }

    /** One pass of the listener's loop, while it runs. */
    method Receive(m: Received) returns (out: seq<Outgoing>)
      requires phase == Listening
      modifies this
      ensures (Fields(), out) == OnSnapshot(old(Fields()), m.from, m.data, m.now)
    {
      out := [];
      var h := Unpack(m.data);
      if h.None? {
        phase := ListenerStopped;
      } else if Code(Full) <= h.value.msgType <= Code(Heartbeat) {
        var g := Snapshot(m.data, h.value);
        if g.Some? {
          cellOwner := g.value;
        }
        out := [AckReply(m.from, m.now)];
      }
    }

    /** `listen_for_snapshots` over the datagrams that arrive, until an
        exception ends it. */
    method Listen(msgs: seq<Received>) returns (out: seq<Outgoing>)
      modifies this
      ensures (Fields(), out) == ListenUpTo(old(Fields()), msgs, |msgs|)
    {
      ghost var v0 := Fields();
      out := [];
      var i := 0;
      while i < |msgs| && phase == Listening
        invariant 0 <= i <= |msgs|
        invariant (Fields(), out) == ListenUpTo(v0, msgs, i)
      {
        ghost var v := Fields();
        var o := Receive(msgs[i]);
        ListenNext(v0, msgs, i, v, out);
        out := out + o;
        i := i + 1;
      }
      ListenStopped(v0, msgs, i, |msgs|);
    }
  }

  // ---------------------------------------------------------------- lemmas: the listener

  /** One more datagram extends the listener's run by `OnSnapshot`. */
  lemma ListenNext(v0: View, msgs: seq<Received>, i: int, v: View, out: seq<Outgoing>)
    requires 0 <= i < |msgs| && (v, out) == ListenUpTo(v0, msgs, i)
    ensures var s := OnSnapshot(v, msgs[i].from, msgs[i].data, msgs[i].now);
      ListenUpTo(v0, msgs, i + 1) == (s.0, out + s.1)
  {
  }

  /** Once the listener has ended, later datagrams change nothing. */
  lemma {:induction false} ListenStopped(v: View, msgs: seq<Received>, k: int, n: int)
    requires 0 <= k <= n <= |msgs|
    requires k < n ==> ListenUpTo(v, msgs, k).0.phase != Listening
    ensures ListenUpTo(v, msgs, n) == ListenUpTo(v, msgs, k)
    decreases n
  {
    if k < n {
      ListenStopped(v, msgs, k, n - 1);
      var p := ListenUpTo(v, msgs, n - 1);
      assert p.0.phase != Listening;
      assert p.1 + [] == p.1;
    }
  }

  /** The listener only ever answers with ACKs to the senders, at most one
      per datagram, and never goes back to listening once it has ended. */
  lemma {:induction false} ListenAcks(v: View, msgs: seq<Received>, n: int)
    requires 0 <= n <= |msgs|
    ensures var (v', out) := ListenUpTo(v, msgs, n);
      && |out| <= n
      && (forall j :: 0 <= j < |out| ==> out[j].header.msgType == 1 && out[j].payload == "")
      && (v.phase != Listening ==> v' == v && out == [])
  {
    if n > 0 {
      ListenAcks(v, msgs, n - 1);
    }
  }

  /** A datagram shorter than the header ends the listener, and after that
      the view no longer changes. */
  lemma ShortStopsListener(v: View, from: Addr, data: seq<byte>, now: Millis, later: seq<Received>)
    requires v.phase == Listening && |data| < HeaderSize
    ensures var (v', out) := OnSnapshot(v, from, data, now);
      && out == [] && v' == v.(phase := ListenerStopped)
      && ListenUpTo(v', later, |later|) == (v', [])
  {
    ListenAcks(v.(phase := ListenerStopped), later, |later|);
  }

  /** FULL, DELTA and HEARTBEAT are always acknowledged, whether or not the
      payload holds a grid, and the view changes only to the grid the
      payload holds; every other type is ignored. */
  lemma EverySnapshotAcked(v: View, from: Addr, data: seq<byte>, now: Millis)
    requires v.phase == Listening && |data| >= HeaderSize
    ensures var (v', out) := OnSnapshot(v, from, data, now);
      var h := Unpack(data).value;
      && v'.phase == Listening
      && (3 <= h.msgType <= 5 <==> out == [AckReply(from, now)])
      && (3 <= h.msgType <= 5 || out == [])
      && (v'.cellOwner == v.cellOwner || PayloadText(data, h) == Some(Dumps(v'.cellOwner)))
      && (!(3 <= h.msgType <= 5) ==> v' == v)
  {
    assert Unpack(data).Some?;
    assert Code(Full) == 3 && Code(Heartbeat) == 5;
  }

  /** The listener finds a grid in a payload exactly when the payload is
      `json.dumps` of a non-empty grid, and then it is that grid. */
  lemma SnapshotIsDumps(data: seq<byte>, h: Header, g: Grid)
    requires |data| >= HeaderSize
    ensures Snapshot(data, h) == Some(g) <==> g != [] && PayloadText(data, h) == Some(Dumps(g))
  {
    match PayloadText(data, h)
    case None =>
    case Some(t) =>
      LoadsDumps(g);
  }

  // ---------------------------------------------------------------- lemmas: clicks

  /** The server parses a click as the clicked cell, for any integers. */
  lemma ClickParses(r: int, c: int)
    ensures EventCell(ClickText(r, c)) == Some((r, c))
  {
    var toks := ["ACQUIRE_CELL", IntToString(r), IntToString(c)];
    Gclp.IntToStringToken(r);
    Gclp.IntToStringToken(c);
    assert NoSpace(toks[0]);
    assert toks == [toks[0]] + [toks[1], toks[2]] && [toks[1], toks[2]] == [toks[1]] + [toks[2]];
    Gclp.JoinCons(" ", toks[0], [toks[1], toks[2]]);
    Gclp.JoinCons(" ", toks[1], [toks[2]]);
    assert ClickText(r, c) == toks[0] + " " + (toks[1] + " " + toks[2]);
    assert toks + [] == toks;
    Gclp.TokensSplit(toks, []);
    IntRoundTrip(r);
    IntRoundTrip(c);
  }

  /** A click on a grid button packs. */
  lemma ClickFits(r: int, c: int, now: Millis)
    requires 0 <= r < Rows && 0 <= c < Cols
    ensures Fits(ClickPacket(r, c, now).header)
  {
    var text := ClickText(r, c);
    assert IntToString(r) == [DigitChar(r)] && IntToString(c) == [DigitChar(c)];
    assert |text| == 16;
    assert forall i :: 0 <= i < |text| ==> text[i] as int < 0x80;
    Utf8.EncodeAsciiLength(text);
    AckFits();
  }

  /** The empty-payload header of INIT packs at any time. */
  lemma InitFits(now: Millis)
    ensures Fits(InitPacket(now).header)
  {
    AckFits();
  }

  /** The field widths a header with small numbers needs. */
  lemma AckFits()
    ensures Pow256(1) == 0x100 && Pow256(2) == 0x1_0000
    ensures Pow256(4) == 0x1_0000_0000 && Pow256(8) == 0x1_0000_0000_0000_0000
  {
    assert Pow256(1) == 0x100 && Pow256(2) == 0x1_0000;
    assert Pow256(4) == 0x1_0000_0000 && Pow256(8) == 0x1_0000_0000_0000_0000;
  }

  /** Every ACK, the server's and the client's, arrives as sent. */
  lemma AckArrives(to: Addr, now: Millis)
    ensures Fits(AckReply(to, now).header)
    ensures Unpack(Datagram(AckReply(to, now))) == Some(AckReply(to, now).header)
  {
    AckFits();
    DatagramRoundTrip(AckReply(to, now));
  }

  // ---------------------------------------------------------------- lemmas: client and server together

  /** A registered client's click on a free cell gives the server's cell the
      client's number; a click on a taken cell, or from an unregistered
      address, changes no cell; either way the grid counts as modified. */
  lemma ClickTakesCell(st: State, from: Addr, r: int, c: int, now: Millis, now': Millis)
    requires Inv(st) && st.alive && 0 <= r < Rows && 0 <= c < Cols
    ensures Fits(ClickPacket(r, c, now).header)
    ensures var st' := Handle(st, from, Datagram(ClickPacket(r, c, now)), now').0;
      && st'.alive && st'.modified && st'.clients == st.clients
      && st'.grid == (if Get(st.clients, from).Some? && Free(st.grid, r, c)
                      then st.grid[r := st.grid[r][c := Get(st.clients, from).value.number]]
                      else st.grid)
  {
    var o := ClickPacket(r, c, now);
    ClickFits(r, c, now);
    DatagramRoundTrip(o);
    ClickParses(r, c);
    EventTakes(st, from, Datagram(o), now');
  }

  /** The client's ACK marks it on the server as having acknowledged. */
  lemma AckAcknowledges(st: State, from: Addr, to: Addr, now: Millis, now': Millis)
    requires st.alive && Get(st.clients, from).Some?
    ensures var (st', out) := Handle(st, from, Datagram(AckReply(to, now)), now');
      && out == [] && Get(st'.clients, from) == Some(Get(st.clients, from).value.(lastAck := true))
  {
    AckArrives(to, now);
    AckMarks(st, from, Datagram(AckReply(to, now)), now');
  }

  /** A FULL or DELTA whose payload is a non-empty grid's JSON makes the
      listening client adopt exactly that grid, and it is acknowledged. */
  lemma SnapshotAdopted(v: View, o: Outgoing, g: Grid, now: Millis)
    requires v.phase == Listening && Fits(o.header) && o.header.magic == DomxMagic
    requires o.header.payloadLen == |Utf8.Encode(o.payload)|
    requires 3 <= o.header.msgType <= 4 && o.payload == Dumps(g) && g != []
    ensures OnSnapshot(v, o.to, Datagram(o), now) == (v.(cellOwner := g), [AckReply(o.to, now)])
  {
    var d := Datagram(o);
    DatagramRoundTrip(o);
    Adopts(v, o.to, d, now, o.header, g);
  }

  /** A snapshot-type datagram whose payload is `json.dumps` of a non-empty
      grid replaces the view with that grid and is acknowledged. */
  lemma Adopts(v: View, from: Addr, data: seq<byte>, now: Millis, h: Header, g: Grid)
    requires v.phase == Listening && Unpack(data) == Some(h) && 3 <= h.msgType <= 5
    requires g != [] && PayloadText(data, h) == Some(Dumps(g))
    ensures OnSnapshot(v, from, data, now) == (v.(cellOwner := g), [AckReply(from, now)])
  {
    assert Code(Full) == 3 && Code(Heartbeat) == 5;
    assert |data| >= HeaderSize;
    assert Snapshot(data, h) == Some(g) by {
      SnapshotIsDumps(data, h, g);
    }
  }

  /** After a completed tick on a modified grid every client, receiving its
      message, holds exactly the server's grid and acknowledges it; after a
      tick on an unmodified grid every client keeps its view and still
      acknowledges the HEARTBEAT. */
  lemma TickSyncs(st: State, now: Millis, i: int, v: View, later: Millis)
    requires Inv(st) && st.alive && st.broadcasting && v.phase == Listening
    requires Tick(st, now).0.broadcasting && 0 <= i < |st.clients|
    ensures |Tick(st, now).1| == |st.clients|
    ensures var o := Tick(st, now).1[i];
      && o.to == st.clients[i].0 && Fits(o.header)
      && OnSnapshot(v, o.to, Datagram(o), later)
         == (if st.modified then v.(cellOwner := st.grid) else v, [AckReply(o.to, later)])
  {
    var json := Dumps(st.grid);
    var r := TickUpTo(st.clients, |st.clients|, st.modified, json, now);
    assert Tick(st, now).1 == r.out && r.ok;
    TickSent(st.clients, |st.clients|, st.modified, json, now);
    TickOk(st.clients, |st.clients|, st.modified, json, now);
    var e := st.clients[i].1;
    var o := r.out[i];
    assert o == Outgoing(st.clients[i].0, TickHeader(e, st.modified, json, now), KindPayload(Kind(e, st.modified), json));
    if st.modified {
      SnapshotAdopted(v, o, st.grid, later);
    } else {
      HeartbeatKept(v, o, later);
    }
  }

  /** A HEARTBEAT leaves the view alone and is acknowledged. */
  lemma HeartbeatKept(v: View, o: Outgoing, now: Millis)
    requires v.phase == Listening && Fits(o.header) && o.header.magic == DomxMagic
    requires o.header.msgType == 5 && o.payload == "" && o.header.payloadLen == 0
    ensures OnSnapshot(v, o.to, Datagram(o), now) == (v, [AckReply(o.to, now)])
  {
    var d := Datagram(o);
    assert Utf8.Encode("") == [];
    DatagramRoundTrip(o);
    assert Snapshot(d, o.header).None?;
  }

  /** The whole connection: the server answers INIT with the ACK, which
      ends the handshake, and a FULL snapshot, which gives the new client
      the server's grid; the client acknowledges it. */
  lemma ConnectSyncs(st: State, from: Addr, now: Millis, later: Millis)
    requires Inv(st) && st.alive
    ensures Fits(InitPacket(now).header)
    ensures var (st', out) := Handle(st, from, Datagram(InitPacket(now)), now);
      && 1 <= |out| <= 2 && (forall j :: 0 <= j < |out| ==> Fits(out[j].header))
      && var v := OnHandshake(Start(), Datagram(out[0]));
      && v.phase == Listening
      && (|out| == 2 ==> OnSnapshot(v, out[1].to, Datagram(out[1]), later)
                           == (v.(cellOwner := st.grid), [AckReply(from, later)]))
  {
    InitHandled(st, from, now);
    var out := OnInit(st, from, now).1;
    AckArrives(from, now);
    var v := OnHandshake(Start(), Datagram(out[0]));
    if |out| == 2 {
      SnapshotAdopted(v, out[1], st.grid, later);
    }
  }

  /** A live server handles the INIT packet as an INIT. */
  lemma InitHandled(st: State, from: Addr, now: Millis)
    requires st.alive
    ensures Fits(InitPacket(now).header)
    ensures Handle(st, from, Datagram(InitPacket(now)), now) == OnInit(st, from, now)
  {
    InitFits(now);
    DatagramRoundTrip(InitPacket(now));
  }
}
