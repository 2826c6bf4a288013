/** What the two GCLP variants (server_Decode/client_Decode and
    server_ACK/client_ACK) have in common: the 10x10 grid the clients draw,
    cell ids `"r_c"`, player-id assignment, the `"PLAYER:n"` connection reply,
    the `"ACQUIRE cell pid ..."` request, and the rule by which a client
    applies one `(cell id, owner)` pair from a snapshot. */
module Gclp {
  import opened Common
  import opened PyText
  import opened OrderedDict
  import Utf8

  const GridSize: int := 10

  predicate OnGrid(cell: (int, int)) { 0 <= cell.0 < GridSize && 0 <= cell.1 < GridSize }

  /** The cells a client has a button for (`self.cells`). */
  function GridCells(): (cells: set<(int, int)>)
    ensures forall p :: p in cells <==> OnGrid(p)
  {
    set r, c | 0 <= r < GridSize && 0 <= c < GridSize :: (r, c)
  }

  /** The players the clients' colour table knows (`self.colors` has keys 1..4). */
  predicate HasColour(owner: int) { 1 <= owner <= 4 }

  /** A client's `cell_owners`: `None` for a cell nobody holds yet. */
  type Owners = map<(int, int), Option<int>>

  /** Every on-grid cell unowned, as a client starts. */
  function InitialOwners(): (owners: Owners)
    ensures owners.Keys == GridCells()
    ensures forall p :: p in owners ==> owners[p] == None
  {
    map p | p in GridCells() :: None
  }

  // ---------------------------------------------------------------- player ids

  /** `((next_player_id - 1) % 4) + 1`: the n-th connection plays as the
      player in 1..4 congruent to n modulo 4. */
  function PlayerId(n: int): (pid: int)
    ensures 1 <= pid <= 4
    ensures (n - pid) % 4 == 0
  {
    ((n - 1) % 4) + 1
  }

  /** Successive connections play as 1, 2, 3, 4, 1, 2, ... */
  lemma PlayerIdCycles(n: int)
    ensures PlayerId(1) == 1
    ensures PlayerId(n + 1) == if PlayerId(n) == 4 then 1 else PlayerId(n) + 1
  {
  }

  // ---------------------------------------------------------------- cell ids

  /** `f"{row}_{col}"`. */
  function CellId(r: int, c: int): string
  {
    IntToString(r) + "_" + IntToString(c)
  }

  /** `row, col = map(int, cell_id.split('_'))`: exactly two pieces, both
      integers, or the statement raises. */
  function ParseCellId(id: string): (r: Option<(int, int)>)
    ensures !Contains(id, "_") ==> r.None?
    ensures r.Some? ==> var ps := SplitOn(id, "_");
      |ps| == 2 && ParseInt(ps[0]) == Some(r.value.0) && ParseInt(ps[1]) == Some(r.value.1)
  {
    var pieces := SplitOn(id, "_");
    if |pieces| != 2 then None
    else match (ParseInt(pieces[0]), ParseInt(pieces[1]))
      case (Some(r), Some(c)) => Some((r, c))
      case _ => None
  }

  /** A cell id the clients write reads back as the same cell. */
  lemma CellIdRoundTrip(r: int, c: int)
    ensures ParseCellId(CellId(r, c)) == Some((r, c))
  {
    IntToStringLacks(r, '_');
    IntToStringLacks(c, '_');
    SplitOnFirst(IntToString(r), '_', IntToString(c));
    SplitOnLacking(IntToString(c), '_');
    IntRoundTrip(r);
    IntRoundTrip(c);
  }

  /** Different cells have different ids, so a grid keyed by the ids the
      clients send holds at most one entry per cell. */
  lemma CellIdInjective(r1: int, c1: int, r2: int, c2: int)
    requires CellId(r1, c1) == CellId(r2, c2)
    ensures r1 == r2 && c1 == c2
  {
    CellIdRoundTrip(r1, c1);
    CellIdRoundTrip(r2, c2);
  }

  // ---------------------------------------------------------------- connection reply

  /** `f"PLAYER:{player_id}"`, the payload of the connection ACK. */
  function PlayerText(pid: int): string
  {
    "PLAYER:" + IntToString(pid)
  }

  /** `int(payload.split(':')[1])`, `None` where it raises (no colon, or
      not an integer after it). */
  function ParsePlayer(payload: string): (r: Option<int>)
    ensures !Contains(payload, ":") ==> r.None?
    ensures r.Some? ==> ParseInt(SplitOn(payload, ":")[1]) == r
  {
    var pieces := SplitOn(payload, ":");
    if |pieces| < 2 then None else ParseInt(pieces[1])
  }

  /** `str(n)` is one token of ASCII characters. */
  lemma IntToStringToken(n: int)
    ensures NoSpace(IntToString(n))
    ensures forall i :: 0 <= i < |IntToString(n)| ==> IntToString(n)[i] as int < 0x80
  {
  }

  /** The connection reply for a player id in 1..4 is eight bytes on the wire. */
  lemma PlayerTextLength(pid: int)
    requires 1 <= pid <= 4
    ensures |Utf8.Encode(PlayerText(pid))| == 8
  {
    assert IntToString(pid) == [DigitChar(pid)];
    Utf8.EncodeAsciiLength(PlayerText(pid));
  }

  /** The client reads back the player id the server sent. */
  lemma PlayerRoundTrip(pid: int)
    ensures ParsePlayer(PlayerText(pid)) == Some(pid)
  {
    IntToStringLacks(pid, ':');
    assert Lacks("PLAYER", ':');
    assert PlayerText(pid) == "PLAYER" + [':'] + IntToString(pid);
    SplitOnFirst("PLAYER", ':', IntToString(pid));
    SplitOnLacking(IntToString(pid), ':');
    IntRoundTrip(pid);
  }

  // ---------------------------------------------------------------- acquire request

  /** The acquire part of a DATA payload: when `'ACQUIRE' in payload`,
      `parts = payload.split()`, the cell id is `parts[1]` and the player is
      `int(parts[2])`. `None` when the payload has no `ACQUIRE` or when the
      indexing or the conversion raises. */
  function ParseAcquire(payload: string): (r: Option<(string, int)>)
    ensures r.Some? ==> Contains(payload, "ACQUIRE")
    ensures r.Some? ==> |SplitWs(payload)| >= 3 && r.value.0 == SplitWs(payload)[1]
    ensures r.Some? ==> ParseInt(SplitWs(payload)[2]) == Some(r.value.1)
  {
    if !Contains(payload, "ACQUIRE") then None
    else
      var parts := SplitWs(payload);
      if |parts| < 3 then None
      else match ParseInt(parts[2])
        case None => None
        case Some(pid) => Some((parts[1], pid))
  }

  /** A cell id as the clients write it is one token: no whitespace. */
  lemma CellIdToken(r: int, c: int)
    ensures CellId(r, c) != [] && NoSpace(CellId(r, c))
    ensures Lacks(CellId(r, c), '|') && Lacks(CellId(r, c), ':')
  {
  }

  /** `"ACQUIRE id pid"` followed by any further tokens is parsed back to
      `(id, pid)`. */
  lemma AcquireRoundTrip(id: string, pid: int, more: seq<string>)
    requires id != [] && NoSpace(id)
    requires forall i :: 0 <= i < |more| ==> more[i] != [] && NoSpace(more[i])
    ensures ParseAcquire(Join(" ", ["ACQUIRE", id, IntToString(pid)] + more)) == Some((id, pid))
  {
    var toks := ["ACQUIRE", id, IntToString(pid)] + more;
    var s := Join(" ", toks);
    AcquireContains(toks[1..]);
    assert [toks[0]] + toks[1..] == toks;
    var head := ["ACQUIRE", id, IntToString(pid)];
    forall i | 0 <= i < |head|
      ensures head[i] != [] && NoSpace(head[i])
    {
      if i == 0 {
        AcquireKeyword();
      } else if i == 2 {
        IntToStringToken(pid);
      }
    }
    TokensSplit(head, more);
    assert SplitWs(s) == toks;
    IntRoundTrip(pid);
    assert ParseInt(toks[2]) == Some(pid);
  }

  lemma AcquireContains(rest: seq<string>)
    requires rest != []
    ensures Contains(Join(" ", ["ACQUIRE"] + rest), "ACQUIRE")
  {
    JoinCons(" ", "ACQUIRE", rest);
    StartsContains("ACQUIRE", " " + Join(" ", rest));
    assert "ACQUIRE" + " " + Join(" ", rest) == "ACQUIRE" + (" " + Join(" ", rest));
  }

  /** Tokens joined by single spaces split back into the same tokens. */
  lemma TokensSplit(toks: seq<string>, more: seq<string>)
    requires forall i :: 0 <= i < |toks| ==> toks[i] != [] && NoSpace(toks[i])
    requires forall i :: 0 <= i < |more| ==> more[i] != [] && NoSpace(more[i])
    ensures SplitWs(Join(" ", toks + more)) == toks + more
  {
    var all := toks + more;
    forall i | 0 <= i < |all|
      ensures all[i] != [] && NoSpace(all[i])
    {
      if i < |toks| {
        assert all[i] == toks[i];
      } else {
        assert all[i] == more[i - |toks|];
      }
    }
    SplitWsJoinBare(all);
  }

  lemma AcquireKeyword()
    ensures NoSpace("ACQUIRE")
  {
  }

  lemma JoinCons(sep: string, x: string, xs: seq<string>)
    requires xs != []
    ensures Join(sep, [x] + xs) == x + sep + Join(sep, xs)
  {
    assert ([x] + xs)[1..] == xs;
  }

  lemma StartsContains(pat: string, rest: string)
    ensures Contains(pat + rest, pat)
  {
    assert "" + pat + rest == pat + rest;
    ContainsWithin("", pat, rest);
  }

  lemma SplitWsJoinBare(toks: seq<string>)
    requires forall i :: 0 <= i < |toks| ==> toks[i] != [] && NoSpace(toks[i])
    ensures SplitWs(Join(" ", toks)) == toks
  {
    assert "" + Join(" ", toks) + "" == Join(" ", toks);
    SplitWsJoin("", toks, "");
  }

  /** The cell ids a snapshot payload can carry without its `|` separators
      or its whitespace splitting going astray: single tokens without a bar.
      Every id `CellId` writes is one. */
  predicate TokenIds(d: Dict<string, int>)
  {
    forall i :: 0 <= i < |d| ==> d[i].0 != [] && NoSpace(d[i].0) && Lacks(d[i].0, '|')
  }

  // ---------------------------------------------------------------- client-side cell update

  /** What one cell entry of a snapshot does to a client's `cell_owners`. */
  datatype Step =
    | Skip                              // nothing to apply
    | SetCell(cell: (int, int), owner: int)
    | Abort                             // an exception ends the whole payload

  /** The entry `(id, owner)` once the owner is an integer: the id must split
      into two integers; an off-grid cell is skipped; an on-grid cell first
      looks up the owner's colour (which raises for an owner outside 1..4) and
      then stores the owner. */
  function EntryStep(id: string, owner: int): (s: Step)
    ensures s.SetCell? ==> OnGrid(s.cell) && HasColour(s.owner) && s.owner == owner
    ensures s.SetCell? <==> (ParseCellId(id).Some? && OnGrid(ParseCellId(id).value) && HasColour(owner))
    ensures s.Abort? <==> (ParseCellId(id).None? || (OnGrid(ParseCellId(id).value) && !HasColour(owner)))
  {
    match ParseCellId(id)
    case None => Abort
    case Some(p) =>
      if !OnGrid(p) then Skip
      else if !HasColour(owner) then Abort
      else SetCell(p, owner)
  }

  /** `owner = int(owner_text)` and then the entry rule. */
  function CellStep(id: string, ownerText: string): (s: Step)
    ensures ParseInt(ownerText).None? ==> s.Abort?
    ensures ParseInt(ownerText).Some? ==> s == EntryStep(id, ParseInt(ownerText).value)
  {
    match ParseInt(ownerText)
    case None => Abort
    case Some(owner) => EntryStep(id, owner)
  }

  /** The cells a run of steps stores into. */
  function SetCells(steps: seq<Step>): set<(int, int)>
  {
    set i | 0 <= i < |steps| && steps[i].SetCell? :: steps[i].cell
  }

  /** What one step stores: `cell_owners[(row, col)] = owner` for a set,
      nothing otherwise. */
  function StepOwners(owners: Owners, s: Step): Owners
  {
    match s
    case SetCell(p, o) => owners[p := Some(o)]
    case _ => owners
  }

  /** The steps applied in order; the first `Abort` ends the run and keeps
      everything stored before it. */
  function ApplySteps(owners: Owners, steps: seq<Step>): (r: Owners)
    ensures owners.Keys <= r.Keys <= owners.Keys + SetCells(steps)
    ensures forall p :: p in owners && p !in SetCells(steps) ==> r[p] == owners[p]
    decreases |steps|
  {
    if steps == [] then owners
    else
      var rest := ApplySteps(StepOwners(owners, steps[0]), steps[1..]);
      assert SetCells(steps[1..]) <= SetCells(steps) by {
        forall q | q in SetCells(steps[1..]) ensures q in SetCells(steps) {
          var i :| 0 <= i < |steps[1..]| && steps[1..][i].SetCell? && steps[1..][i].cell == q;
          assert steps[i + 1] == steps[1..][i];
        }
      }
      assert steps[0].SetCell? ==> steps[0].cell in SetCells(steps) by {
        if steps[0].SetCell? { assert steps[0].cell in SetCells(steps); }
      }
      match steps[0]
      case Abort => owners
      case _ => rest
  }

  /** The per-entry steps of a dict of `(cell id, owner)` pairs. */
  function EntrySteps(d: Dict<string, int>): (steps: seq<Step>)
    ensures |steps| == |d|
    ensures forall i :: 0 <= i < |d| ==> steps[i] == EntryStep(d[i].0, d[i].1)
  {
    seq(|d|, i requires 0 <= i < |d| => EntryStep(d[i].0, d[i].1))
  }

  /** A step that aborts discards everything after it and nothing before it. */
  lemma {:induction false} AbortKeepsEarlier(owners: Owners, before: seq<Step>, after: seq<Step>)
    ensures ApplySteps(owners, before + [Abort] + after) == ApplySteps(owners, before)
    decreases |before|
  {
    if before != [] {
      var next := StepOwners(owners, before[0]);
      assert (before + [Abort] + after)[1..] == before[1..] + [Abort] + after;
      AbortKeepsEarlier(next, before[1..], after);
    }
  }

  /** Without an abort, a cell takes the owner of the last step that sets it. */
  lemma {:induction false} LastSetWins(owners: Owners, steps: seq<Step>, i: int)
    requires 0 <= i < |steps| && steps[i].SetCell?
    requires forall j :: 0 <= j < |steps| ==> !steps[j].Abort?
    requires forall j :: i < j < |steps| && steps[j].SetCell? ==> steps[j].cell != steps[i].cell
    ensures steps[i].cell in ApplySteps(owners, steps)
    ensures ApplySteps(owners, steps)[steps[i].cell] == Some(steps[i].owner)
    decreases |steps|
  {
    var next := StepOwners(owners, steps[0]);
    assert ApplySteps(owners, steps) == ApplySteps(next, steps[1..]);
    if i == 0 {
      var p := steps[0].cell;
      assert p in next && next[p] == Some(steps[0].owner);
      forall j | 0 <= j < |steps[1..]| && steps[1..][j].SetCell?
        ensures steps[1..][j].cell != p
      {
        assert steps[1..][j] == steps[j + 1];
      }
      assert p !in SetCells(steps[1..]);
    } else {
      assert steps[1..][i - 1] == steps[i];
      LastSetWins(next, steps[1..], i - 1);
    }
  }

  /** Applying a run from step `i` on: an abort there stores nothing more;
      any other step stores what it stores and the run goes on. */
  lemma ApplyFrom(owners: Owners, steps: seq<Step>, i: int)
    requires 0 <= i < |steps|
    ensures ApplySteps(owners, steps[i..])
      == if steps[i].Abort? then owners else ApplySteps(StepOwners(owners, steps[i]), steps[i + 1..])
  {
    assert steps[i..][0] == steps[i];
    assert steps[i..][1..] == steps[i + 1..];
  }
}
