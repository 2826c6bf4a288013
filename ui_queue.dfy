/** The message queue between a client's network thread and its UI thread,
    and `update_ui`, which the two grid clients (client_Decode.py and
    client_ACK.py) share word for word. The network thread appends entries;
    every 50 ms the UI thread takes them off, oldest first, inside one
    `try` that swallows any exception: the entry that raises is already off
    the queue, and the entries behind it wait for the next call. */
module UiQueue {
  import opened Gclp

  /** A queue entry: `('connected', player_id)`, `('snapshot', payload)`, or
      `('error', text)`, which is only logged. */
  datatype Queued = Connected(pid: int) | SnapshotText(payload: string) | Failed

  /** Whether handling the entry raises: `self.colors[data]` for a player id
      without a colour, or a line of the payload that raises (`steps` reads a
      payload into its per-line steps). */
  predicate Raises(steps: string -> seq<Step>, e: Queued)
  {
    match e
    case Connected(pid) => !HasColour(pid)
    case SnapshotText(p) => Abort in steps(p)
    case Failed => false
  }

  /** What handling the entry stores into `cell_owners`: the payload's lines
      up to the first that raises; nothing for the other entries. */
  function EntryOwners(steps: string -> seq<Step>, owners: Owners, e: Queued): Owners
  {
    match e
    case SnapshotText(p) => ApplySteps(owners, steps(p))
    case _ => owners
  }

  /** Every entry handled, in arrival order. */
  function HandleAll(steps: string -> seq<Step>, owners: Owners, q: seq<Queued>): Owners
    decreases |q|
  {
    if q == [] then owners else HandleAll(steps, EntryOwners(steps, owners, q[0]), q[1..])
  }

  /** One `update_ui` call on view `owners` and queue `q`: the new view and
      what stays queued. The entries taken off are a prefix of the queue (at
      least one when there is one); none of them raises except possibly the
      last, and the call stops early exactly when that last one raises; the
      view is the taken entries handled in order. */
  function UpdateUiPass(steps: string -> seq<Step>, owners: Owners, q: seq<Queued>): (r: (Owners, seq<Queued>))
    ensures |r.1| <= |q| && r.1 == q[|q| - |r.1|..]
    ensures q != [] ==> |r.1| < |q|
    ensures forall i :: 0 <= i < |q| - |r.1| - 1 ==> !Raises(steps, q[i])
    ensures r.1 != [] ==> Raises(steps, q[|q| - |r.1| - 1])
    ensures r.0 == HandleAll(steps, owners, q[..|q| - |r.1|])
    decreases |q|
  {
    if q == [] then (owners, [])
    else
      var next := EntryOwners(steps, owners, q[0]);
      if Raises(steps, q[0]) then
        assert q[..1][1..] == [];
        (next, q[1..])
      else
        var r := UpdateUiPass(steps, next, q[1..]);
        var k := |q| - |r.1|;
        assert q[..k][1..] == q[1..][..k - 1];
        assert forall i :: 1 <= i < k - 1 ==> q[i] == q[1..][i - 1];
        r
  }

  /** `update_ui` called again and again with nothing new arriving, until
      the queue is empty: the view it leaves. */
  function Drained(steps: string -> seq<Step>, owners: Owners, q: seq<Queued>): Owners
    decreases |q|
  {
    if q == [] then owners
    else
      var r := UpdateUiPass(steps, owners, q);
      Drained(steps, r.0, r.1)
  }

  /** Handling two batches one after the other is handling them as one. */
  lemma {:induction false} HandleConcat(steps: string -> seq<Step>, owners: Owners, a: seq<Queued>, b: seq<Queued>)
    ensures HandleAll(steps, owners, a + b) == HandleAll(steps, HandleAll(steps, owners, a), b)
    decreases |a|
  {
    if a == [] {
      assert a + b == b;
    } else {
      assert (a + b)[0] == a[0] && (a + b)[1..] == a[1..] + b;
      HandleConcat(steps, EntryOwners(steps, owners, a[0]), a[1..], b);
    }
  }

  /** What one call leaves undone, handled later, completes what handling
      the whole queue does: an entry that raises delays the ones behind it
      and loses none of them. */
  lemma PassResumes(steps: string -> seq<Step>, owners: Owners, q: seq<Queued>)
    ensures var r := UpdateUiPass(steps, owners, q);
      HandleAll(steps, r.0, r.1) == HandleAll(steps, owners, q)
  {
    var r := UpdateUiPass(steps, owners, q);
    var k := |q| - |r.1|;
    assert q == q[..k] + r.1;
    HandleConcat(steps, owners, q[..k], r.1);
  }

  /** Calling `update_ui` until the queue is empty handles every entry, in
      arrival order, whichever of them raise. */
  lemma {:induction false} DrainedHandlesAll(steps: string -> seq<Step>, owners: Owners, q: seq<Queued>)
    ensures Drained(steps, owners, q) == HandleAll(steps, owners, q)
    decreases |q|
  {
    if q != [] {
      var r := UpdateUiPass(steps, owners, q);
      PassResumes(steps, owners, q);
      DrainedHandlesAll(steps, r.0, r.1);
    }
  }

  /** When no queued entry raises, one call empties the queue and handles
      every entry. */
  lemma QuietPass(steps: string -> seq<Step>, owners: Owners, q: seq<Queued>)
    requires forall i :: 0 <= i < |q| ==> !Raises(steps, q[i])
    ensures UpdateUiPass(steps, owners, q) == (HandleAll(steps, owners, q), [])
  {
    assert q[..|q|] == q;
  }

  /** New arrivals never change how much of a raising entry's queue one
      call handles: they only wait behind what was already queued. */
  lemma {:induction false} PassAppend(steps: string -> seq<Step>, owners: Owners, q: seq<Queued>, e: Queued)
    requires UpdateUiPass(steps, owners, q).1 != []
    ensures UpdateUiPass(steps, owners, q + [e])
      == (UpdateUiPass(steps, owners, q).0, UpdateUiPass(steps, owners, q).1 + [e])
    decreases |q|
  {
    assert (q + [e])[0] == q[0] && (q + [e])[1..] == q[1..] + [e];
    if !Raises(steps, q[0]) {
      PassAppend(steps, EntryOwners(steps, owners, q[0]), q[1..], e);
    }
  }
}
