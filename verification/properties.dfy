/**
  Properties of the queue engine over whole runs: a run is a sequence of
  `Add`/`Pop` calls applied one after another, as the mutex serialises
  them. A call whose rewrite failed returns with the mutex still held, so
  every later call blocks for ever: a run stops at the first such call.
*/
module QueueProperties {
  import opened Wrappers
  import opened Queue

  /** One call on the engine, with the timestamp text and the rewrite outcome it meets. */
  datatype Op<V> = AddOp(value: V, createdAt: string, writeOk: bool) | PopOp(writeOk: bool)

  /** Where a run ends, and the values `Pop` handed out on the way, in order. */
  datatype Trace<V> = Trace(final: State<V>, popped: seq<V>)

  function Apply<V>(s: State<V>, op: Op<V>): Reply<V>
    requires !s.locked
  {
    match op
    case AddOp(v, ts, ok) => AddStep(s, v, ts, ok)
    case PopOp(ok) => PopStep(s, ok)
  }

  function Delivered<V>(r: Reply<V>): seq<V> {
    if r.value.Some? then [r.value.value] else []
  }

  /** Runs `ops` in order; once the mutex is left held, nothing further happens. */
  function Run<V>(s: State<V>, ops: seq<Op<V>>): Trace<V>
    decreases |ops|
  {
    if ops == [] || s.locked then Trace(s, [])
    else
      var r := Apply(s, ops[0]);
      var t := Run(r.state, ops[1..]);
      Trace(t.final, Delivered(r) + t.popped)
  }

  function Values<V>(items: seq<Item<V>>): seq<V> {
    seq(|items|, i requires 0 <= i < |items| => items[i].value)
  }

  /** The values the `Add` calls of `ops` enqueue, in call order. */
  function AddedValues<V>(ops: seq<Op<V>>): seq<V> {
    if ops == [] then [] else AddedBy(ops[0]) + AddedValues(ops[1..])
  }

  function AddedBy<V>(op: Op<V>): seq<V> {
    if op.AddOp? then [op.value] else []
  }

  predicate AllWritesOk<V>(ops: seq<Op<V>>) {
    forall i | 0 <= i < |ops| :: ops[i].writeOk
  }

  /** One successful `Add` per item, carrying its value and timestamp. */
  function AddsOf<V>(items: seq<Item<V>>): seq<Op<V>> {
    seq(|items|, i requires 0 <= i < |items| => AddOp(items[i].value, items[i].createdAt, true))
  }

  /** `n` successful `Pop` calls. */
  function Pops<V>(n: nat): seq<Op<V>> {
    seq(n, _ => PopOp(true))
  }

  // ---------------------------------------------------------------------
  // Runs compose
  // ---------------------------------------------------------------------

  /** One step of a run from an unlocked state. */
  lemma RunFirst<V>(s: State<V>, ops: seq<Op<V>>)
    requires ops != [] && !s.locked
    ensures var r := Apply(s, ops[0]); var t := Run(r.state, ops[1..]);
            Run(s, ops) == Trace(t.final, Delivered(r) + t.popped)
  {
  }

  lemma HeadOfAppend<T>(a: seq<T>, b: seq<T>)
    requires a != []
    ensures (a + b)[0] == a[0] && (a + b)[1..] == a[1..] + b
  {
  }

  /** Running `a` and then `b` is running `a + b`. */
  lemma {:induction false} RunAppend<V>(s: State<V>, a: seq<Op<V>>, b: seq<Op<V>>)
    ensures var t := Run(s, a); var u := Run(t.final, b);
            Run(s, a + b) == Trace(u.final, t.popped + u.popped)
    decreases |a|
  {
    if a == [] {
      assert a + b == b;
    } else if s.locked {
      assert Run(s, a) == Trace(s, []) && Run(s, a + b) == Trace(s, []);
    } else {
      HeadOfAppend(a, b);
      var r := Apply(s, a[0]);
      RunFirst(s, a);
      RunFirst(s, a + b);
      RunAppend(r.state, a[1..], b);
      var t' := Run(r.state, a[1..]);
      var u := Run(t'.final, b);
      assert Delivered(r) + (t'.popped + u.popped) == (Delivered(r) + t'.popped) + u.popped;
    }
  }

  /**
    After a call whose rewrite failed, the queue is wedged: no later call
    changes anything. That a failed rewrite leaves the mutex held is stated
    by `FileQueue.Add` and `FileQueue.Pop`; that a held mutex absorbs every
    later call is how `Run` renders a `Lock()` that blocks for ever. This
    lemma carries that rendering across a joined run through `RunAppend`.
  */
  lemma {:induction false} WedgedAfterFailure<V>(s: State<V>, ops: seq<Op<V>>, later: seq<Op<V>>)
    requires Run(s, ops).final.locked
    ensures Run(s, ops + later) == Run(s, ops)
  {
    RunAppend(s, ops, later);
  }

  // ---------------------------------------------------------------------
  // FIFO
  // ---------------------------------------------------------------------

  /** Successful `Add`s append their items at the tail, in call order, and hand nothing out. */
  lemma {:induction false} AddsAppend<V>(s: State<V>, xs: seq<Item<V>>)
    requires !s.locked
    ensures var t := Run(s, AddsOf(xs));
            t.final.items == s.items + xs && t.popped == [] && !t.final.locked
            && (xs != [] ==> Mirrors(t.final.disk, t.final.items))
            && (xs == [] ==> t.final == s)
    decreases |xs|
  {
    if xs != [] {
      var ops := AddsOf(xs);
      var items := s.items + [xs[0]];
      assert ops[0] == AddOp(xs[0].value, xs[0].createdAt, true);
      var r := Apply(s, ops[0]);
      assert r == Reply(State(items, Stored(Json(items)), false), None, None);
      assert ops[1..] == AddsOf(xs[1..]);
      RunFirst(s, ops);
      AddsAppend(r.state, xs[1..]);
      assert items + xs[1..] == s.items + xs;
    }
  }

  /** `n` successful `Pop`s on a queue of at least `n` items hand out its first `n` values, oldest first. */
  lemma {:induction false} PopsDrain<V>(s: State<V>, n: nat)
    requires !s.locked && n <= |s.items|
    ensures var t := Run(s, Pops(n));
            t.popped == Values(s.items[..n]) && t.final.items == s.items[n..] && !t.final.locked
            && (n > 0 ==> Mirrors(t.final.disk, t.final.items))
    decreases n
  {
    if n > 0 {
      var r := Apply(s, Pops<V>(n)[0]);
      assert Pops<V>(n)[1..] == Pops(n - 1);
      PopsDrain(r.state, n - 1);
      assert s.items[1..][..n - 1] == s.items[1..n];
      assert Values(s.items[..n]) == [s.items[0].value] + Values(s.items[1..n]);
      assert s.items[1..][n - 1..] == s.items[n..];
    }
  }

  /** Adding `v1 … vn` to an empty queue and then popping `n` times returns `v1 … vn` in that order and empties it. */
  lemma Fifo<V>(s: State<V>, xs: seq<Item<V>>)
    requires !s.locked && s.items == []
    ensures var t := Run(s, AddsOf(xs) + Pops(|xs|));
            t.popped == Values(xs) && t.final.items == [] && !t.final.locked
  {
    RunAppend(s, AddsOf(xs), Pops(|xs|));
    var mid := Run(s, AddsOf(xs)).final;
    AddsAppend(s, xs);
    PopsDrain(mid, |xs|);
    assert mid.items[..|xs|] == xs;
  }

  lemma Regroup<T>(d: seq<T>, p: seq<T>, q: seq<T>, v: seq<T>, x: seq<T>, b: seq<T>, a: seq<T>)
    requires p + q == v + a && d + v == x + b
    ensures d + p + q == x + (b + a)
  {
    calc {
      d + p + q;
      d + (p + q);
      d + (v + a);
      (d + v) + a;
      (x + b) + a;
    }
  }

  /** One successful call: what it hands out, then what stays queued, is what was queued, then what it added. */
  lemma ConservationStep<V>(s: State<V>, op: Op<V>)
    requires !s.locked && op.writeOk
    ensures var r := Apply(s, op);
            Delivered(r) + Values(r.state.items) == Values(s.items) + AddedBy(op) && !r.state.locked
  {
    match op
    case AddOp(v, ts, ok) =>
      assert Values(s.items + [Item(v, ts)]) == Values(s.items) + [v];
    case PopOp(ok) =>
      if s.items != [] {
        assert Values(s.items) == [s.items[0].value] + Values(s.items[1..]);
      }
  }

  /**
    Whatever the interleaving, when every rewrite succeeds the values
    handed out followed by the values still queued are exactly the values
    queued at the start followed by the values added: nothing is lost,
    duplicated or reordered.
  */
  lemma {:induction false} Conservation<V>(s: State<V>, ops: seq<Op<V>>)
    requires !s.locked && AllWritesOk(ops)
    ensures var t := Run(s, ops);
            t.popped + Values(t.final.items) == Values(s.items) + AddedValues(ops)
            && !t.final.locked
    decreases |ops|
  {
    if ops != [] {
      var r := Apply(s, ops[0]);
      assert AllWritesOk(ops[1..]) by {
        forall i | 0 <= i < |ops[1..]| ensures ops[1..][i].writeOk {
          assert ops[1..][i] == ops[i + 1];
        }
      }
      assert ops[0].writeOk;
      ConservationStep(s, ops[0]);
      Conservation(r.state, ops[1..]);
      RunFirst(s, ops);
      var rest := Run(r.state, ops[1..]);
      Regroup(Delivered(r), rest.popped, Values(rest.final.items), Values(r.state.items),
              Values(s.items), AddedBy(ops[0]), AddedValues(ops[1..]));
    }
  }

  // ---------------------------------------------------------------------
  // Durability
  // ---------------------------------------------------------------------

  /** A call that changed the items and returned no error left the file equal to memory. */
  lemma SuccessfulMutationPersists<V>(s: State<V>, op: Op<V>)
    requires !s.locked
    requires Apply(s, op).err.None? && Apply(s, op).state.items != s.items
    ensures Mirrors(Apply(s, op).state.disk, Apply(s, op).state.items)
    ensures !Apply(s, op).state.locked
  {
  }

  /**
    Memory is one call ahead of the file's items: one item appended at the
    tail, or the head dropped.
  */
  ghost predicate OneCallAhead<V>(memory: seq<Item<V>>, file: seq<Item<V>>) {
    || (|memory| == |file| + 1 && memory[..|file|] == file)
    || (file != [] && memory == file[1..])
  }

  /**
    From a queue whose file mirrors memory, every run ends either with the
    file still mirroring memory or with the mutex held after a failed rewrite,
    in which case memory is one call ahead of the file.
  */
  lemma {:induction false} MirrorOrWedged<V>(s: State<V>, ops: seq<Op<V>>)
    requires !s.locked && Mirrors(s.disk, s.items)
    ensures var f := Run(s, ops).final;
            || Mirrors(f.disk, f.items)
            || (f.locked && f.disk.Stored? && f.disk.content.Json? && OneCallAhead(f.items, f.disk.content.items))
    decreases |ops|
  {
    if ops != [] {
      var r := Apply(s, ops[0]);
      if !r.state.locked {
        MirrorOrWedged(r.state, ops[1..]);
      }
    }
  }

  /**
    The queue `Open` yields for a missing file holds no items and a
    zero-byte file, which does not mirror memory. From there every run ends
    with the file mirroring memory, or still in that starting state (only
    empty `Pop`s ran), or wedged: by a failed first `Add`, with the
    zero-byte file and one item in memory, or later, with memory one call
    ahead of a mirrored file.
  */
  lemma {:induction false} FreshQueueRuns<V>(ops: seq<Op<V>>)
    ensures var s: State<V> := State([], Stored(Blank), false);
            var f := Run(s, ops).final;
            || Mirrors(f.disk, f.items)
            || f == s
            || (f.locked && f.disk == Stored(Blank) && |f.items| == 1)
            || (f.locked && f.disk.Stored? && f.disk.content.Json? && OneCallAhead(f.items, f.disk.content.items))
    decreases |ops|
  {
    var s: State<V> := State([], Stored(Blank), false);
    if ops != [] {
      var r := Apply(s, ops[0]);
      RunFirst(s, ops);
      if ops[0].PopOp? {
        assert r.state == s;
        FreshQueueRuns(ops[1..]);
      } else if r.state.locked {
        assert Run(r.state, ops[1..]).final == r.state;
      } else {
        MirrorOrWedged(r.state, ops[1..]);
      }
    }
  }

  /** Reopening the file after a successful mutation restores exactly the items in memory. */
  lemma ReopenRestores<V>(s: State<V>, op: Op<V>, createOk: bool, closeOk: bool)
    requires !s.locked
    requires Apply(s, op).err.None? && Apply(s, op).state.items != s.items
    ensures Open(Apply(s, op).state.disk, createOk, closeOk)
            == Opening(Apply(s, op).state.disk, Success(Apply(s, op).state.items))
  {
  }

  /** The file `Open` creates for a missing path is empty, and reopening an empty file fails to parse. */
  lemma ReopenCreatedFails<V>(createOk: bool, closeOk: bool)
    ensures var first := Open<V>(Missing, true, true);
            first.loaded == Success([]) && Open(first.disk, createOk, closeOk).loaded == Failure(ParseFailed)
  {
  }
}
