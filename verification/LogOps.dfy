/** What the follower's loop asks of a log: RemoveLast and Append, one after the other, and what such
    sequences of operations keep. */
module LogOps {
  import opened Messages
  import opened Log
  import R = DiskRuns

  // --- Operations on a log --------------------------------------------------------------------

  /** The log after more operations. */
  function LogFrom(log: seq<Entry>, ops: seq<R.Op>): seq<Entry> {
    if ops == [] then log else R.OnLog(LogFrom(log, ops[..|ops| - 1]), ops[|ops| - 1])
  }

  lemma {:induction false} LogFromConcat(log: seq<Entry>, a: seq<R.Op>, b: seq<R.Op>)
    ensures LogFrom(log, a + b) == LogFrom(LogFrom(log, a), b)
  {
    if b == [] {
      assert a + b == a;
    } else {
      var n := |b| - 1;
      assert (a + b)[..|a + b| - 1] == a + b[..n];
      LogFromConcat(log, a, b[..n]);
    }
  }

  lemma {:induction false} LogAfterIs(ops: seq<R.Op>)
    ensures R.LogAfter(ops) == LogFrom([], ops)
  {
    if ops != [] { LogAfterIs(ops[..|ops| - 1]); }
  }

  /** Along the way the first `c` entries are never touched. */
  ghost predicate KeepsFirst(log: seq<Entry>, ops: seq<R.Op>, c: nat) {
    forall k | 0 <= k <= |ops| :: Agree(log, LogFrom(log, ops[..k]), c)
  }

  lemma KeepsFirstConcat(log: seq<Entry>, a: seq<R.Op>, b: seq<R.Op>, c: nat)
    requires KeepsFirst(log, a, c) && KeepsFirst(LogFrom(log, a), b, c)
    ensures KeepsFirst(log, a + b, c)
  {
    hide LogFrom;
    forall k | 0 <= k <= |a + b| ensures Agree(log, LogFrom(log, (a + b)[..k]), c) {
      if k <= |a| {
        assert (a + b)[..k] == a[..k];
      } else {
        assert (a + b)[..k] == a + b[..k - |a|];
        LogFromConcat(log, a, b[..k - |a|]);
        assert a[..|a|] == a;
        assert Agree(log, LogFrom(log, a[..|a|]), c);
        assert Agree(LogFrom(log, a), LogFrom(LogFrom(log, a), b[..k - |a|]), c);
      }
    }
  }

  // --- The follower's loop --------------------------------------------------------------------

  function Cuts(n: nat): seq<R.Op> { seq(n, _ => R.RemoveLast) }

  /** What one turn of the loop does: RemoveLast until the index is free, then Append. */
  function PutOps(log: seq<Entry>, index: nat, e: Entry): seq<R.Op>
    requires 1 <= index
  {
    if LogTerm(log, index) == e.term then []
    else Cuts(if index <= |log| then |log| - index + 1 else 0) + [R.Append(e)]
  }

  function ReplayOps(log: seq<Entry>, prev: nat, entries: seq<Entry>): seq<R.Op> {
    if entries == [] then []
    else
      var last := |entries| - 1;
      ReplayOps(log, prev, entries[..last]) + PutOps(Replay(log, prev, entries[..last]), prev + |entries|, entries[last])
  }

  lemma {:induction false} CutsCut(log: seq<Entry>, n: nat)
    requires n <= |log|
    ensures LogFrom(log, Cuts(n)) == log[..|log| - n]
  {
    if n == 0 {
      assert log[..|log|] == log;
    } else {
      assert Cuts(n)[..n - 1] == Cuts(n - 1);
      CutsCut(log, n - 1);
    }
  }

  lemma CutsKeep(log: seq<Entry>, n: nat, c: nat)
    requires n <= |log| && c <= |log| - n
    ensures KeepsFirst(log, Cuts(n), c)
  {
    hide LogFrom;
    forall k | 0 <= k <= n ensures Agree(log, LogFrom(log, Cuts(n)[..k]), c) {
      assert Cuts(n)[..k] == Cuts(k);
      CutsCut(log, k);
    }
  }

  lemma AppendOne(log: seq<Entry>, e: Entry)
    ensures LogFrom(log, [R.Append(e)]) == log + [e]
    ensures forall c: nat | c <= |log| :: KeepsFirst(log, [R.Append(e)], c)
  {
    assert [R.Append(e)][..0] == [];
    assert forall k | 0 <= k <= 1 :: [R.Append(e)][..k] == if k == 0 then [] else [R.Append(e)];
  }

  lemma PutOpsPut(log: seq<Entry>, index: nat, e: Entry, c: nat)
    requires 1 <= index && c <= |log| && (c < index || LogTerm(log, index) == e.term)
    ensures LogFrom(log, PutOps(log, index, e)) == Put(log, index, e)
    ensures KeepsFirst(log, PutOps(log, index, e), c)
  {
    hide LogFrom, KeepsFirst, Cuts;
    if LogTerm(log, index) != e.term {
      CutThenAppend(log, if index <= |log| then |log| - index + 1 else 0, e, c);
      assert log[..|log|] == log;
    } else {
      NothingDone(log, c);
    }
  }

  lemma CutThenAppend(log: seq<Entry>, n: nat, e: Entry, c: nat)
    requires n <= |log| && c <= |log| - n
    ensures LogFrom(log, Cuts(n) + [R.Append(e)]) == log[..|log| - n] + [e]
    ensures KeepsFirst(log, Cuts(n) + [R.Append(e)], c)
  {
    hide LogFrom, KeepsFirst, Cuts;
    CutsCut(log, n);
    AppendOne(log[..|log| - n], e);
    LogFromConcat(log, Cuts(n), [R.Append(e)]);
    CutsKeep(log, n, c);
    KeepsFirstConcat(log, Cuts(n), [R.Append(e)], c);
  }

  lemma NothingDone(log: seq<Entry>, c: nat)
    requires c <= |log|
    ensures LogFrom(log, []) == log && KeepsFirst(log, [], c)
  {
  }

  ghost predicate DiffersAt(log: seq<Entry>, log': seq<Entry>, j: nat) {
    j < |log| && j < |log'| && log[j].term != log'[j].term
  }

  /** The loop extends the log or leaves an entry of another term somewhere. */
  lemma {:induction false} ReplayExtendsOrDiffers(log: seq<Entry>, prev: nat, entries: seq<Entry>)
    ensures var r := Replay(log, prev, entries);
            log <= r || exists j | 0 <= j < prev + |entries| :: DiffersAt(log, r, j)
  {
    if entries != [] {
      var last := |entries| - 1;
      var r, e, index := Replay(log, prev, entries[..last]), entries[last], prev + |entries|;
      ReplayExtendsOrDiffers(log, prev, entries[..last]);
      if !(log <= r) {
        var j :| 0 <= j < prev + last && DiffersAt(log, r, j);
        assert DiffersAt(log, Put(r, index, e), j);
      } else if LogTerm(r, index) != e.term && index <= |log| {
        assert DiffersAt(log, Put(r, index, e), index - 1);
      }
    }
  }

  /** What the loop leaves in place at the end it never touched. */
  lemma {:induction false} ReplayOpsReplay(log: seq<Entry>, prev: nat, entries: seq<Entry>, c: nat)
    requires Agree(log, Replay(log, prev, entries), c)
    ensures LogFrom(log, ReplayOps(log, prev, entries)) == Replay(log, prev, entries)
    ensures KeepsFirst(log, ReplayOps(log, prev, entries), c)
  {
    if entries != [] {
      hide LogFrom, KeepsFirst, PutOps;
      var last := |entries| - 1;
      var r, e, index := Replay(log, prev, entries[..last]), entries[last], prev + |entries|;
      ReplayExtendsOrDiffers(log, prev, entries[..last]);
      BeforeThePut(log, r, index, e, c);
      ReplayOpsReplay(log, prev, entries[..last], c);
      PutOpsPut(r, index, e, c);
      LogFromConcat(log, ReplayOps(log, prev, entries[..last]), PutOps(r, index, e));
      KeepsFirstConcat(log, ReplayOps(log, prev, entries[..last]), PutOps(r, index, e), c);
    }
  }

  /** When the last turn leaves the first `c` entries as they were, so did the turns before it, and the
      turn itself starts behind them. */
  lemma BeforeThePut(log: seq<Entry>, r: seq<Entry>, index: nat, e: Entry, c: nat)
    requires 1 <= index && Agree(log, Put(r, index, e), c)
    requires log <= r || exists j | 0 <= j < index - 1 :: DiffersAt(log, r, j)
    ensures Agree(log, r, c) && (c < index || LogTerm(r, index) == e.term)
  {
    var r' := Put(r, index, e);
    if index <= |r| && LogTerm(r, index) != e.term { PutReplaces(r, index, e); }
    if !(log <= r) {
      var j :| 0 <= j < index - 1 && DiffersAt(log, r, j);
      assert r'[j] == r[j];
    }
  }

  lemma PutReplaces(log: seq<Entry>, index: nat, e: Entry)
    requires 1 <= index <= |log| && LogTerm(log, index) != e.term
    ensures |Put(log, index, e)| == index && Put(log, index, e)[index - 1].term != log[index - 1].term
  {
  }

  // --- Changes among other operations ---------------------------------------------------------

  /** The operations that change the log. */
  function Changes(ops: seq<R.Op>): seq<R.Op> {
    if ops == [] then []
    else
      var op := ops[|ops| - 1];
      Changes(ops[..|ops| - 1]) + (if op.Append? || op.RemoveLast? then [op] else [])
  }

  lemma {:induction false} ChangesChange(log: seq<Entry>, ops: seq<R.Op>)
    ensures LogFrom(log, ops) == LogFrom(log, Changes(ops))
  {
    if ops != [] {
      var op, before := ops[|ops| - 1], ops[..|ops| - 1];
      ChangesChange(log, before);
      assert Changes(before) + [] == Changes(before);
      if op.Append? || op.RemoveLast? { assert Changes(ops)[..|Changes(ops)| - 1] == Changes(before); }
    }
  }

  lemma {:induction false} ChangesPrefix(ops: seq<R.Op>, y: nat)
    requires y <= |ops|
    ensures Changes(ops[..y]) <= Changes(ops)
    decreases |ops|
  {
    if y < |ops| {
      assert ops[..|ops| - 1][..y] == ops[..y];
      ChangesPrefix(ops[..|ops| - 1], y);
    } else {
      assert ops[..y] == ops;
    }
  }

  // --- Careful operations ---------------------------------------------------------------------

  lemma CarefulBefore(ops: seq<R.Op>, z: nat, y: nat)
    requires y < z <= |ops| && R.Careful(ops[..z])
    ensures R.CarefulAt(ops, y)
  {
    assert R.CarefulAt(ops[..z], y);
    assert ops[..z][..y] == ops[..y];
  }

  lemma NotEmpty(ops: seq<R.Op>, y: nat)
    requires y < |ops| && R.LogAfter(ops[..y]) != []
    ensures R.CarefulAt(ops, y)
  {
  }

  ghost predicate OnlyChanges(ops: seq<R.Op>) { forall k | 0 <= k < |ops| :: ops[k].Append? || ops[k].RemoveLast? }

  lemma {:induction false} UsedTouches(ops: seq<R.Op>)
    requires OnlyChanges(ops)
    ensures R.Touched(ops) <==> exists k :: 0 <= k < |ops| && ops[k].Append?
    ensures R.LogAfter(ops) != [] ==> R.Touched(ops)
  {
    if ops != [] { UsedTouches(ops[..|ops| - 1]); }
  }

  /** Careful operations never put another entry in the first place. */
  lemma {:induction false} FirstStays(ops: seq<R.Op>, more: seq<R.Op>)
    requires OnlyChanges(ops + more) && R.Careful(ops + more) && R.LogAfter(ops) != []
    ensures R.Touched(ops + more)
    ensures R.LogAfter(ops + more) != [] ==> R.LogAfter(ops + more)[0] == R.LogAfter(ops)[0]
  {
    hide R.CarefulAt;
    if more == [] {
      assert ops + more == ops;
      UsedTouches(ops);
    } else {
      var all, n := ops + more, |more| - 1;
      assert all[..|all| - 1] == ops + more[..n];
      forall y | 0 <= y < |all| - 1 ensures R.CarefulAt(ops + more[..n], y) {
        CarefulOf(all, |all| - 1, y);
      }
      FirstStays(ops, more[..n]);
      assert R.CarefulAt(all, |all| - 1);
      LastCareful(all);
    }
  }

  lemma CarefulOf(ops: seq<R.Op>, z: nat, y: nat)
    requires y < z <= |ops| && R.CarefulAt(ops, y)
    ensures R.CarefulAt(ops[..z], y)
  {
    assert ops[..z][..y] == ops[..y];
  }

  lemma LastCareful(ops: seq<R.Op>)
    requires ops != [] && R.CarefulAt(ops, |ops| - 1)
    ensures ops[|ops| - 1].Append? && R.LogAfter(ops[..|ops| - 1]) == [] ==> !R.Touched(ops[..|ops| - 1])
  {
  }

  lemma {:induction false} AllChanges(ops: seq<R.Op>)
    requires OnlyChanges(ops)
    ensures Changes(ops) == ops
  {
    if ops != [] { AllChanges(ops[..|ops| - 1]); }
  }

  lemma {:induction false} ReplayOnlyChanges(log: seq<Entry>, prev: nat, entries: seq<Entry>)
    ensures OnlyChanges(ReplayOps(log, prev, entries))
  {
    if entries != [] { ReplayOnlyChanges(log, prev, entries[..|entries| - 1]); }
  }

  // --- Logs that are never emptied ------------------------------------------------------------

  /** Once the log holds something it is not emptied again. */
  ghost predicate NeverEmptied(log: seq<Entry>, ops: seq<R.Op>) {
    forall j, k | 0 <= j <= k <= |ops| && LogFrom(log, ops[..j]) != [] :: LogFrom(log, ops[..k]) != []
  }

  lemma NeverEmptiedConcat(log: seq<Entry>, a: seq<R.Op>, b: seq<R.Op>)
    requires NeverEmptied(log, a) && NeverEmptied(LogFrom(log, a), b)
    ensures NeverEmptied(log, a + b)
  {
    hide LogFrom;
    assert a[..|a|] == a && b[..0] == [];
    NothingDone(LogFrom(log, a), 0);
    forall j, k | 0 <= j <= k <= |a + b| && LogFrom(log, (a + b)[..j]) != [] ensures LogFrom(log, (a + b)[..k]) != [] {
      PrefixOfConcat(log, a, b, j);
      PrefixOfConcat(log, a, b, k);
      if j <= |a| < k {
        assert LogFrom(log, a[..|a|]) != [];
        assert LogFrom(LogFrom(log, a), b[..0]) != [];
      }
    }
  }

  lemma PrefixOfConcat(log: seq<Entry>, a: seq<R.Op>, b: seq<R.Op>, k: nat)
    requires k <= |a + b|
    ensures k <= |a| ==> LogFrom(log, (a + b)[..k]) == LogFrom(log, a[..k])
    ensures k > |a| ==> LogFrom(log, (a + b)[..k]) == LogFrom(LogFrom(log, a), b[..k - |a|])
  {
    hide LogFrom;
    if k <= |a| {
      assert (a + b)[..k] == a[..k];
    } else {
      assert (a + b)[..k] == a + b[..k - |a|];
      LogFromConcat(log, a, b[..k - |a|]);
    }
  }

  ghost predicate OnlyAppends(ops: seq<R.Op>) { forall k | 0 <= k < |ops| :: ops[k].Append? }

  lemma {:induction false} AppendsGrow(log: seq<Entry>, ops: seq<R.Op>, k: nat)
    requires OnlyAppends(ops) && k <= |ops|
    ensures |LogFrom(log, ops[..k])| == |log| + k
    decreases k
  {
    if k > 0 {
      assert ops[..k][..k - 1] == ops[..k - 1];
      AppendsGrow(log, ops, k - 1);
    }
  }

  /** On an empty log the loop only appends. */
  lemma {:induction false} ReplayOnEmpty(entries: seq<Entry>)
    ensures OnlyAppends(ReplayOps([], 0, entries)) && |Replay([], 0, entries)| <= |entries|
  {
    if entries != [] { ReplayOnEmpty(entries[..|entries| - 1]); }
  }

  lemma EmptyNeverEmptied()
    ensures NeverEmptied([], [])
  {
  }

  /** A session has touched the entries file only if the log has held something. */
  lemma {:induction false} TouchedHeld(ops: seq<R.Op>) returns (y: nat)
    requires R.Touched(ops)
    ensures y <= |ops| && R.LogAfter(ops[..y]) != []
  {
    var n := |ops| - 1;
    assert ops[..|ops|] == ops;
    if R.LogAfter(ops) != [] {
      y := n + 1;
    } else if R.LogAfter(ops[..n]) != [] {
      y := n;
    } else {
      y := TouchedHeld(ops[..n]);
      assert ops[..n][..y] == ops[..y];
    }
  }

  // --- The cached last term -------------------------------------------------------------------

  /** The last change is an append. */
  predicate EndsInAppend(ops: seq<R.Op>) { ops == [] || ops[|ops| - 1].Append? }

  lemma {:induction false} ReplayEndsInAppend(log: seq<Entry>, prev: nat, entries: seq<Entry>)
    ensures EndsInAppend(ReplayOps(log, prev, entries))
  {
    if entries != [] {
      var last := |entries| - 1;
      ReplayEndsInAppend(log, prev, entries[..last]);
      hide Cuts;
      var put := PutOps(Replay(log, prev, entries[..last]), prev + |entries|, entries[last]);
      assert EndsInAppend(put);
      assert put == [] ==> ReplayOps(log, prev, entries) == ReplayOps(log, prev, entries[..last]);
    }
  }

  /** Then the cached last term is right, whatever reads, votes and reopenings come in between. */
  lemma {:induction false} CachedRight(ops: seq<R.Op>)
    requires EndsInAppend(Changes(ops))
    ensures R.CachedAfter(ops) == LastTerm(R.LogAfter(ops))
  {
    if ops != [] {
      var op, before := ops[|ops| - 1], ops[..|ops| - 1];
      if !op.Append? && !op.Reopen? {
        assert Changes(before) + [] == Changes(before);
        CachedRight(before);
      }
    }
  }
}
