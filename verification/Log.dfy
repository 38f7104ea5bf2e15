/** miniraft/state.h: the log as a sequence of entries, indexed from 1, and what the follower
    loop of miniraft/raft.cpp makes of it. */
module Log {
  import opened Messages

  /** IState::LogTerm with an explicit index: 0 outside the log. */
  function LogTerm(log: seq<Entry>, index: nat): nat {
    if index < 1 || index > |log| then 0 else log[index - 1].term
  }

  /** IState::LogTerm() without an argument, and the cached LastLogTerm. */
  function LastTerm(log: seq<Entry>): nat {
    if log == [] then 0 else log[|log| - 1].term
  }

  /** The first `k` entries of `a` and `b` exist and are the same. */
  ghost predicate Agree(a: seq<Entry>, b: seq<Entry>, k: nat) {
    k <= |a| && k <= |b| && forall j | 0 <= j < k :: a[j] == b[j]
  }

  /** One turn of the follower loop: keep the entry at `index` when its term is the payload's,
      otherwise drop everything from `index` on and append. */
  function Put(log: seq<Entry>, index: nat, e: Entry): seq<Entry>
    requires 1 <= index
  {
    if LogTerm(log, index) == e.term then log
    else (if index - 1 < |log| then log[..index - 1] else log) + [e]
  }

  /** The whole follower loop over the payload, starting after `prev`. */
  function Replay(log: seq<Entry>, prev: nat, entries: seq<Entry>): seq<Entry> {
    if entries == [] then log
    else
      var last := |entries| - 1;
      Put(Replay(log, prev, entries[..last]), prev + |entries|, entries[last])
  }

  /** The log holds payload entry `i`, or an entry of the same term in its place. */
  predicate Holds(log: seq<Entry>, prev: nat, entries: seq<Entry>, i: nat)
    requires i < |entries|
  {
    prev + i < |log| && log[prev + i].term == entries[i].term
  }

  /** Offset of the first payload entry, from `from` on, that the log lacks or holds with another
      term; |entries| when there is none. */
  function ConflictFrom(log: seq<Entry>, prev: nat, entries: seq<Entry>, from: nat): (c: nat)
    requires from <= |entries|
    ensures from <= c <= |entries|
    ensures forall i | from <= i < c :: Holds(log, prev, entries, i)
    ensures c < |entries| ==> !Holds(log, prev, entries, c)
    decreases |entries| - from
  {
    if from < |entries| && Holds(log, prev, entries, from) then ConflictFrom(log, prev, entries, from + 1) else from
  }

  function FirstConflict(log: seq<Entry>, prev: nat, entries: seq<Entry>): (c: nat)
    ensures c <= |entries| && (prev <= |log| ==> prev + c <= |log|)
    ensures forall i | 0 <= i < c :: Holds(log, prev, entries, i)
    ensures c < |entries| ==> !Holds(log, prev, entries, c)
  {
    var c := ConflictFrom(log, prev, entries, 0);
    assert c > 0 ==> Holds(log, prev, entries, c - 1);
    c
  }

  /** What the paper asks of a follower: keep the log when the payload agrees with it, otherwise
      cut it at the first disagreement and append the rest of the payload. */
  function Merge(log: seq<Entry>, prev: nat, entries: seq<Entry>): seq<Entry>
    requires prev <= |log|
  {
    var c := FirstConflict(log, prev, entries);
    if c == |entries| then log else log[..prev + c] + entries[c..]
  }

  /** A payload the loop handles as the paper asks: from the first disagreement on no entry has
      term 0, except that a term-0 entry may replace an existing one. */
  predicate LoopSafe(log: seq<Entry>, prev: nat, entries: seq<Entry>) {
    var c := FirstConflict(log, prev, entries);
    forall i | c <= i < |entries| :: entries[i].term != 0 || (i == c && prev + c < |log|)
  }

  /** The first disagreement of a shorter payload. */
  lemma ConflictOfPrefix(log: seq<Entry>, prev: nat, entries: seq<Entry>)
    requires entries != []
    ensures var n := |entries| - 1;
            var c := FirstConflict(log, prev, entries);
            FirstConflict(log, prev, entries[..n]) == if c < n then c else n
  {
    var n := |entries| - 1;
    var c := FirstConflict(log, prev, entries);
    var d := FirstConflict(log, prev, entries[..n]);
    assert forall i | 0 <= i < n :: Holds(log, prev, entries[..n], i) <==> Holds(log, prev, entries, i);
    assert c < n ==> !Holds(log, prev, entries[..n], c);
    assert d < n ==> !Holds(log, prev, entries, d);
  }

  /** LoopSafe, one payload entry at a time. */
  lemma LoopSafeStep(log: seq<Entry>, prev: nat, entries: seq<Entry>)
    requires entries != [] && prev <= |log|
    ensures var n := |entries| - 1;
            var c := FirstConflict(log, prev, entries);
            LoopSafe(log, prev, entries) <==>
            (LoopSafe(log, prev, entries[..n])
            && (c == |entries| || entries[n].term != 0 || (n == c && prev + c < |log|)))
  {
    ConflictOfPrefix(log, prev, entries);
    hide FirstConflict;
    var n := |entries| - 1;
    assert forall i {:trigger entries[i]} | 0 <= i < n :: entries[i] == entries[..n][i];
    assert forall i {:trigger entries[..n][i]} | 0 <= i < n :: entries[i] == entries[..n][i];
  }

  lemma SplitLast<T>(s: seq<T>, c: nat)
    requires c < |s|
    ensures s[c..] == s[..|s| - 1][c..] + [s[|s| - 1]]
  {
  }

  /** Merge, one payload entry at a time, when an earlier entry already disagreed. */
  lemma MergeGoesOn(log: seq<Entry>, prev: nat, entries: seq<Entry>)
    requires entries != [] && prev <= |log|
    requires FirstConflict(log, prev, entries) < |entries| - 1
    ensures var init := Merge(log, prev, entries[..|entries| - 1]);
            |init| == prev + |entries| - 1 && Merge(log, prev, entries) == init + [entries[|entries| - 1]]
  {
    ConflictOfPrefix(log, prev, entries);
    hide FirstConflict;
    var n := |entries| - 1;
    var c := FirstConflict(log, prev, entries);
    var kept, rest := log[..prev + c], entries[..n][c..];
    SplitLast(entries, c);
    Assoc(kept, rest, [entries[n]]);
    assert Merge(log, prev, entries[..n]) == kept + rest;
  }

  /** When the last entry is the first to disagree, and when none does. */
  lemma MergeAtLast(log: seq<Entry>, prev: nat, entries: seq<Entry>)
    requires entries != [] && prev <= |log|
    requires FirstConflict(log, prev, entries) >= |entries| - 1
    ensures Merge(log, prev, entries[..|entries| - 1]) == log
    ensures FirstConflict(log, prev, entries) == |entries| - 1 ==>
            Merge(log, prev, entries) == log[..prev + |entries| - 1] + [entries[|entries| - 1]]
  {
    ConflictOfPrefix(log, prev, entries);
    hide FirstConflict;
    assert entries[|entries| - 1..] == [entries[|entries| - 1]];
  }

  lemma Assoc<T>(a: seq<T>, b: seq<T>, c: seq<T>)
    ensures a + (b + c) == (a + b) + c
  {
  }

  /** On a loop-safe payload the loop computes the merge; otherwise it skipped an entry and the
      log ends up too short. */
  lemma {:induction false} ReplayShape(log: seq<Entry>, prev: nat, entries: seq<Entry>)
    requires prev <= |log|
    ensures var c := FirstConflict(log, prev, entries);
            var r := Replay(log, prev, entries);
            && (LoopSafe(log, prev, entries) ==> r == Merge(log, prev, entries))
            && (!LoopSafe(log, prev, entries) ==> |r| < prev + |entries|)
  {
    if entries == [] {
      assert LoopSafe(log, prev, entries);
    } else {
      var n := |entries| - 1;
      ReplayShape(log, prev, entries[..n]);
      LoopSafeStep(log, prev, entries);
      if FirstConflict(log, prev, entries) < n {
        MergeGoesOn(log, prev, entries);
      } else {
        MergeAtLast(log, prev, entries);
      }
      assert FirstConflict(log, prev, entries) > n ==> Holds(log, prev, entries, n);
      if LoopSafe(log, prev, entries[..n]) {
        var r := Merge(log, prev, entries[..n]);
        assert Replay(log, prev, entries) == Put(r, prev + n + 1, entries[n]);
      }
    }
  }

  /** The follower loop is the paper's rule exactly on loop-safe payloads. */
  lemma LoopIsMergeIff(log: seq<Entry>, prev: nat, entries: seq<Entry>)
    requires prev <= |log|
    ensures Replay(log, prev, entries) == Merge(log, prev, entries) <==> LoopSafe(log, prev, entries)
  {
    ReplayShape(log, prev, entries);
    MergeLength(log, prev, entries);
  }

  lemma MergeLength(log: seq<Entry>, prev: nat, entries: seq<Entry>)
    requires prev <= |log|
    ensures |Merge(log, prev, entries)| >= prev + |entries|
  {
  }

  /** Entries that leaders create carry a positive term, so on them loop and rule coincide. */
  lemma LoopIsMerge(log: seq<Entry>, prev: nat, entries: seq<Entry>)
    requires prev <= |log|
    requires forall e | e in entries :: e.term != 0
    ensures Replay(log, prev, entries) == Merge(log, prev, entries)
  {
    forall i | 0 <= i < |entries| ensures entries[i].term != 0 { assert entries[i] in entries; }
    LoopIsMergeIff(log, prev, entries);
  }

  /** A request delivered twice has the effect of one delivery. */
  lemma MergeIdempotent(log: seq<Entry>, prev: nat, entries: seq<Entry>)
    requires prev <= |log|
    ensures prev <= |Merge(log, prev, entries)|
    ensures Merge(Merge(log, prev, entries), prev, entries) == Merge(log, prev, entries)
  {
    var m := Merge(log, prev, entries);
    var c := FirstConflict(log, prev, entries);
    if c < |entries| {
      forall i | 0 <= i < |entries| ensures Holds(m, prev, entries, i) {
        if i < c {
          assert Holds(log, prev, entries, i) && m[prev + i] == log[prev + i];
        } else {
          assert m[prev + i] == entries[i];
        }
      }
    }
  }

  /** The same for the follower loop on entries that leaders create. */
  lemma ReplayTwice(log: seq<Entry>, prev: nat, entries: seq<Entry>)
    requires prev <= |log|
    requires forall e | e in entries :: e.term != 0
    ensures Replay(Replay(log, prev, entries), prev, entries) == Replay(log, prev, entries)
  {
    hide Merge, Replay;
    LoopIsMerge(log, prev, entries);
    MergeIdempotent(log, prev, entries);
    LoopIsMerge(Merge(log, prev, entries), prev, entries);
  }

  /** Where `leader` and `log` agree up to `prev` and equal terms mean equal prefixes, merging a
      slice of `leader` gives the old log when that already covers the slice, and the leader's
      own prefix otherwise. In both cases nothing that agreed with the leader is lost. */
  lemma MergeSlice(log: seq<Entry>, leader: seq<Entry>, prev: nat, entries: seq<Entry>)
    requires Agree(log, leader, prev)
    requires prev + |entries| <= |leader| && entries == leader[prev..prev + |entries|]
    requires forall i | 0 <= i < |log| && i < |leader| && log[i].term == leader[i].term ::
               Agree(log, leader, i + 1)
    ensures var m := Merge(log, prev, entries);
            && Agree(m, leader, prev + |entries|)
            && (m == log || m == leader[..prev + |entries|])
            && forall k: nat {:trigger Agree(log, leader, k)} | Agree(log, leader, k) :: Agree(log, m, k)
  {
    var m := Merge(log, prev, entries);
    var c := FirstConflict(log, prev, entries);
    assert forall i | 0 <= i < |entries| :: entries[i] == leader[prev + i];
    if c < |entries| {
      if c > 0 { assert Holds(log, prev, entries, c - 1); assert log[prev + c - 1].term == leader[prev + c - 1].term; }
      assert Agree(log, leader, prev + c);
      assert log[..prev + c] == leader[..prev + c];
      assert entries[c..] == leader[prev + c..prev + |entries|];
      assert m == leader[..prev + |entries|];
      forall k: nat | Agree(log, leader, k) ensures k <= prev + c {
        assert !Holds(log, prev, entries, c);
        assert prev + c < |log| ==> log[prev + c].term != leader[prev + c].term;
      }
    } else if c > 0 {
      assert Holds(log, prev, entries, c - 1);
      assert log[prev + c - 1].term == leader[prev + c - 1].term;
    }
  }

  /** The same for the follower loop. */
  lemma ReplaySlice(log: seq<Entry>, leader: seq<Entry>, prev: nat, entries: seq<Entry>)
    requires Agree(log, leader, prev)
    requires prev + |entries| <= |leader| && entries == leader[prev..prev + |entries|]
    requires forall i | 0 <= i < |log| && i < |leader| && log[i].term == leader[i].term ::
               Agree(log, leader, i + 1)
    requires forall e | e in entries :: e.term != 0
    ensures var m := Replay(log, prev, entries);
            && Agree(m, leader, prev + |entries|)
            && (m == log || m == leader[..prev + |entries|])
            && forall k: nat {:trigger Agree(log, leader, k)} | Agree(log, leader, k) :: Agree(log, m, k)
  {
    LoopIsMerge(log, prev, entries);
    MergeSlice(log, leader, prev, entries);
  }

  /** A stale, shorter request of the same leader removes nothing: the loop leaves the log as it is,
      whatever the terms. */
  lemma StaleRequestKeepsLog(log: seq<Entry>, leader: seq<Entry>, prev: nat, entries: seq<Entry>)
    requires prev + |entries| <= |leader| && entries == leader[prev..prev + |entries|]
    requires Agree(log, leader, prev + |entries|)
    ensures prev <= |log| && Replay(log, prev, entries) == log
  {
    assert forall i | 0 <= i < |entries| :: log[prev + i] == leader[prev + i] == entries[i];
    assert forall i | 0 <= i < |entries| :: Holds(log, prev, entries, i);
    LoopIsMergeIff(log, prev, entries);
  }
}
