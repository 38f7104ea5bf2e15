/** Whole runs of TDiskState against the vector log of miniraft/state.h: appends, removals, reads,
    votes and clean reopenings in any order. */
module DiskRuns {
  import opened Messages
  import opened Log
  import opened Bytes
  import opened Disk
  import W = Wires

  datatype Op = Append(e: Entry) | RemoveLast | Fetch(i: int) | Vote(term: nat, vote: nat) | Reopen

  function OnOp(d: Disk, op: Op): Disk {
    match op
    case Append(e) => OnAppend(d, e)
    case RemoveLast => OnRemoveLast(d)
    case Fetch(i) => OnGet(d, i)
    case Vote(term, vote) => OnVote(d, term, vote)
    case Reopen => Open(d.entries, d.index, d.state)
  }

  /** The files and fields after a run that began without files. */
  function DiskAfter(ops: seq<Op>): Disk {
    if ops == [] then Open([], [], []) else OnOp(DiskAfter(ops[..|ops| - 1]), ops[|ops| - 1])
  }

  /** The same on the vector log. */
  function OnLog(log: seq<Entry>, op: Op): seq<Entry> {
    match op
    case Append(e) => log + [e]
    case RemoveLast => if log == [] then log else log[..|log| - 1]
    case _ => log
  }

  /** What the vector log holds after the same run. */
  function LogAfter(ops: seq<Op>): seq<Entry> {
    if ops == [] then [] else OnLog(LogAfter(ops[..|ops| - 1]), ops[|ops| - 1])
  }

  /** Term and vote after the run. */
  function VoteAfter(ops: seq<Op>): (nat, nat) {
    if ops == [] then (1, 0)
    else if ops[|ops| - 1].Vote? then (ops[|ops| - 1].term, ops[|ops| - 1].vote)
    else VoteAfter(ops[..|ops| - 1])
  }

  /** An entry was appended or read since the files were opened. */
  predicate Touched(ops: seq<Op>) {
    if ops == [] then false
    else
      var before := ops[..|ops| - 1];
      match ops[|ops| - 1]
      case Append(_) => true
      case Fetch(i) => Touched(before) || 1 <= i <= |LogAfter(before)|
      case Reopen => LogAfter(before) != []
      case _ => Touched(before)
  }

  /** The entry whose record lies at the start of the entries file. */
  function First(ops: seq<Op>): Option<Entry> {
    if ops == [] then None
    else
      var before := ops[..|ops| - 1];
      var op := ops[|ops| - 1];
      if op.Append? && LogAfter(before) == [] then Some(op.e) else First(before)
  }

  /** No append to an empty log once the session has touched an entry. */
  ghost predicate Careful(ops: seq<Op>) {
    forall i | 0 <= i < |ops| :: CarefulAt(ops, i)
  }

  ghost predicate CarefulAt(ops: seq<Op>, i: nat)
    requires i < |ops|
  {
    ops[i].Append? && LogAfter(ops[..i]) == [] ==> !Touched(ops[..i])
  }

  /** Everything written along the run fits its field. */
  ghost predicate SmallRun(ops: seq<Op>) {
    && (forall i | 0 <= i <= |ops| :: Small(LogAfter(ops[..i])))
    && forall i | 0 <= i < |ops| && ops[i].Vote? :: ops[i].term < LIMIT64 && ops[i].vote < LIMIT32
  }

  /** The entries file starts with the record of `first`, and the position is behind it or 0. */
  ghost predicate Begins(d: Disk, first: Option<Entry>) {
    match first
    case None => d.cursor == 0
    case Some(e) => W.EntryFits(e) && Record(e) <= d.entries && (d.cursor == 0 || d.cursor >= |Record(e)|)
  }

  ghost predicate Kept(d: Disk, log: seq<Entry>, vote: (nat, nat), touched: bool, first: Option<Entry>) {
    && Represents(d, log)
    && (d.currentTerm, d.votedFor) == vote && vote.0 < LIMIT64 && vote.1 < LIMIT32
    && (d.cursor > 0 <==> touched)
    && Begins(d, first)
    && (log != [] ==> first == Some(log[0]))
  }

  lemma FirstRecordPrefix(log: seq<Entry>)
    requires log != []
    ensures Record(log[0]) <= Records(log)
  {
    hide Record;
    RecordAt(log, 0);
    assert log[..0] == [];
  }

  lemma KeepAppend(d: Disk, log: seq<Entry>, vote: (nat, nat), touched: bool, first: Option<Entry>, e: Entry)
    requires Kept(d, log, vote, touched, first) && Small(log) && Small(log + [e]) && (log == [] ==> !touched)
    ensures Kept(OnAppend(d, e), log + [e], vote, true, if log == [] then Some(e) else first)
  {
    AppendKeeps(d, log, e);
    FirstRecordPrefix(log + [e]);
    var d' := OnAppend(d, e);
    assert (log + [e])[0] in log + [e];
    assert d'.currentTerm == d.currentTerm && d'.votedFor == d.votedFor;
  }

  lemma KeepRemove(d: Disk, log: seq<Entry>, vote: (nat, nat), touched: bool, first: Option<Entry>)
    requires Kept(d, log, vote, touched, first) && log != []
    ensures Kept(OnRemoveLast(d), log[..|log| - 1], vote, touched, first)
  {
    hide Record;
    RemoveKeeps(d, log);
  }

  lemma KeepFetch(d: Disk, log: seq<Entry>, vote: (nat, nat), touched: bool, first: Option<Entry>, i: int)
    requires Kept(d, log, vote, touched, first) && Small(log)
    ensures Kept(OnGet(d, i), log, vote, touched || 1 <= i <= |log|, first)
  {
    hide Record, Records, Offsets, ToBytes, Get;
    GetFinds(d, log, i);
    if 1 <= i <= |log| {
      StartAfterFirst(log, i);
    }
  }

  /** Every record after the first ends behind the first. */
  lemma {:induction false} StartAfterFirst(log: seq<Entry>, i: nat)
    requires 1 <= i <= |log|
    ensures Start(log, i) >= |Record(log[0])| > 0
  {
    hide Record;
    RecordAt(log, i - 1);
    if i > 1 { StartAfterFirst(log, i - 1); } else { assert log[..0] == []; }
  }

  lemma KeepVote(d: Disk, log: seq<Entry>, v: (nat, nat), touched: bool, first: Option<Entry>, term: nat, vote: nat)
    requires Kept(d, log, v, touched, first) && term < LIMIT64 && vote < LIMIT32
    ensures Kept(OnVote(d, term, vote), log, (term, vote), touched, first)
  {
    hide Record, Records, Offsets, ToBytes;
    CommitWrites(d.(currentTerm := term, votedFor := vote));
  }

  lemma StateFields(lastLogIndex: nat, term: nat, vote: nat)
    requires lastLogIndex < LIMIT64 && term < LIMIT64 && vote < LIMIT32
    ensures var s := StateBytes(lastLogIndex, term, vote);
            |s| == 20 && FromBytes(s[..8]) == lastLogIndex && FromBytes(s[8..16]) == term && FromBytes(s[16..20]) == vote
  {
    hide ToBytes, FromBytes;
    FieldSizes();
    FieldRoundTrip(lastLogIndex, 8);
    FieldRoundTrip(term, 8);
    FieldRoundTrip(vote, 4);
    var a, b, c := ToBytes(lastLogIndex, 8), ToBytes(term, 8), ToBytes(vote, 4);
    var s := a + b + c;
    assert s[..8] == a && s[8..16] == b && s[16..20] == c;
  }

  /** A reopened log is the same, and its last term is known again. */
  lemma KeepReopen(d: Disk, log: seq<Entry>, vote: (nat, nat), touched: bool, first: Option<Entry>)
    requires Kept(d, log, vote, touched, first) && Small(log)
    ensures var d' := Open(d.entries, d.index, d.state);
            Kept(d', log, vote, log != [], first) && d'.lastLogTerm == LastTerm(log)
  {
    hide Record, Records, Offsets, ToBytes, FromBytes, Get;
    StateFields(|log|, vote.0, vote.1);
    hide StateBytes;
    var d0 := Disk(d.entries, 0, d.index, d.state, vote.0, vote.1, |log|, 0);
    assert Represents(d0, log);
    GetFinds(d0, log, |log|);
    if log != [] {
      StartAfterFirst(log, |log|);
    }
  }

  lemma SmallPrefix(ops: seq<Op>)
    requires ops != [] && SmallRun(ops) && Careful(ops)
    ensures SmallRun(ops[..|ops| - 1]) && Careful(ops[..|ops| - 1])
    ensures Small(LogAfter(ops[..|ops| - 1])) && Small(LogAfter(ops))
  {
    hide Small, LogAfter, Touched;
    var n := |ops| - 1;
    assert ops[..|ops|] == ops;
    assert forall i {:trigger ops[..n][..i]} | 0 <= i <= n :: ops[..n][..i] == ops[..i];
    forall i | 0 <= i < n ensures CarefulAt(ops[..n], i) {
      assert CarefulAt(ops, i);
      assert ops[..n][..i] == ops[..i] && ops[..n][i] == ops[i];
    }
    forall i | 0 <= i <= n ensures Small(LogAfter(ops[..n][..i])) {
      assert Small(LogAfter(ops[..i]));
    }
  }

  lemma {:induction false} RunKept(ops: seq<Op>)
    requires Careful(ops) && SmallRun(ops)
    ensures Kept(DiskAfter(ops), LogAfter(ops), VoteAfter(ops), Touched(ops), First(ops))
  {
    hide Kept, OnAppend, OnGet, OnRemoveLast, OnVote, Open, Small, SmallRun, Careful;
    if ops == [] {
      StartKept();
    } else {
      var n := |ops| - 1;
      var before := ops[..n];
      assert ops[n].Append? && LogAfter(before) == [] ==> !Touched(before) by { CarefulLast(ops); }
      SmallPrefix(ops);
      RunKept(before);
      var d, log, vote := DiskAfter(before), LogAfter(before), VoteAfter(before);
      match ops[n]
      case Append(e) => KeepAppend(d, log, vote, Touched(before), First(before), e);
      case RemoveLast => if log == [] { KeepRemoveNothing(d, log, vote, Touched(before), First(before)); }
                         else { KeepRemove(d, log, vote, Touched(before), First(before)); }
      case Fetch(i) => KeepFetch(d, log, vote, Touched(before), First(before), i);
      case Vote(term, v) =>
        assert term < LIMIT64 && v < LIMIT32 by { VoteSmall(ops); }
        KeepVote(d, log, vote, Touched(before), First(before), term, v);
      case Reopen => KeepReopen(d, log, vote, Touched(before), First(before));
    }
  }

  lemma CarefulLast(ops: seq<Op>)
    requires ops != [] && Careful(ops)
    ensures CarefulAt(ops, |ops| - 1)
  {
  }

  lemma VoteSmall(ops: seq<Op>)
    requires ops != [] && SmallRun(ops) && ops[|ops| - 1].Vote?
    ensures ops[|ops| - 1].term < LIMIT64 && ops[|ops| - 1].vote < LIMIT32
  {
  }

  lemma StartKept()
    ensures Kept(Open([], [], []), [], (1, 0), false, None)
  {
    hide ToBytes;
    CommitWrites(Disk([], 0, [], [], 1, 0, 0, 0));
  }

  lemma KeepRemoveNothing(d: Disk, log: seq<Entry>, vote: (nat, nat), touched: bool, first: Option<Entry>)
    requires Kept(d, log, vote, touched, first) && log == []
    ensures Kept(OnRemoveLast(d), log, vote, touched, first)
  {
  }

  /** The disk log refines the vector log: after any careful run, reopenings included, it holds the
      same entries at the same indices and nothing else, the live records lie one after the other
      from offset 0, and term and vote are the last ones set. */
  lemma DiskRefinesLog(ops: seq<Op>, i: int)
    requires Careful(ops) && SmallRun(ops)
    ensures var d, log := DiskAfter(ops), LogAfter(ops);
            && d.lastLogIndex == |log| && (d.currentTerm, d.votedFor) == VoteAfter(ops)
            && Get(d, i) == (if 1 <= i <= |log| then Found(log[i - 1], Start(log, i)) else Missing)
  {
    RunKept(ops);
    hide Get;
    assert ops[..|ops|] == ops;
    GetFinds(DiskAfter(ops), LogAfter(ops), i);
  }

  /** The cached last term: set by an append and by a reopening, and left alone by a removal. */
  function CachedAfter(ops: seq<Op>): nat {
    if ops == [] then 0
    else
      match ops[|ops| - 1]
      case Append(e) => e.term
      case Reopen => LastTerm(LogAfter(ops[..|ops| - 1]))
      case _ => CachedAfter(ops[..|ops| - 1])
  }

  lemma {:induction false} CachedIs(ops: seq<Op>)
    requires Careful(ops) && SmallRun(ops)
    ensures DiskAfter(ops).lastLogTerm == CachedAfter(ops)
  {
    if ops == [] {
      StartCached();
    } else {
      var before := ops[..|ops| - 1];
      CarefulLast(ops);
      SmallPrefix(ops);
      CachedIs(before);
      if ops[|ops| - 1].Append? || ops[|ops| - 1].Reopen? {
        LastTermRight(ops);
      } else {
        hide Careful, SmallRun;
        LeftAlone(DiskAfter(before), ops[|ops| - 1]);
      }
    }
  }

  lemma StartCached()
    ensures Open([], [], []).lastLogTerm == 0
  {
  }

  lemma LeftAlone(d: Disk, op: Op)
    requires !op.Append? && !op.Reopen?
    ensures OnOp(d, op).lastLogTerm == d.lastLogTerm
  {
  }

  /** After a removal the cached last term is that of the entry removed, when it was right before; so it
      is right exactly when the entry now last has the same term. */
  lemma RemovalLeavesTermIff(ops: seq<Op>)
    requires Careful(ops + [RemoveLast]) && SmallRun(ops + [RemoveLast])
    requires DiskAfter(ops).lastLogTerm == LastTerm(LogAfter(ops))
    ensures var all := ops + [RemoveLast];
            DiskAfter(all).lastLogTerm == LastTerm(LogAfter(all)) <==> LastTerm(LogAfter(all)) == LastTerm(LogAfter(ops))
  {
    var all := ops + [RemoveLast];
    assert all[..|all| - 1] == ops;
    LeftAlone(DiskAfter(ops), RemoveLast);
  }

  /** The cached last term is right after an append and after a reopening. */
  lemma LastTermRight(ops: seq<Op>)
    requires Careful(ops) && SmallRun(ops) && ops != []
    requires ops[|ops| - 1].Append? || ops[|ops| - 1].Reopen?
    ensures DiskAfter(ops).lastLogTerm == LastTerm(LogAfter(ops))
  {
    hide Kept, OnAppend, Open, Small, SmallRun, Careful;
    var before := ops[..|ops| - 1];
    CarefulLast(ops);
    SmallPrefix(ops);
    RunKept(before);
    var d, log := DiskAfter(before), LogAfter(before);
    match ops[|ops| - 1]
    case Append(e) => assert Represents(d, log) && (log == [] ==> d.cursor == 0) by { KeptCursor(before); }
                      AppendKeeps(d, log, e);
    case Reopen => KeepReopen(d, log, VoteAfter(before), Touched(before), First(before));
  }

  lemma KeptCursor(ops: seq<Op>)
    requires Kept(DiskAfter(ops), LogAfter(ops), VoteAfter(ops), Touched(ops), First(ops))
    ensures Represents(DiskAfter(ops), LogAfter(ops)) && (DiskAfter(ops).cursor > 0 <==> Touched(ops))
  {
  }

  /** An entry appended to an empty log is found again exactly when the session has not touched an
      entry yet, or when it equals the entry at the start of the file; otherwise that stale entry
      is found in its place. */
  lemma AppendToEmptyIff(ops: seq<Op>, e: Entry)
    requires Careful(ops) && SmallRun(ops) && LogAfter(ops) == [] && Small([e])
    ensures var f := Get(OnAppend(DiskAfter(ops), e), 1);
            && f.Found? && (Touched(ops) ==> First(ops) == Some(f.entry))
            && (f.entry == e <==> !Touched(ops) || First(ops) == Some(e))
  {
    RunKept(ops);
    assert ops[..|ops|] == ops;
    hide ToBytes, FromBytes, ReadAt, Record;
    var d := DiskAfter(ops);
    GetFinds(d, [], 0);
    if Touched(ops) {
      StaleFound(d, First(ops).value, e);
    } else {
      AppendKeeps(d, [], e);
      assert [] + [e] == [e];
      GetFinds(OnAppend(d, e), [e], 1);
    }
  }

  lemma StaleFound(d: Disk, first: Entry, e: Entry)
    requires Represents(d, []) && W.EntryFits(first) && Record(first) <= d.entries && d.cursor >= |Record(first)|
    ensures var f := Get(OnAppend(d, e), 1);
            f.Found? && f.entry == first
  {
    var r := Record(first);
    var d' := OnAppend(d, e);
    hide Record;
    ZeroField();
    hide ToBytes, FromBytes;
    assert d'.index[0..8] == ToBytes(0, 8);
    hide Overwrite;
    assert r <= d'.entries by { BeyondKeeps(d.entries, d.cursor, Record(e), r); }
    RecordRoundTrip(d'.entries, 0, first);
  }

  lemma ZeroField()
    ensures FromBytes(ToBytes(0, 8)) == 0
  {
    FieldSizes();
    FieldRoundTrip(0, 8);
  }

  lemma BeyondKeeps(file: Bin, at: nat, bytes: Bin, r: Bin)
    requires r <= file && |r| <= at
    ensures r <= Overwrite(file, at, bytes)
  {
  }
}
