/** TDiskState of miniraft/persist.cpp on the bytes of its three files, and the vector log that it
    stands for. */
module Disk {
  import opened Messages
  import opened Bytes
  import F = Framing
  import W = Wires

  /** A log entry as it lies in memory, on disk and on the wire. */
  function Record(e: Entry): (r: Bin)
    ensures |r| == W.HEADER + |e.data|
  {
    ToBytes(W.LOG_ENTRY, 4) + ToBytes(W.HEADER + |e.data|, 4) + ToBytes(e.term, 8) + ToBytes(e.flags, 8) + e.data
  }

  /** The log file holds an entry as the network carries it. */
  lemma RecordIsWire(e: Entry)
    ensures Record(e) == F.Serialize(W.EntryWire(e))
  {
    hide ToBytes;
    var a, b, c, d := ToBytes(W.LOG_ENTRY, 4), ToBytes(W.HEADER + |e.data|, 4), ToBytes(e.term, 8), ToBytes(e.flags, 8);
    W.PackedEntry(e);
    assert F.Header(W.EntryWire(e)) == a + b;
    assert F.SerializeAll([]) == [];
    assert (a + b) + (c + d + e.data) + [] == a + b + c + d + e.data;
  }

  datatype Fetch = Missing | Broken | Found(entry: Entry, next: nat)

  /** Read: the record at `at` and where it ends; Broken stands for the exception. The type field is
      not looked at. */
  function ReadAt(file: Bin, at: nat): Fetch {
    if at + W.HEADER > |file| then Broken
    else
      var len := FromBytes(file[at + 4..at + 8]);
      if len < W.HEADER || at + len > |file| then Broken
      else Found(Entry(FromBytes(file[at + 8..at + 16]), FromBytes(file[at + 16..at + 24]), file[at + 24..at + len]),
                 at + len)
  }

  /** Writing `bytes` at position `at`; a gap is filled with zeros. */
  function Overwrite(file: Bin, at: nat, bytes: Bin): Bin {
    if at > |file| then file + seq(at - |file|, _ => 0 as byte) + bytes
    else file[..at] + bytes + (if at + |bytes| <= |file| then file[at + |bytes|..] else [])
  }

  /** The three files, the position in the entries file, and the fields in memory. */
  datatype Disk = Disk(entries: Bin, cursor: nat, index: Bin, state: Bin,
                       currentTerm: nat, votedFor: nat, lastLogIndex: nat, lastLogTerm: nat)

  function StateBytes(lastLogIndex: nat, currentTerm: nat, votedFor: nat): Bin {
    ToBytes(lastLogIndex, 8) + ToBytes(currentTerm, 8) + ToBytes(votedFor, 4)
  }

  function Commit(d: Disk): Disk {
    d.(state := Overwrite(d.state, 0, StateBytes(d.lastLogIndex, d.currentTerm, d.votedFor)))
  }

  function Get(d: Disk, i: int): Fetch {
    if i < 1 || i > d.lastLogIndex || 8 * i > |d.index| then Missing
    else ReadAt(d.entries, FromBytes(d.index[8 * (i - 1)..8 * i]))
  }

  /** Get leaves the entries file positioned after the record it found. */
  function OnGet(d: Disk, i: int): Disk {
    var f := Get(d, i);
    if f.Found? then d.(cursor := f.next) else d
  }

  /** Append writes wherever the search for the last entry left the file, but when there is no last
      entry it records offset 0. */
  function OnAppend(d: Disk, e: Entry): Disk {
    var at := OnGet(d, d.lastLogIndex).cursor;
    var offset := if Get(d, d.lastLogIndex).Found? then at else 0;
    Commit(d.(entries := Overwrite(d.entries, at, Record(e)), cursor := at + |Record(e)|,
              index := Overwrite(d.index, 8 * d.lastLogIndex, ToBytes(offset, 8)),
              lastLogTerm := e.term, lastLogIndex := d.lastLogIndex + 1))
  }

  function OnRemoveLast(d: Disk): Disk {
    if d.lastLogIndex > 0 then Commit(d.(lastLogIndex := d.lastLogIndex - 1)) else d
  }

  /** The protocol sets term and vote and commits them. */
  function OnVote(d: Disk, term: nat, vote: nat): Disk { Commit(d.(currentTerm := term, votedFor := vote)) }

  /** The constructor on existing files: a state file of the right size is read, any other is
      replaced by the defaults. */
  function Open(entries: Bin, index: Bin, state: Bin): Disk {
    var d :=
      if |state| == 20
      then Disk(entries, 0, index, state, FromBytes(state[8..16]), FromBytes(state[16..20]), FromBytes(state[..8]), 0)
      else Commit(Disk(entries, 0, index, state, 1, 0, 0, 0));
    var f := Get(d, d.lastLogIndex);
    if d.lastLogIndex > 0 && f.Found? then OnGet(d, d.lastLogIndex).(lastLogTerm := f.entry.term) else d
  }

  // --- Records and offsets of a log -----------------------------------------------------------

  function Records(log: seq<Entry>): Bin {
    if log == [] then [] else Records(log[..|log| - 1]) + Record(log[|log| - 1])
  }

  /** Where record `i` begins when the records lie one after the other. */
  function Start(log: seq<Entry>, i: nat): nat
    requires i <= |log|
  {
    |Records(log[..i])|
  }

  function Offsets(log: seq<Entry>): (r: Bin)
    ensures |r| == 8 * |log|
  {
    if log == [] then []
    else Offsets(log[..|log| - 1]) + ToBytes(|Records(log[..|log| - 1])|, 8)
  }

  lemma RecordFields(e: Entry)
    requires W.EntryFits(e)
    ensures var r := Record(e);
            && FromBytes(r[4..8]) == W.HEADER + |e.data| && FromBytes(r[8..16]) == e.term
            && FromBytes(r[16..24]) == e.flags && r[24..] == e.data
  {
    hide ToBytes, FromBytes, Pow256;
    FieldSizes();
    var a, b, c, d := ToBytes(W.LOG_ENTRY, 4), ToBytes(W.HEADER + |e.data|, 4), ToBytes(e.term, 8), ToBytes(e.flags, 8);
    FieldRoundTrip(W.HEADER + |e.data|, 4);
    FieldRoundTrip(e.term, 8);
    FieldRoundTrip(e.flags, 8);
    SplitRecord(a, b, c, d, e.data);
  }

  lemma SplitRecord(a: Bin, b: Bin, c: Bin, d: Bin, data: Bin)
    requires |a| == 4 && |b| == 4 && |c| == 8 && |d| == 8
    ensures var r := a + b + c + d + data;
            r[4..8] == b && r[8..16] == c && r[16..24] == d && r[24..] == data
  {
  }

  lemma SliceOfSlice(s: Bin, at: nat, n: nat, lo: nat, hi: nat)
    requires lo <= hi <= n && at + n <= |s|
    ensures s[at..at + n][lo..hi] == s[at + lo..at + hi]
  {
    var t, u := s[at..at + n][lo..hi], s[at + lo..at + hi];
    assert forall k | 0 <= k < |t| :: t[k] == s[at..at + n][lo + k] == s[at + lo + k] == u[k];
  }

  /** A record written anywhere is read back. */
  lemma RecordRoundTrip(file: Bin, at: nat, e: Entry)
    requires W.EntryFits(e)
    requires at + |Record(e)| <= |file| && file[at..at + |Record(e)|] == Record(e)
    ensures ReadAt(file, at) == Found(e, at + |Record(e)|)
  {
    RecordFields(e);
    hide Record, FromBytes;
    var n := W.HEADER + |e.data|;
    SliceOfSlice(file, at, n, 4, 8);
    SliceOfSlice(file, at, n, 8, 16);
    SliceOfSlice(file, at, n, 16, 24);
    SliceOfSlice(file, at, n, 24, n);
    assert Record(e)[24..n] == Record(e)[24..];
  }

  lemma {:induction false} RecordAt(log: seq<Entry>, i: nat)
    requires i < |log|
    ensures var r := Record(log[i]);
            && Start(log, i) + |r| <= |Records(log)|
            && Records(log)[Start(log, i)..Start(log, i) + |r|] == r
            && Start(log, i + 1) == Start(log, i) + |r|
  {
    hide Record;
    var n := |log| - 1;
    assert log[..i + 1][..i] == log[..i];
    if i < n {
      RecordAt(log[..n], i);
      assert log[..n][..i] == log[..i] && log[..n][..i + 1] == log[..i + 1];
    } else {
      assert log[..i + 1] == log;
    }
  }

  lemma {:induction false} OffsetAt(log: seq<Entry>, i: nat)
    requires i < |log|
    ensures Offsets(log)[8 * i..8 * (i + 1)] == ToBytes(Start(log, i), 8)
  {
    hide ToBytes;
    var n := |log| - 1;
    if i < n {
      OffsetAt(log[..n], i);
      assert log[..n][..i] == log[..i];
    }
  }

  // --- What the files stand for ---------------------------------------------------------------

  /** The entries file starts with the records of the live log, one after the other, the index file
      with their offsets, and the state file holds the fields. Whatever follows is stale. */
  ghost predicate Represents(d: Disk, log: seq<Entry>) {
    && d.lastLogIndex == |log|
    && Records(log) <= d.entries
    && Offsets(log) <= d.index
    && d.state == StateBytes(d.lastLogIndex, d.currentTerm, d.votedFor)
  }

  /** Entries, offsets and fields fit their fields. */
  ghost predicate Small(log: seq<Entry>) {
    && |log| < LIMIT64
    && |Records(log)| < LIMIT64
    && forall e | e in log :: W.EntryFits(e)
  }

  /** Reading finds exactly the live entries, and leaves the file after the one it found. */
  lemma GetFinds(d: Disk, log: seq<Entry>, i: int)
    requires Represents(d, log) && Small(log)
    ensures 1 <= i <= |log| ==> Get(d, i) == Found(log[i - 1], Start(log, i))
    ensures !(1 <= i <= |log|) ==> Get(d, i) == Missing
  {
    hide Records, Offsets, Record, ToBytes, FromBytes, ReadAt;
    if 1 <= i <= |log| {
      RecordAt(log, i - 1);
      OffsetAt(log, i - 1);
      PrefixSlice(Offsets(log), d.index, 8 * (i - 1), 8 * i);
      StartBound(log, i - 1);
      FieldSizes();
      FieldRoundTrip(Start(log, i - 1), 8);
      var e := log[i - 1];
      PrefixSlice(Records(log), d.entries, Start(log, i - 1), Start(log, i - 1) + |Record(e)|);
      RecordRoundTrip(d.entries, Start(log, i - 1), e);
    }
  }

  lemma PrefixSlice(p: Bin, s: Bin, lo: nat, hi: nat)
    requires p <= s && lo <= hi <= |p|
    ensures s[lo..hi] == p[lo..hi]
  {
  }

  lemma StartBound(log: seq<Entry>, i: nat)
    requires i < |log| && |Records(log)| < LIMIT64
    ensures Start(log, i) < LIMIT64
  {
    RecordAt(log, i);
  }

  lemma WriteExtends(file: Bin, kept: Bin, bytes: Bin)
    requires kept <= file
    ensures kept + bytes <= Overwrite(file, |kept|, bytes)
  {
  }

  lemma RecordsSnoc(log: seq<Entry>, e: Entry)
    ensures Records(log + [e]) == Records(log) + Record(e)
    ensures Offsets(log + [e]) == Offsets(log) + ToBytes(|Records(log)|, 8)
  {
    assert (log + [e])[..|log|] == log;
  }

  lemma CommitWrites(d: Disk)
    requires |d.state| == 20 || |d.state| == 0
    ensures Commit(d).state == StateBytes(d.lastLogIndex, d.currentTerm, d.votedFor)
  {
    hide ToBytes;
  }

  /** Appending where the last record ends, or at the start of the file when there is none. */
  lemma AppendKeeps(d: Disk, log: seq<Entry>, e: Entry)
    requires Represents(d, log) && Small(log) && (log == [] ==> d.cursor == 0)
    ensures Represents(OnAppend(d, e), log + [e])
    ensures OnAppend(d, e).lastLogTerm == e.term && OnAppend(d, e).cursor == |Records(log + [e])|
  {
    GetFinds(d, log, |log|);
    hide Record, ToBytes, Get, Small;
    RecordsSnoc(log, e);
    assert log[..|log|] == log;
    assert OnGet(d, |log|).cursor == |Records(log)|;
    WriteExtends(d.entries, Records(log), Record(e));
    WriteExtends(d.index, Offsets(log), ToBytes(|Records(log)|, 8));
    hide Records, Offsets, Overwrite;
    var d1 := d.(entries := Overwrite(d.entries, |Records(log)|, Record(e)), cursor := |Records(log)| + |Record(e)|,
                 index := Overwrite(d.index, 8 * |log|, ToBytes(|Records(log)|, 8)),
                 lastLogTerm := e.term, lastLogIndex := |log| + 1);
    CommitWrites(d1);
  }

  lemma RemoveKeeps(d: Disk, log: seq<Entry>)
    requires Represents(d, log) && log != []
    ensures Represents(OnRemoveLast(d), log[..|log| - 1])
  {
    hide Record, ToBytes;
    CommitWrites(d.(lastLogIndex := d.lastLogIndex - 1));
  }
}
