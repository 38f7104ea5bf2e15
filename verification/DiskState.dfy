/** class TDiskState of miniraft/persist.cpp over three files that share one position for reading
    and writing. Every method computes the step of Disk.dfy. */
module DiskState {
  import opened Messages
  import opened Bytes
  import D = Disk
  import W = Wires

  /** A binary file stream. */
  class File {
    var data: Bin
    var pos: nat

    constructor (data: Bin)
      ensures this.data == data && pos == 0
    {
      this.data := data;
      pos := 0;
    }

    method Seek(p: nat)
      modifies `pos
      ensures pos == p
    {
      pos := p;
    }

    method Read(n: nat) returns (ok: bool, bytes: Bin)
      modifies `pos
      ensures ok <==> old(pos) + n <= |data|
      ensures ok ==> bytes == data[old(pos)..old(pos) + n] && pos == old(pos) + n
    {
      ok, bytes := pos + n <= |data|, [];
      if ok {
        bytes := data[pos..pos + n];
        pos := pos + n;
      }
    }

    method Write(bytes: Bin)
      modifies this
      ensures data == D.Overwrite(old(data), old(pos), bytes) && pos == old(pos) + |bytes|
    {
      if pos > |data| {
        data := data + seq(pos - |data|, _ => 0 as byte) + bytes;
      } else if pos + |bytes| <= |data| {
        data := data[..pos] + bytes + data[pos + |bytes|..];
      } else {
        data := data[..pos] + bytes;
      }
      pos := pos + |bytes|;
    }
  }

  function Behind(file: Bin, at: nat): Bin { if at <= |file| then file[at..] else [] }

  lemma OverwriteIs(file: Bin, at: nat, a: Bin)
    requires at <= |file|
    ensures D.Overwrite(file, at, a) == file[..at] + a + Behind(file, at + |a|)
  {
  }

  lemma FirstWrite(file: Bin, at: nat, a: Bin, end: nat)
    requires at <= |file| && at + |a| <= end
    ensures var f := D.Overwrite(file, at, a);
            at + |a| <= |f| && f[..at + |a|] == file[..at] + a && Behind(f, end) == Behind(file, end)
  {
  }

  lemma TwoWrites(file: Bin, at: nat, a: Bin, b: Bin)
    requires at <= |file|
    ensures D.Overwrite(D.Overwrite(file, at, a), at + |a|, b) == D.Overwrite(file, at, a + b)
  {
    FirstWrite(file, at, a, at + |a| + |b|);
    OverwriteIs(D.Overwrite(file, at, a), at + |a|, b);
    OverwriteIs(file, at, a + b);
    hide D.Overwrite, Behind;
    assert (file[..at] + a) + b == file[..at] + (a + b);
  }

  /** Three writes in a row are one. */
  lemma ThreeWrites(file: Bin, a: Bin, b: Bin, c: Bin)
    ensures var f1 := D.Overwrite(file, 0, a);
            var f2 := D.Overwrite(f1, |a|, b);
            D.Overwrite(f2, |a| + |b|, c) == D.Overwrite(file, 0, a + b + c)
  {
    TwoWrites(file, 0, a, b);
    TwoWrites(file, 0, a + b, c);
  }

  class DiskState {
    const entries: File
    const index: File
    const state: File
    var currentTerm: nat
    var votedFor: nat
    var lastLogIndex: nat
    var lastLogTerm: nat

    ghost predicate Valid() { entries != index && entries != state && index != state }

    ghost function View(): D.Disk
      reads this, entries, index, state
    {
      D.Disk(entries.data, entries.pos, index.data, state.data, currentTerm, votedFor, lastLogIndex, lastLogTerm)
    }

    /** Opens existing files. When the state file names a last entry that cannot be read the program
        fails here. */
    constructor (entries: Bin, index: Bin, state: Bin)
      ensures Valid() && fresh(this.entries) && fresh(this.index) && fresh(this.state)
      ensures var d := D.Open(entries, index, state);
              d.lastLogIndex == 0 || D.Get(d, d.lastLogIndex).Found? ==> View() == d
    {
      this.entries := new File(entries);
      this.index := new File(index);
      this.state := new File(state);
      currentTerm, votedFor, lastLogIndex, lastLogTerm := 1, 0, 0, 0;
      new;
      hide D.ReadAt, D.Overwrite, ToBytes, FromBytes;
      if |state| == 20 {
        Load();
      } else {
        Commit();
      }
      if lastLogIndex > 0 {
        var last := Get(lastLogIndex);
        if last.Found? {
          lastLogTerm := last.entry.term;
        }
      }
    }

    /** The fields in a state file of the right size. */
    method Load()
      requires |state.data| == 20
      modifies `lastLogIndex, `currentTerm, `votedFor, state`pos
      ensures lastLogIndex == FromBytes(state.data[..8]) && currentTerm == FromBytes(state.data[8..16])
      ensures votedFor == FromBytes(state.data[16..20])
    {
      hide FromBytes;
      state.Seek(0);
      var ok, field := state.Read(8);
      lastLogIndex := FromBytes(field);
      ok, field := state.Read(8);
      currentTerm := FromBytes(field);
      ok, field := state.Read(4);
      votedFor := FromBytes(field);
    }

    /** Read: the record at the current position. */
    method ReadRecord() returns (f: D.Fetch)
      modifies entries`pos
      ensures f == D.ReadAt(entries.data, old(entries.pos))
      ensures f.Found? ==> entries.pos == f.next
    {
      ghost var at := entries.pos;
      var ok, kind := entries.Read(4);
      if !ok {
        return D.Broken;
      }
      var field;
      ok, field := entries.Read(4);
      if !ok {
        return D.Broken;
      }
      var len := FromBytes(field);
      if len < W.HEADER {
        return D.Broken;
      }
      var body;
      ok, body := entries.Read(len - 8);
      if !ok {
        return D.Broken;
      }
      ghost var file := entries.data;
      D.SliceOfSlice(file, at + 8, len - 8, 0, 8);
      D.SliceOfSlice(file, at + 8, len - 8, 8, 16);
      D.SliceOfSlice(file, at + 8, len - 8, 16, len - 8);
      assert body[16..] == body[16..len - 8];
      return D.Found(Entry(FromBytes(body[0..8]), FromBytes(body[8..16]), body[16..]), entries.pos);
    }

    method Get(i: int) returns (f: D.Fetch)
      requires Valid()
      modifies entries`pos, index`pos
      ensures f == D.Get(old(View()), i)
      ensures !f.Broken? ==> View() == D.OnGet(old(View()), i)
    {
      if i > lastLogIndex || i < 1 {
        return D.Missing;
      }
      index.Seek((i - 1) * 8);
      var ok, offset := index.Read(8);
      if !ok {
        return D.Missing;
      }
      entries.Seek(FromBytes(offset));
      f := ReadRecord();
    }

    method Commit()
      requires Valid()
      modifies state
      ensures View() == D.Commit(old(View()))
    {
      state.Seek(0);
      ghost var before := state.data;
      state.Write(ToBytes(lastLogIndex, 8));
      state.Write(ToBytes(currentTerm, 8));
      state.Write(ToBytes(votedFor, 4));
      ThreeWrites(before, ToBytes(lastLogIndex, 8), ToBytes(currentTerm, 8), ToBytes(votedFor, 4));
    }

    method RemoveLast()
      requires Valid()
      modifies `lastLogIndex, state
      ensures View() == D.OnRemoveLast(old(View()))
    {
      if lastLogIndex > 0 {
        lastLogIndex := lastLogIndex - 1;
        Commit();
      }
    }

    /** False when looking for the last entry throws. */
    method Append(e: Entry) returns (ok: bool)
      requires Valid()
      modifies this, entries, index, state
      ensures ok <==> !D.Get(old(View()), old(lastLogIndex)).Broken?
      ensures ok ==> View() == D.OnAppend(old(View()), e)
    {
      hide D.Record, D.Overwrite, ToBytes;
      var offset := 0;
      var f := Get(lastLogIndex);
      if f.Broken? {
        return false;
      }
      if f.Found? {
        offset := entries.pos;
      }
      assert View() == D.OnGet(old(View()), lastLogIndex);
      entries.Write(D.Record(e));
      index.Seek(lastLogIndex * 8);
      index.Write(ToBytes(offset, 8));
      lastLogTerm := e.term;
      lastLogIndex := lastLogIndex + 1;
      Commit();
      return true;
    }
  }
}
