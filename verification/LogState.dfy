/** miniraft/state.h: the persistent fields of a server and its log. */
module LogState {
  import opened Messages
  import opened Log

  class State {
    var currentTerm: nat
    var votedFor: nat
    var lastLogIndex: nat
    var lastLogTerm: nat
    var log: seq<Entry>

    /** The cached fields describe the end of the log. */
    ghost predicate Valid()
      reads this
    {
      lastLogIndex == |log| && lastLogTerm == LastTerm(log)
    }

    constructor (currentTerm: nat, votedFor: nat, log: seq<Entry>)
      ensures Valid()
      ensures this.currentTerm == currentTerm && this.votedFor == votedFor && this.log == log
    {
      this.currentTerm := currentTerm;
      this.votedFor := votedFor;
      this.log := log;
      this.lastLogIndex := |log|;
      this.lastLogTerm := if log == [] then 0 else log[|log| - 1].term;
    }

    method RemoveLast()
      requires Valid() && log != []
      modifies this`log, this`lastLogIndex, this`lastLogTerm
      ensures Valid() && log == old(log)[..|old(log)| - 1]
    {
      log := log[..|log| - 1];
      lastLogIndex := |log|;
      lastLogTerm := if log == [] then 0 else log[|log| - 1].term;
    }

    method Append(e: Entry)
      requires Valid()
      modifies this`log, this`lastLogIndex, this`lastLogTerm
      ensures Valid() && log == old(log) + [e]
    {
      log := log + [e];
      lastLogIndex := |log|;
      lastLogTerm := log[|log| - 1].term;
    }

    /** Entries are numbered from 1. */
    method Get(index: nat) returns (e: Entry)
      requires Valid() && 1 <= index <= |log|
      ensures e == log[index - 1]
    {
      e := log[index - 1];
    }

    /** A negative index stands for the last one. */
    method TermAt(index: int) returns (term: nat)
      requires Valid()
      ensures term == if index < 0 then LastTerm(log) else LogTerm(log, index)
    {
      var i := if index < 0 then lastLogIndex else index;
      if i < 1 || i > lastLogIndex {
        term := 0;
      } else {
        var e := Get(i);
        term := e.term;
      }
    }

    /** The loop that makes room for a conflicting entry: drops entries until `length` are left. */
    method Truncate(length: nat)
      requires Valid()
      modifies this`log, this`lastLogIndex, this`lastLogTerm
      ensures Valid() && log == if length < |old(log)| then old(log)[..length] else old(log)
    {
      while lastLogIndex > length
        invariant Valid() && |log| <= |old(log)| && log == old(log)[..|log|]
        invariant length < |old(log)| ==> length <= |log|
        invariant length >= |old(log)| ==> log == old(log)
        decreases lastLogIndex
      {
        RemoveLast();
      }
    }

    /** The follower loop: replaces or appends the payload entries after index `prev`. */
    method ReplaceOrAppend(prev: nat, entries: seq<Entry>) returns (index: nat)
      requires Valid()
      modifies this`log, this`lastLogIndex, this`lastLogTerm
      ensures Valid() && log == Replay(old(log), prev, entries) && index == prev + |entries|
    {
      index := prev;
      for i := 0 to |entries|
        invariant Valid() && index == prev + i && log == Replay(old(log), prev, entries[..i])
      {
        assert entries[..i + 1][..i] == entries[..i];
        var e := entries[i];
        index := index + 1;
        var term := TermAt(index);
        if term != e.term {
          Truncate(index - 1);
          Append(e);
        }
      }
      assert entries[..|entries|] == entries;
    }
  }
}
