/** TVolatileState of miniraft/raft.h, updated in place. */
module VolatileState {
  import opened Commit
  import P = Protocol
  import S = LogState

  /** Servers among `keys` with a recorded index of at least `v`. */
  ghost function Reached(keys: set<nat>, matched: map<nat, nat>, v: nat): set<nat>
    requires keys <= matched.Keys
  {
    set k | k in keys && matched[k] >= v
  }

  class State {
    var commitIndex: nat
    var commitSeqno: nat
    var leaderId: nat
    var nextIndex: map<nat, nat>
    var matchIndex: map<nat, nat>
    var votes: set<nat>
    var heartbeatDue: map<nat, P.Time>
    var rpcDue: map<nat, P.Time>
    var batchSize: map<nat, nat>
    var backOff: map<nat, nat>
    var electionDue: P.Time

    function View(): P.Volatile
      reads this
    {
      P.Volatile(commitIndex, commitSeqno, leaderId, nextIndex, matchIndex, votes,
                 heartbeatDue, rpcDue, batchSize, backOff, electionDue)
    }

    constructor (v: P.Volatile)
      ensures View() == v
    {
      commitIndex, commitSeqno, leaderId := v.commitIndex, v.commitSeqno, v.leaderId;
      nextIndex, matchIndex, votes := v.nextIndex, v.matchIndex, v.votes;
      heartbeatDue, rpcDue := v.heartbeatDue, v.rpcDue;
      batchSize, backOff, electionDue := v.batchSize, v.backOff, v.electionDue;
    }

    /** The recorded indices, in the arbitrary order of the hash map. */
    method Collect() returns (indices: seq<nat>)
      ensures |indices| == |matchIndex|
      ensures forall v: nat :: CountGe(indices, v) == |Reached(matchIndex.Keys, matchIndex, v)|
    {
      indices := [];
      var keys := matchIndex.Keys;
      while keys != {}
        invariant keys <= matchIndex.Keys && |indices| + |keys| == |matchIndex|
        invariant forall v: nat :: CountGe(indices, v) == |Reached(matchIndex.Keys - keys, matchIndex, v)|
        decreases |keys|
      {
        var k :| k in keys;
        forall v: nat
          ensures CountGe(indices + [matchIndex[k]], v)
               == |Reached(matchIndex.Keys - (keys - {k}), matchIndex, v)|
        {
          CountConcat(indices, matchIndex[k], v);
          assert matchIndex.Keys - (keys - {k}) == (matchIndex.Keys - keys) + {k};
          ReachedOneMore(matchIndex.Keys - keys, k, matchIndex, v);
        }
        indices := indices + [matchIndex[k]];
        keys := keys - {k};
      }
      assert matchIndex.Keys - {} == matchIndex.Keys;
    }

    /** Zeros up to the size of the cluster do not change who holds a positive index. */
    method Pad(s: seq<nat>, n: nat) returns (r: seq<nat>)
      requires |s| <= n
      ensures |r| == n && forall v: nat | v > 0 :: CountGe(r, v) == CountGe(s, v)
    {
      r := s;
      while |r| < n
        invariant |r| <= n && forall v: nat | v > 0 :: CountGe(r, v) == CountGe(s, v)
      {
        forall v: nat | v > 0 ensures CountGe(r + [0], v) == CountGe(r, v) { CountConcat(r, 0, v); }
        r := r + [0];
      }
    }

    /** Sorted indices at position nservers / 2: the largest index a commit quorum holds. */
    method PickIndex(last: nat, nservers: nat, ghost id: nat, ghost peers: seq<nat>) returns (q: nat)
      requires Distinct(peers) && id !in peers && nservers == |peers| + 1
      requires forall p | p in matchIndex :: p in peers
      ensures q == P.QuorumIndex(peers, matchIndex, last)
    {
      hide P.Sort, P.QuorumIndex, CountGe, Holders, Reached, Distinct;
      KeysFit(matchIndex, peers);
      var indices := Collect();
      ghost var collected := indices;
      indices := indices + [last];
      indices := Pad(indices, nservers);
      ghost var unsorted := indices;
      indices := P.Sort(indices);
      q := indices[nservers / 2];
      SortedPosition(unsorted, nservers / 2);
      IndicesCount(id, peers, matchIndex, last, collected, unsorted);
      QuorumIndexUnique(id, peers, matchIndex, last, q);
    }

    method CommitAdvance(nservers: nat, state: S.State, seqno: nat, ghost id: nat, ghost peers: seq<nat>)
      requires state.Valid() && Distinct(peers) && id !in peers && nservers == |peers| + 1
      requires forall p | p in matchIndex :: p in peers
      modifies this`commitIndex, this`commitSeqno
      ensures View() == P.CommitAdvance(old(View()), peers, state.currentTerm, state.log, seqno)
    {
      var q := PickIndex(state.lastLogIndex, nservers, id, peers);
      var index := P.Max(commitIndex, q);
      var term := state.TermAt(index);
      if term == state.currentTerm {
        commitSeqno := P.Max(commitSeqno, seqno);
        commitIndex := index;
      }
    }
  }

  lemma {:induction false} CountAll(s: seq<nat>)
    ensures CountGe(s, 0) == |s|
  {
    if s != [] { CountAll(s[..|s| - 1]); }
  }

  lemma ReachedOneMore(done: set<nat>, k: nat, matched: map<nat, nat>, v: nat)
    requires done <= matched.Keys && k in matched && k !in done
    ensures |Reached(done + {k}, matched, v)| == |Reached(done, matched, v)| + (if matched[k] >= v then 1 else 0)
  {
    assert Reached(done + {k}, matched, v) == Reached(done, matched, v) + (if matched[k] >= v then {k} else {});
  }

  /** The padded indices count the holders the leader knows of. */
  lemma IndicesCount(id: nat, peers: seq<nat>, matched: map<nat, nat>, last: nat, collected: seq<nat>, padded: seq<nat>)
    requires Distinct(peers) && id !in peers && |padded| == |peers| + 1
    requires forall p | p in matched :: p in peers
    requires forall v: nat :: CountGe(collected, v) == |Reached(matched.Keys, matched, v)|
    requires forall v: nat | v > 0 :: CountGe(padded, v) == CountGe(collected + [last], v)
    ensures forall v: nat :: CountGe(padded, v) == |Holders(id, peers, matched, last, v)|
  {
    forall v: nat ensures CountGe(padded, v) == |Holders(id, peers, matched, last, v)| {
      if v == 0 {
        CountAll(padded);
        CountAll(P.Indices(peers, matched, last));
        CountIsHolders(id, peers, matched, last, 0);
      } else {
        CountConcat(collected, last, v);
        HoldersReached(id, peers, matched, last, v);
      }
    }
  }

  lemma HoldersReached(id: nat, peers: seq<nat>, matched: map<nat, nat>, last: nat, v: nat)
    requires id !in peers && v > 0 && forall p | p in matched :: p in peers
    ensures |Holders(id, peers, matched, last, v)| == |Reached(matched.Keys, matched, v)| + (if last >= v then 1 else 0)
  {
    assert Reached(matched.Keys, matched, v) == PeersHolding(peers, matched, v);
    assert id !in PeersHolding(peers, matched, v);
  }

  lemma KeysFit(m: map<nat, nat>, peers: seq<nat>)
    requires forall p | p in m :: p in peers
    ensures |m| <= |peers|
  {
    MembersSize(peers);
    SubsetSize(m.Keys, Members(peers));
  }

  /** At most one index is held by a commit quorum while its successor is not. */
  lemma QuorumIndexUnique(id: nat, peers: seq<nat>, matched: map<nat, nat>, last: nat, q: nat)
    requires Distinct(peers) && id !in peers
    requires QuorumHolds(id, peers, matched, last, q) && !QuorumHolds(id, peers, matched, last, q + 1)
    ensures q == P.QuorumIndex(peers, matched, last)
  {
    hide P.QuorumIndex, Distinct, Holders;
    QuorumIndexIsLargest(id, peers, matched, last);
    var v := P.QuorumIndex(peers, matched, last);
    if q < v { HoldersAntitone(id, peers, matched, last, q + 1, v); }
  }
}
