/** TVolatileState::CommitAdvance against the commit rule of the Raft paper: the sorted indices at
    position nservers / 2 name the largest index that nservers - nservers / 2 servers hold. */
module Commit {
  import opened Messages
  import opened Log
  import opened Protocol

  predicate Distinct(s: seq<nat>) {
    forall i, j | 0 <= i < j < |s| :: s[i] != s[j]
  }

  predicate Ascending(s: seq<nat>) {
    forall i, j | 0 <= i < j < |s| :: s[i] <= s[j]
  }

  /** How many elements are at least `v`. */
  function CountGe(s: seq<nat>, v: nat): (c: nat)
    ensures c <= |s|
  {
    if s == [] then 0
    else CountGe(s[..|s| - 1], v) + (if s[|s| - 1] >= v then 1 else 0)
  }

  lemma CountConcat(s: seq<nat>, x: nat, v: nat)
    ensures CountGe(s + [x], v) == CountGe(s, v) + (if x >= v then 1 else 0)
  {
    assert (s + [x])[..|s|] == s;
  }

  lemma {:induction false} InsertCounts(s: seq<nat>, x: nat, v: nat)
    ensures CountGe(Insert(s, x), v) == CountGe(s, v) + (if x >= v then 1 else 0)
  {
    if s == [] || s[|s| - 1] <= x {
      CountConcat(s, x, v);
    } else {
      InsertCounts(s[..|s| - 1], x, v);
      CountConcat(Insert(s[..|s| - 1], x), s[|s| - 1], v);
    }
  }

  lemma {:induction false} InsertAscending(s: seq<nat>, x: nat)
    requires Ascending(s)
    ensures Ascending(Insert(s, x)) && |Insert(s, x)| == |s| + 1
    ensures Insert(s, x)[|s|] == if s == [] then x else Max(x, s[|s| - 1])
  {
    if s != [] && s[|s| - 1] > x {
      var n := |s| - 1;
      InsertAscending(s[..n], x);
      assert n > 0 ==> s[..n][n - 1] <= s[n];
      AscendingSnoc(Insert(s[..n], x), s[n]);
    } else {
      AscendingSnoc(s, x);
    }
  }

  lemma AscendingSnoc(s: seq<nat>, x: nat)
    requires Ascending(s) && (s != [] ==> s[|s| - 1] <= x)
    ensures Ascending(s + [x])
  {
  }

  lemma {:induction false} SortSorts(s: seq<nat>)
    ensures Ascending(Sort(s)) && forall v: nat :: CountGe(Sort(s), v) == CountGe(s, v)
  {
    if s != [] {
      var r := Sort(s[..|s| - 1]);
      SortSorts(s[..|s| - 1]);
      InsertAscending(r, s[|s| - 1]);
      forall v: nat ensures CountGe(Sort(s), v) == CountGe(s, v) { InsertCounts(r, s[|s| - 1], v); }
    }
  }

  /** In an ascending sequence the elements from position i on are those at least s[i], and more
      than s[i] are only later ones. */
  lemma {:induction false} CountAscending(s: seq<nat>, i: nat)
    requires Ascending(s) && i < |s|
    ensures CountGe(s, s[i]) >= |s| - i && CountGe(s, s[i] + 1) < |s| - i
  {
    var n := |s| - 1;
    var init := s[..n];
    if i < n {
      CountAscending(init, i);
    } else {
      CountNone(init, s[n] + 1);
    }
  }

  lemma CountNone(s: seq<nat>, v: nat)
    requires forall i | 0 <= i < |s| :: s[i] < v
    ensures CountGe(s, v) == 0
  {
  }

  function PeersHolding(peers: seq<nat>, matched: map<nat, nat>, v: nat): set<nat> {
    set p | p in peers && Get(matched, p) >= v
  }

  /** The servers that hold at least `v` entries as far as the leader `id` knows. */
  function Holders(id: nat, peers: seq<nat>, matched: map<nat, nat>, last: nat, v: nat): set<nat> {
    PeersHolding(peers, matched, v) + (if last >= v then {id} else {})
  }

  /** Enough servers to commit: all but nservers / 2. */
  predicate QuorumHolds(id: nat, peers: seq<nat>, matched: map<nat, nat>, last: nat, v: nat) {
    var n := |peers| + 1;
    |Holders(id, peers, matched, last, v)| >= n - n / 2
  }

  lemma PeersHoldingStep(peers: seq<nat>, p: nat, matched: map<nat, nat>, v: nat)
    ensures PeersHolding(peers + [p], matched, v)
         == PeersHolding(peers, matched, v) + (if Get(matched, p) >= v then {p} else {})
  {
  }

  lemma {:induction false} CountPeers(peers: seq<nat>, matched: map<nat, nat>, v: nat)
    requires Distinct(peers)
    ensures CountGe(MatchIndices(peers, matched), v) == |PeersHolding(peers, matched, v)|
  {
    if peers == [] {
      assert PeersHolding(peers, matched, v) == {};
    } else {
      var n := |peers| - 1;
      var init, p := peers[..n], peers[n];
      CountPeers(init, matched, v);
      CountConcat(MatchIndices(init, matched), Get(matched, p), v);
      PeersHoldingStep(init, p, matched, v);
      assert peers == init + [p];
      assert p !in PeersHolding(init, matched, v);
    }
  }

  lemma CountIsHolders(id: nat, peers: seq<nat>, matched: map<nat, nat>, last: nat, v: nat)
    requires Distinct(peers) && id !in peers
    ensures CountGe(Indices(peers, matched, last), v) == |Holders(id, peers, matched, last, v)|
  {
    CountPeers(peers, matched, v);
    CountConcat(MatchIndices(peers, matched), last, v);
    assert id !in PeersHolding(peers, matched, v);
  }

  /** A larger index has fewer holders. */
  lemma HoldersAntitone(id: nat, peers: seq<nat>, matched: map<nat, nat>, last: nat, v: nat, w: nat)
    requires v <= w
    ensures |Holders(id, peers, matched, last, w)| <= |Holders(id, peers, matched, last, v)|
  {
    var a := Holders(id, peers, matched, last, w);
    var b := Holders(id, peers, matched, last, v);
    assert a <= b;
    SubsetSize(a, b);
  }

  lemma {:induction false} SubsetSize<T>(a: set<T>, b: set<T>)
    requires a <= b
    ensures |a| <= |b|
    decreases a
  {
    if x :| x in a { SubsetSize(a - {x}, b - {x}); }
  }

  /** The element at position `i` of the sorted sequence is reached by |s| - i elements, anything
      larger by fewer. */
  lemma SortedPosition(s: seq<nat>, i: nat)
    requires i < |s|
    ensures CountGe(s, Sort(s)[i]) >= |s| - i && CountGe(s, Sort(s)[i] + 1) < |s| - i
  {
    hide Sort, CountGe, Ascending;
    SortSorts(s);
    CountAscending(Sort(s), i);
  }

  /** The chosen position names the largest index a commit quorum holds. */
  lemma QuorumIndexIsLargest(id: nat, peers: seq<nat>, matched: map<nat, nat>, last: nat)
    requires Distinct(peers) && id !in peers
    ensures var v := QuorumIndex(peers, matched, last);
            && QuorumHolds(id, peers, matched, last, v)
            && forall w: nat | w > v :: !QuorumHolds(id, peers, matched, last, w)
  {
    hide Sort, CountGe, Holders, Indices, Distinct;
    var n := |peers| + 1;
    var v := QuorumIndex(peers, matched, last);
    SortedPosition(Indices(peers, matched, last), n / 2);
    CountIsHolders(id, peers, matched, last, v);
    CountIsHolders(id, peers, matched, last, v + 1);
    forall w: nat | w > v ensures !QuorumHolds(id, peers, matched, last, w) {
      HoldersAntitone(id, peers, matched, last, v + 1, w);
    }
  }

  ghost predicate TermsAscend(log: seq<Entry>) {
    forall i, j | 0 <= i < j < |log| :: log[i].term <= log[j].term
  }

  /** The rule of section 5.3 and 5.4.2 of the Raft paper: CommitIndex becomes the larger of its
      old value and the largest index of the current term that a commit quorum holds. */
  lemma CommitAdvanceIsPaperRule(id: nat, peers: seq<nat>, v: Volatile, term: nat, log: seq<Entry>, seqno: nat)
    requires Distinct(peers) && id !in peers
    requires TermsAscend(log) && LastTerm(log) <= term && 0 < term
    requires forall p | p in peers :: Get(v.matchIndex, p) <= |log|
    ensures var c := CommitAdvance(v, peers, term, log, seqno).commitIndex;
            && (c == v.commitIndex
                || (c > v.commitIndex && QuorumHolds(id, peers, v.matchIndex, |log|, c) && LogTerm(log, c) == term))
            && forall k: nat :: QuorumHolds(id, peers, v.matchIndex, |log|, k) && LogTerm(log, k) == term ==> k <= c
  {
    var q := QuorumIndex(peers, v.matchIndex, |log|);
    assert QuorumHolds(id, peers, v.matchIndex, |log|, q) by { QuorumIndexIsLargest(id, peers, v.matchIndex, |log|); }
    forall k: nat | QuorumHolds(id, peers, v.matchIndex, |log|, k) && LogTerm(log, k) == term
      ensures k <= CommitAdvance(v, peers, term, log, seqno).commitIndex
    {
      assert q <= |log| by { NobodyHoldsMore(id, peers, v.matchIndex, |log|, q); }
      assert k <= q by { QuorumIndexIsLargest(id, peers, v.matchIndex, |log|); }
      if v.commitIndex <= |log| { TermFromHere(log, k, Max(v.commitIndex, q), term); }
    }
  }

  lemma NobodyHoldsMore(id: nat, peers: seq<nat>, matched: map<nat, nat>, last: nat, q: nat)
    requires forall p | p in peers :: Get(matched, p) <= last
    requires QuorumHolds(id, peers, matched, last, q)
    ensures q <= last
  {
    assert q > last ==> Holders(id, peers, matched, last, q) == {};
  }

  /** In an ascending log that ends in term `term`, the entries after one of `term` are of it. */
  lemma TermFromHere(log: seq<Entry>, k: nat, i: nat, term: nat)
    requires TermsAscend(log) && LastTerm(log) <= term && 0 < term && LogTerm(log, k) == term && k <= i <= |log|
    ensures LogTerm(log, i) == term
  {
    assert k < i ==> log[k - 1].term <= log[i - 1].term;
    assert i < |log| ==> log[i - 1].term <= log[|log| - 1].term;
  }

  /** Every vote quorum meets every commit quorum, for odd and for even clusters. */
  lemma QuorumsMeet(servers: set<nat>, voters: set<nat>, holders: set<nat>) returns (s: nat)
    requires voters <= servers && holders <= servers && servers != {}
    requires |voters| >= MinVotes(|servers| - 1)
    requires |holders| >= |servers| - |servers| / 2
    ensures s in voters && s in holders
  {
    if voters * holders == {} {
      assert |voters + holders| == |voters| + |holders|;
      SubsetSize(voters + holders, servers);
    }
    s :| s in voters * holders;
  }

  /** Any two vote quorums meet. */
  lemma VotesMeet(servers: set<nat>, a: set<nat>, b: set<nat>) returns (s: nat)
    requires a <= servers && b <= servers && servers != {}
    requires |a| >= MinVotes(|servers| - 1) && |b| >= MinVotes(|servers| - 1)
    ensures s in a && s in b
  {
    s := QuorumsMeet(servers, a, b);
  }

  ghost predicate CommitQuorum(servers: set<nat>, a: set<nat>) {
    a <= servers && |a| >= |servers| - |servers| / 2
  }

  /** Two commit quorums can miss each other exactly in clusters of even size. */
  lemma CommitQuorumsMissIff(servers: set<nat>)
    requires servers != {}
    ensures (exists a: set<nat>, b: set<nat> :: CommitQuorum(servers, a) && CommitQuorum(servers, b) && a !! b)
       <==> |servers| % 2 == 0
  {
    forall a: set<nat>, b: set<nat> | CommitQuorum(servers, a) && CommitQuorum(servers, b) && a !! b
      ensures |servers| % 2 == 0
    {
      assert |a + b| == |a| + |b|;
      SubsetSize(a + b, servers);
    }
    if |servers| % 2 == 0 {
      var a := SomeOf(servers, |servers| / 2);
      assert |servers - a| == |servers| - |a|;
      assert CommitQuorum(servers, a) && CommitQuorum(servers, servers - a);
    }
  }

  lemma {:induction false} SomeOf(servers: set<nat>, k: nat) returns (a: set<nat>)
    requires k <= |servers|
    ensures a <= servers && |a| == k
  {
    if k == 0 {
      a := {};
    } else {
      var rest := SomeOf(servers, k - 1);
      assert |servers - rest| == |servers| - |rest|;
      var x :| x in servers - rest;
      a := rest + {x};
    }
  }

  ghost function Members(s: seq<nat>): set<nat> { set p | p in s }

  lemma {:induction false} DistinctSize(s: seq<nat>)
    requires Distinct(s)
    ensures |Members(s)| == |s|
  {
    if s != [] {
      var n := |s| - 1;
      DistinctSize(s[..n]);
      assert s == s[..n] + [s[n]];
      assert s[n] !in s[..n];
      assert Members(s) == Members(s[..n]) + {s[n]};
    }
  }

  lemma {:induction false} MembersSize(s: seq<nat>)
    ensures |Members(s)| <= |s|
  {
    if s != [] {
      var n := |s| - 1;
      MembersSize(s[..n]);
      assert s == s[..n] + [s[n]];
      assert Members(s) == Members(s[..n]) + {s[n]};
    }
  }
}
