/** What the safety of the cluster means for the code around it: the stores built from the log, and
    the premises of the catch-up theorem. */
module Replicas {
  import opened Messages
  import opened Log
  import opened Protocol
  import opened Cluster
  import opened History
  import opened Completeness
  import opened PreserveElection
  import opened Safety
  import opened Durable
  import Kv
  import W = Waiting
  import CatchUp

  /** The TKv map of a server: its commands applied in order to an empty map. */
  ghost function StoreOf(s: Server): Kv.Store { Kv.Fold(map[], s.app.applied) }

  /** Servers that have applied equally much hold equal maps, and one that is ahead holds the
      other's map with only its own further commands applied to it. */
  lemma StoresAgree(cfg: Config, acts: seq<Action>, i: nat, j: nat, a: nat, b: nat)
    requires ValidConfig(cfg) && i <= |acts| && j <= |acts| && a in cfg && b in cfg
    requires ServerAt(cfg, acts, i, a).app.lastApplied <= ServerAt(cfg, acts, j, b).app.lastApplied
    ensures var s, s' := ServerAt(cfg, acts, i, a), ServerAt(cfg, acts, j, b);
            && s'.app.lastApplied <= |s'.node.log|
            && StoreOf(s') == Kv.Fold(StoreOf(s), NonStub(s'.node.log[s.app.lastApplied..s'.app.lastApplied]))
            && (s.app.lastApplied == s'.app.lastApplied ==> StoreOf(s) == StoreOf(s'))
  {
    hide ValidConfig, Run, NonStub, Kv.Apply;
    AppliedExactly(cfg, acts, j, b);
    AppliedExactly(cfg, acts, i, a);
    var s, s' := ServerAt(cfg, acts, i, a), ServerAt(cfg, acts, j, b);
    var k, k' := s.app.lastApplied, s'.app.lastApplied;
    forall x | 0 <= x < k ensures s.node.log[x] == s'.node.log[x] {
      StateMachineSafety(cfg, acts, i, j, a, b, x + 1);
    }
    assert s.node.log[..k] == s'.node.log[..k];
    assert s'.node.log[..k'] == s'.node.log[..k] + s'.node.log[k..k'];
    NonStubConcat(s'.node.log[..k], s'.node.log[k..k']);
    Kv.FoldConcat(map[], s.app.applied, NonStub(s'.node.log[k..k']));
    assert k == k' ==> s'.node.log[k..k'] == [];
    NonStubNothing(s'.node.log[k..k']);
  }

  /** Every entry of every log was made in some term that was won. */
  lemma EntryTermsPositive(cfg: Config, acts: seq<Action>, i: nat, a: nat, e: Entry)
    requires ValidConfig(cfg) && i <= |acts| && a in cfg
    requires e in NodeAt(cfg, acts, i, a).log
    ensures e.term != 0
  {
    hide Inv, KeepsAcks, CommitOk, Run, Grows, HistoryOk, ValidConfig;
    var h, last := HistoryFrom(cfg, acts, i);
    NodeOkAt(cfg, acts, i, a, h);
    var n := NodeAt(cfg, acts, i, a);
    var x :| 0 <= x < |n.log| && n.log[x] == e;
    assert EntryOk(h, n.log, x);
    TermPositive(cfg, h, e.term);
  }

  /** The link between `a` and `p` at moment `i` of a run. */
  ghost function LinkAt(cfg: Config, acts: seq<Action>, i: nat, a: nat, p: nat): CatchUp.Link
    requires i <= |acts| && a in cfg && p in cfg
  {
    CatchUp.Link(a, cfg[a], NodeAt(cfg, acts, i, a), p, cfg[p], NodeAt(cfg, acts, i, p))
  }

  /** A leader and any other server that is in no later term, in any reachable state, form a sound
      link: from there catch-up ends with the bound of CatchUp.CatchesUp. */
  lemma ReachableLinksAreSound(cfg: Config, acts: seq<Action>, i: nat, a: nat, p: nat)
    requires ValidConfig(cfg) && i <= |acts| && a in cfg && p in cfg && p != a
    requires NodeAt(cfg, acts, i, a).role == Leader
    requires NodeAt(cfg, acts, i, p).currentTerm <= NodeAt(cfg, acts, i, a).currentTerm
    ensures CatchUp.Sound(LinkAt(cfg, acts, i, a, p))
  {
    hide ValidConfig, Run, NodeAt;
    var n, f := NodeAt(cfg, acts, i, a), NodeAt(cfg, acts, i, p);
    LeaderViewSound(cfg, acts, i, a, p);
    if f.role == Leader && f.currentTerm == n.currentTerm { ElectionSafety(cfg, acts, i, i, a, p); }
    forall e | e in n.log ensures e.term != 0 { EntryTermsPositive(cfg, acts, i, a, e); }
    forall x | 0 <= x < |n.log| && x < |f.log| && n.log[x].term == f.log[x].term ensures Agree(n.log, f.log, x + 1) {
      LogMatching(cfg, acts, i, i, a, p, x);
    }
  }

  /** What a server that has just won knows of a peer. */
  lemma WinnerView(a: nat, peers: seq<nat>, n: Node, t: Tick, p: nat)
    requires n.role != Leader && ProcessTimeout(a, peers, n, t).node.role == Leader && p in peers
    ensures var n' := ProcessTimeout(a, peers, n, t).node;
            Get(n'.vol.nextIndex, p) == |n'.log| && Get(n'.vol.backOff, p) == 0
  {
    hide Heartbeats, CandidateTimeout, QuorumIndex;
    var n1 := Elect(a, peers, n, t.now, t.jitter);
    CandidateSends(a, peers, n1, t.now);
  }

  /** A leader that has just won with a log of `n` entries, its own empty one included, brings every
      server that is in no later term up to date: within `k` rejections, where `k` is logarithmic in
      `n`, and within k + 2 exchanges and one for each batch. */
  lemma WinnerCatchesUp(cfg: Config, acts: seq<Action>, i: nat, t: Tick, a: nat, p: nat, ticks: seq<Tick>, k: nat)
    requires ValidConfig(cfg) && i < |acts| && a in cfg && p in cfg && p != a && acts[i] == Timeout(a, t)
    requires NodeAt(cfg, acts, i, a).role != Leader && NodeAt(cfg, acts, i + 1, a).role == Leader
    requires NodeAt(cfg, acts, i + 1, p).currentTerm <= NodeAt(cfg, acts, i + 1, a).currentTerm
    requires CatchUp.RejectionLimit(|NodeAt(cfg, acts, i + 1, a).log|, k)
    ensures var s := LinkAt(cfg, acts, i + 1, a, p);
            && CatchUp.Rejections(s, ticks) <= k
            && (|ticks| >= k + 2 + CatchUp.Batches(|s.leader.log|) ==> CatchUp.CaughtUp(CatchUp.After(s, ticks)))
  {
    hide Run, Next, AppStep, ProcessTimeout, CatchUp.RejectionLimit, CatchUp.Sound, CatchUp.Rejections, CatchUp.After,
         CatchUp.CaughtUp, CatchUp.Batches;
    ReachableLinksAreSound(cfg, acts, i + 1, a, p);
    assert p in cfg[a] by { assert ValidPeers(cfg, a); }
    hide ValidConfig;
    TimeoutTaken(cfg, acts, i, a, t);
    WinnerView(a, cfg[a], NodeAt(cfg, acts, i, a), t, p);
    CatchUp.FreshViewCatchesUp(LinkAt(cfg, acts, i + 1, a, p), ticks, k);
  }

  lemma TimeoutTaken(cfg: Config, acts: seq<Action>, i: nat, a: nat, t: Tick)
    requires i < |acts| && a in cfg && acts[i] == Timeout(a, t)
    ensures NodeAt(cfg, acts, i + 1, a) == ProcessTimeout(a, cfg[a], NodeAt(cfg, acts, i, a), t).node
  {
    hide ProcessTimeout, AppStep;
    RunStep(cfg, acts, i);
  }

  // --- The queue of consistent reads ----------------------------------------------------------

  /** A queue of consistent reads that leader `a` took at the given moments, under the last index and
      the counter of the moment, while the process kept running. */
  ghost predicate TakenAt(cfg: Config, acts: seq<Action>, a: nat, moments: seq<nat>, queue: seq<W.Item>)
    requires a in cfg
  {
    && |moments| == |queue| && (forall i | 0 <= i < |moments| :: moments[i] < |acts|)
    && (forall i | 0 <= i < |moments| :: acts[moments[i]] == Read(a) && NodeAt(cfg, acts, moments[i], a).role == Leader)
    && (forall i, j | 0 <= i < j < |moments| :: moments[i] < moments[j])
    && (forall i, x | 0 <= i < |moments| && moments[i] <= x < moments[|moments| - 1] :: acts[x] != Restart(a))
    && (forall i | 0 <= i < |moments| :: queue[i].index == |NodeAt(cfg, acts, moments[i], a).log|
                                         && queue[i].seqno == NodeAt(cfg, acts, moments[i], a).seqno)
  }

  /** In such a queue the last request is the latest to become ready exactly when the log at its moment
      is at least as long as at every earlier one; so it is while all of them come from one term. */
  lemma QueueLastIsLatestIff(cfg: Config, acts: seq<Action>, a: nat, moments: seq<nat>, queue: seq<W.Item>)
    requires ValidConfig(cfg) && a in cfg && queue != [] && TakenAt(cfg, acts, a, moments, queue)
    ensures var last := NodeAt(cfg, acts, moments[|moments| - 1], a);
            && (W.LastIsLatest(queue) <==>
                  forall i | 0 <= i < |moments| :: |NodeAt(cfg, acts, moments[i], a).log| <= |last.log|)
            && ((forall i | 0 <= i < |moments| :: NodeAt(cfg, acts, moments[i], a).currentTerm == last.currentTerm) ==>
                  W.LastIsLatest(queue))
  {
    hide ValidConfig, Run, NodeAt;
    var z := |moments| - 1;
    forall i | 0 <= i < |moments| ensures queue[i].seqno <= queue[z].seqno {
      assert i < z ==> moments[i] < moments[z];
      RunOnward(cfg, acts, moments[i], moments[z], a);
    }
    if forall i | 0 <= i < |moments| :: NodeAt(cfg, acts, moments[i], a).currentTerm
                                      == NodeAt(cfg, acts, moments[z], a).currentTerm {
      forall i | 0 <= i < |moments| ensures queue[i].index <= queue[z].index {
        assert i < z ==> moments[i] < moments[z];
        LeaderAppendOnly(cfg, acts, moments[i], moments[z], a);
      }
    }
  }
}
