/** Consistent reads. A leader tags a read with its message counter and its last index, pings every
    peer, and answers once a reply with at least that counter has come back. One reply is enough in
    clusters of at most four servers, where the leader and any other server together meet every
    vote quorum. */
module Reads {
  import opened Messages
  import opened Log
  import opened Protocol
  import opened Commit
  import opened Cluster
  import opened History
  import opened Completeness
  import opened Preserve
  import opened PreserveLeader
  import opened PreserveElection
  import opened Safety
  import opened Durable

  // --- The message counter of a leader --------------------------------------------------------

  lemma {:induction false} FirstHeartbeats(id: nat, peers: seq<nat>, n: Node, now: nat)
    requires Distinct(peers) && n.vol.heartbeatDue == map[]
    ensures var r := Heartbeats(id, peers, n, now);
            r.node.seqno == n.seqno + |peers| && forall p | p in r.node.vol.heartbeatDue :: p in peers
  {
    if peers != [] {
      FirstHeartbeats(id, peers[..|peers| - 1], n, now);
      assert peers[|peers| - 1] !in peers[..|peers| - 1];
    }
  }

  ghost predicate HasPinged(peers: seq<nat>, n: Node) {
    n.role == Leader && peers != [] ==> n.seqno >= 1
  }

  lemma TimeoutPings(id: nat, peers: seq<nat>, n: Node, t: Tick)
    requires Distinct(peers) && HasPinged(peers, n)
    ensures HasPinged(peers, ProcessTimeout(id, peers, n, t).node)
  {
    hide Heartbeats, CandidateTimeout, CommitAdvance;
    var n1 := Elect(id, peers, n, t.now, t.jitter);
    SendsAreForward(id, peers, n1, t.now);
    if n1.role == Leader && n.role != Leader {
      FirstHeartbeats(id, peers, n1, t.now);
    }
    if n1.role == Candidate { CandidateSends(id, peers, n1, t.now); }
  }

  lemma StepPings(cfg: Config, c: Cluster, a: Action)
    requires ValidConfig(cfg) && Target(a) in cfg && Target(a) in c.servers
    requires HasPinged(cfg[Target(a)], c.servers[Target(a)].node)
    ensures HasPinged(cfg[Target(a)], NodeStep(cfg, c, a).node)
  {
    hide ProcessTimeout, ApproveRead, CommitAdvance;
    var id := Target(a);
    assert ValidPeers(cfg, id);
    match a
    case Timeout(_, t) => TimeoutPings(id, cfg[id], c.servers[id].node, t);
    case Read(_) => SendsAreForward(id, cfg[id], c.servers[id].node, 0);
    case _ =>
  }

  lemma StartsQuiet(cfg: Config, acts: seq<Action>, a: nat)
    requires a in cfg
    ensures HasPinged(cfg[a], NodeAt(cfg, acts, 0, a))
  {
    assert acts[..0] == [];
  }

  lemma {:induction false} LeaderHasPinged(cfg: Config, acts: seq<Action>, i: nat, a: nat)
    requires ValidConfig(cfg) && i <= |acts| && a in cfg
    ensures HasPinged(cfg[a], NodeAt(cfg, acts, i, a))
  {
    hide NodeStep, AppStep, HasPinged, ValidConfig, Run;
    if i == 0 {
      StartsQuiet(cfg, acts, a);
    } else {
      LeaderHasPinged(cfg, acts, i - 1, a);
      RunStep(cfg, acts, i - 1);
      if Target(acts[i - 1]) == a { StepPings(cfg, Run(cfg, acts[..i - 1]), acts[i - 1]); }
    }
  }

  // --- Where a large CommitSeqno comes from ---------------------------------------------------

  /** A confirmation in term `t`, to server `a`, of a request numbered at least `s`. */
  predicate Confirms(m: Message, t: nat, a: nat, s: nat) {
    m.Appended? && m.success && m.term == t && m.dst == a && m.seqno >= s
  }

  /** Only a server of term `t` confirms a request of term `t`. */
  lemma OwnConfirmation(cfg: Config, c: Cluster, a: Action, m: Message, t: nat, dst: nat, s: nat)
    requires Target(a) in cfg && Target(a) in c.servers
    requires m in NodeStep(cfg, c, a).sent && Confirms(m, t, dst, s)
    ensures m.src == Target(a) && NodeStep(cfg, c, a).node.currentTerm == t
  {
    hide Heartbeats, ApproveRead, CandidateTimeout, CommitAdvance, Elect;
    var id := Target(a);
    var n := c.servers[id].node;
    match a
    case Deliver(_, _) =>
    case Timeout(_, tick) =>
      var n1 := Elect(id, cfg[id], n, tick.now, tick.jitter);
      CandidateSends(id, cfg[id], n1, tick.now);
      HeartbeatRequests(id, cfg[id], n1, tick.now);
    case Read(_) => ReadRequests(id, cfg[id], n);
    case _ =>
  }

  /** A leader's CommitSeqno rises to `s` only by a confirmation. */
  lemma CommitSeqnoSource(cfg: Config, c: Cluster, a: Action, s: nat)
    requires Target(a) in cfg && Target(a) in c.servers && s >= 1
    requires var n' := NodeStep(cfg, c, a).node; n'.role == Leader && n'.vol.commitSeqno >= s
    ensures var n, n' := c.servers[Target(a)].node, NodeStep(cfg, c, a).node;
            (n.role == Leader && n.currentTerm == n'.currentTerm && n.vol.commitSeqno >= s)
            || (a.Deliver? && a.m in c.net && Confirms(a.m, n'.currentTerm, Target(a), s))
  {
    hide Heartbeats, ApproveRead, CandidateTimeout, QuorumIndex;
    var id := Target(a);
    var n := c.servers[id].node;
    match a
    case Timeout(_, t) =>
      var n1 := Elect(id, cfg[id], n, t.now, t.jitter);
      SendsAreForward(id, cfg[id], n1, t.now);
      CandidateSends(id, cfg[id], n1, t.now);
    case Read(_) => SendsAreForward(id, cfg[id], n, 0);
    case _ =>
  }

  // --- From the read to its answer ------------------------------------------------------------

  /** At moment `i` some other server was in no later term than `t`. */
  ghost predicate PeerNotLater(cfg: Config, acts: seq<Action>, i: nat, a: nat, t: nat)
    requires i <= |acts|
  {
    exists p :: p in cfg && p != a && NodeAt(cfg, acts, i, p).currentTerm <= t
  }

  /** Confirmations of requests numbered from `s` on come from servers that were in no later term
      at moment `i`, and so does a CommitSeqno that reached `s`. */
  ghost predicate Witnessed(cfg: Config, acts: seq<Action>, i: nat, x: nat, a: nat, t: nat, s: nat)
    requires i <= |acts| && x <= |acts| && a in cfg
  {
    && (forall m | m in Run(cfg, acts[..x]).net && Confirms(m, t, a, s) ::
          m.src in cfg && m.src != a && NodeAt(cfg, acts, i, m.src).currentTerm <= t)
    && (var n := NodeAt(cfg, acts, x, a);
        n.role == Leader && n.currentTerm == t && n.vol.commitSeqno >= s ==> PeerNotLater(cfg, acts, i, a, t))
  }

  /** A leader's counter is ahead of every confirmation and of CommitSeqno. */
  lemma CounterAhead(cfg: Config, h: History, id: nat, n: Node)
    requires NodeOk(cfg, h, id, n) && n.role == Leader
    ensures n.vol.commitSeqno == 0 || n.vol.commitSeqno < n.seqno
    ensures forall m | MessageOk(cfg, h, m) :: !Confirms(m, n.currentTerm, id, n.seqno)
  {
    hide LogOk, KeepsAcks, CommitOk;
  }

  lemma WitnessStart(cfg: Config, acts: seq<Action>, i: nat, a: nat)
    requires ValidConfig(cfg) && i <= |acts| && a in cfg && |cfg| >= 2
    requires NodeAt(cfg, acts, i, a).role == Leader
    ensures var n := NodeAt(cfg, acts, i, a);
            n.seqno >= 1 && Witnessed(cfg, acts, i, i, a, n.currentTerm, n.seqno)
  {
    hide Run, HistoryOk, NodeOk, MessageOk, Grows, PeerNotLater, NodeAt, Confirms;
    var h, last := HistoryFrom(cfg, acts, i);
    NodeOkAt(cfg, acts, i, a, h);
    CounterAhead(cfg, h, a, NodeAt(cfg, acts, i, a));
    assert ValidPeers(cfg, a);
    PeerCount(cfg, a);
    LeaderHasPinged(cfg, acts, i, a);
  }

  lemma WitnessStep(cfg: Config, acts: seq<Action>, i: nat, x: nat, a: nat, t: nat, s: nat)
    requires ValidConfig(cfg) && i <= x < |acts| && a in cfg && s >= 1
    requires Witnessed(cfg, acts, i, x, a, t, s)
    ensures Witnessed(cfg, acts, i, x + 1, a, t, s)
  {
    hide Run, NodeStep, AppStep, PeerNotLater, ValidConfig, HistoryOk, NodeOk, MessageOk, Grows;
    var h, last := HistoryFrom(cfg, acts, x + 1);
    var c := Run(cfg, acts[..x]);
    var act := acts[x];
    RunStep(cfg, acts, x);
    forall m | m in Run(cfg, acts[..x + 1]).net && Confirms(m, t, a, s)
      ensures m.src in cfg && m.src != a && NodeAt(cfg, acts, i, m.src).currentTerm <= t
    {
      if m !in c.net {
        OwnConfirmation(cfg, c, act, m, t, a, s);
        SourceInCluster(cfg, h, m);
        VotesOncePerTerm(cfg, acts, i, x + 1, m.src);
      }
    }
    var n := NodeAt(cfg, acts, x + 1, a);
    if Target(act) == a && n.role == Leader && n.currentTerm == t && n.vol.commitSeqno >= s {
      CommitSeqnoSource(cfg, c, act, s);
      if act.Deliver? && act.m in c.net && Confirms(act.m, t, a, s) {
        PeerFound(cfg, acts, i, a, t, act.m.src);
      }
    }
  }

  lemma SourceInCluster(cfg: Config, h: History, m: Message)
    requires MessageOk(cfg, h, m)
    ensures m.src in cfg && m.src != m.dst
  {
  }

  lemma PeerFound(cfg: Config, acts: seq<Action>, i: nat, a: nat, t: nat, p: nat)
    requires i <= |acts| && p in cfg && p != a && NodeAt(cfg, acts, i, p).currentTerm <= t
    ensures PeerNotLater(cfg, acts, i, a, t)
  {
  }

  lemma {:induction false} WitnessRun(cfg: Config, acts: seq<Action>, i: nat, j: nat, a: nat)
    requires ValidConfig(cfg) && i <= j <= |acts| && a in cfg && |cfg| >= 2
    requires NodeAt(cfg, acts, i, a).role == Leader
    ensures var n := NodeAt(cfg, acts, i, a);
            n.seqno >= 1 && Witnessed(cfg, acts, i, j, a, n.currentTerm, n.seqno)
    decreases j
  {
    hide Witnessed, NodeAt, ValidConfig;
    if i == j {
      WitnessStart(cfg, acts, i, a);
    } else {
      WitnessRun(cfg, acts, i, j - 1, a);
      WitnessStep(cfg, acts, i, j - 1, a, NodeAt(cfg, acts, i, a).currentTerm, NodeAt(cfg, acts, i, a).seqno);
    }
  }

  // --- The vote quorums -----------------------------------------------------------------------

  /** Two servers meet every vote quorum exactly in clusters of at most four servers. */
  lemma PairMeetsVoteQuorums(servers: set<nat>, a: nat, p: nat)
    requires a in servers && p in servers && a != p
    ensures (forall voters: set<nat> | voters <= servers && |voters| >= MinVotes(|servers| - 1) ::
               a in voters || p in voters)
            <==> |servers| <= 4
  {
    var rest := servers - {a, p};
    assert servers == rest + {a, p} && |rest| == |servers| - 2;
    if |servers| <= 4 {
      forall voters: set<nat> | voters <= servers && |voters| >= MinVotes(|servers| - 1)
        ensures a in voters || p in voters
      {
        if a !in voters && p !in voters { SubsetSize(voters, rest); }
      }
    } else {
      assert rest <= servers && |rest| >= MinVotes(|servers| - 1) && a !in rest && p !in rest;
    }
  }

  lemma QuorumShape(cfg: Config, h: History, u: nat)
    requires HistoryOk(cfg, h) && Won(h, u)
    ensures var quorum := h.elections[u].quorum;
            quorum <= cfg.Keys && quorum != {} && |quorum| >= MinVotes(|cfg| - 1)
            && forall p | p in quorum :: Voted(h, p, u)
  {
    assert ElectionOk(cfg, h, u);
  }

  lemma VotedTerm(cfg: Config, h: History, p: nat, n: Node, u: nat)
    requires NodeOk(cfg, h, p, n) && Voted(h, p, u)
    ensures u <= n.currentTerm
  {
  }

  /** Who voted in a won election is in no earlier term. */
  lemma VoterTerm(cfg: Config, acts: seq<Action>, i: nat, h: History, u: nat, p: nat)
    requires i <= |acts| && p in cfg && Inv(cfg, Run(cfg, acts[..i]), h) && Won(h, u)
    ensures p in h.elections[u].quorum ==> u <= NodeAt(cfg, acts, i, p).currentTerm
    ensures h.elections[u].quorum <= cfg.Keys && |h.elections[u].quorum| >= MinVotes(|cfg| - 1)
    ensures |cfg| == 1 ==> p in h.elections[u].quorum
  {
    hide HistoryOk, NodeOk, Inv, Run;
    NodeOkAt(cfg, acts, i, p, h);
    QuorumShape(cfg, h, u);
    if p in h.elections[u].quorum { VotedTerm(cfg, h, p, NodeAt(cfg, acts, i, p), u); }
    if |cfg| == 1 { OnlyMember(cfg.Keys, h.elections[u].quorum, p); }
  }

  lemma OnlyMember(all: set<nat>, some: set<nat>, p: nat)
    requires |all| == 1 && p in all && some <= all && some != {}
    ensures p in some
  {
    var q :| q in some;
    var others := all - {p};
    assert |others| == 0;
    assert q !in others;
  }

  /** With a peer in no later term than the leader's, nobody has won a later term. */
  lemma NobodyLater(cfg: Config, acts: seq<Action>, i: nat, a: nat, h: History, u: nat)
    requires ValidConfig(cfg) && i <= |acts| && a in cfg && |cfg| <= 4
    requires Inv(cfg, Run(cfg, acts[..i]), h) && Won(h, u)
    requires |cfg| >= 2 ==> PeerNotLater(cfg, acts, i, a, NodeAt(cfg, acts, i, a).currentTerm)
    ensures u <= NodeAt(cfg, acts, i, a).currentTerm
  {
    hide Run, NodeAt, Inv, ValidConfig, HistoryOk;
    VoterTerm(cfg, acts, i, h, u, a);
    if |cfg| >= 2 {
      var p :| p in cfg && p != a && NodeAt(cfg, acts, i, p).currentTerm <= NodeAt(cfg, acts, i, a).currentTerm;
      VoterTerm(cfg, acts, i, h, u, p);
      PairMeetsVoteQuorums(cfg.Keys, a, p);
      assert a in h.elections[u].quorum || p in h.elections[u].quorum;
    }
  }

  // --- The theorem ----------------------------------------------------------------------------

  /** The answer to a read accepted at moment `i` by leader `a` may be given at moment `j`. */
  ghost predicate ReadConfirmed(cfg: Config, acts: seq<Action>, i: nat, j: nat, a: nat)
    requires i <= j <= |acts| && a in cfg
  {
    var n, n' := NodeAt(cfg, acts, i, a), NodeAt(cfg, acts, j, a);
    && n.role == Leader && n'.role == Leader && n'.currentTerm == n.currentTerm
    && n'.vol.commitSeqno >= n.seqno
  }

  lemma ConfirmedMeansLatest(cfg: Config, acts: seq<Action>, i: nat, j: nat, a: nat, h: History, u: nat)
    requires ValidConfig(cfg) && i <= j <= |acts| && a in cfg && |cfg| <= 4 && ReadConfirmed(cfg, acts, i, j, a)
    requires Inv(cfg, Run(cfg, acts[..i]), h) && Won(h, u)
    ensures u <= NodeAt(cfg, acts, i, a).currentTerm
  {
    hide NodeAt, Inv, ValidConfig, PeerNotLater;
    if |cfg| >= 2 { WitnessRun(cfg, acts, i, j, a); }
    NobodyLater(cfg, acts, i, a, h, u);
  }

  /** While a read was accepted by `a`, no server had yet led a later term. */
  lemma NoLaterLeader(cfg: Config, acts: seq<Action>, i: nat, j: nat, a: nat, k: nat, b: nat)
    requires ValidConfig(cfg) && k <= i <= j <= |acts| && a in cfg && b in cfg && |cfg| <= 4
    requires ReadConfirmed(cfg, acts, i, j, a) && NodeAt(cfg, acts, k, b).role == Leader
    ensures NodeAt(cfg, acts, k, b).currentTerm <= NodeAt(cfg, acts, i, a).currentTerm
  {
    hide NodeAt, Inv, ValidConfig, ReadConfirmed, NodeOk, HistoryOk;
    var h, h', last := TwoMoments(cfg, acts, k, i);
    NodeOkAt(cfg, acts, k, b, h);
    LeaderFacts(cfg, h, b, NodeAt(cfg, acts, k, b));
    ConfirmedMeansLatest(cfg, acts, i, j, a, h', NodeAt(cfg, acts, k, b).currentTerm);
  }

  /** The last index recorded with the read covers everything committed anywhere by then. */
  lemma ReadCoversCommitted(cfg: Config, acts: seq<Action>, i: nat, j: nat, a: nat, k: nat, b: nat)
    requires ValidConfig(cfg) && k <= i <= j <= |acts| && a in cfg && b in cfg && |cfg| <= 4
    requires ReadConfirmed(cfg, acts, i, j, a)
    ensures var n := NodeAt(cfg, acts, k, b);
            Agree(n.log, NodeAt(cfg, acts, i, a).log, n.vol.commitIndex)
  {
    hide NodeAt, Inv, ValidConfig, NodeOk, HistoryOk, CommitOk, Grows;
    var h, h', last := TwoMoments(cfg, acts, k, i);
    var n, leader := NodeAt(cfg, acts, k, b), NodeAt(cfg, acts, i, a);
    CommitStands(cfg, acts, k, b, h, h');
    NodeOkAt(cfg, acts, i, a, h');
    LeaderFacts(cfg, h', a, leader);
    forall u: nat | Won(h', u) ensures u <= leader.currentTerm { ConfirmedMeansLatest(cfg, acts, i, j, a, h', u); }
    EarlierCommit(cfg, h', n.vol.commitIndex, n.log, n.currentTerm, leader.currentTerm);
    CommitPrefixInLog(cfg, h', n.vol.commitIndex, n.log, leader.currentTerm, leader.currentTerm);
  }

  lemma EarlierCommit(cfg: Config, h: History, c: nat, log: seq<Entry>, bound: nat, t: nat)
    requires CommitOk(cfg, h, c, log, bound) && forall u: nat | Won(h, u) :: u <= t
    ensures CommitOk(cfg, h, c, log, t)
  {
    if c != 0 {
      var u: nat, k: nat :| Committed(cfg, h, u, k) && u <= bound && c <= k && Agree(log, LogOf(h, u), c);
      assert Won(h, u);
    }
  }
}
