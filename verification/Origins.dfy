/** Where messages and counted votes come from: whatever is in flight, however old, was once sent by
    a server that had the right to send it. */
module Origins {
  import opened Messages
  import opened Log
  import opened Protocol
  import opened Cluster
  import opened History
  import opened PreserveLeader
  import opened PreserveElection
  import opened Safety

  // --- Requests -------------------------------------------------------------------------------

  /** Only a leader sends requests, and only of its own term. */
  lemma OwnRequest(cfg: Config, c: Cluster, act: Action, m: Message)
    requires Target(act) in cfg && Target(act) in c.servers
    requires m in NodeStep(cfg, c, act).sent && m.Append?
    ensures var n := NodeStep(cfg, c, act).node;
            m.src == Target(act) && n.role == Leader && n.currentTerm == m.term
  {
    hide Heartbeats, ApproveRead, CandidateTimeout, QuorumIndex, Elect;
    var id := Target(act);
    var n := c.servers[id].node;
    match act
    case Timeout(_, tick) =>
      var n1 := Elect(id, cfg[id], n, tick.now, tick.jitter);
      CandidateSends(id, cfg[id], n1, tick.now);
      HeartbeatRequests(id, cfg[id], n1, tick.now);
    case Read(_) => ReadRequests(id, cfg[id], n);
    case _ =>
  }

  /** A request in flight was sent at some moment by a server that led its term. */
  lemma {:induction false} RequestHadLeader(cfg: Config, acts: seq<Action>, i: nat, m: Message) returns (x: nat)
    requires ValidConfig(cfg) && i <= |acts| && m.Append? && m in Run(cfg, acts[..i]).net
    ensures x <= i && m in Run(cfg, acts[..x]).net && m.src in cfg
    ensures NodeAt(cfg, acts, x, m.src).role == Leader && NodeAt(cfg, acts, x, m.src).currentTerm == m.term
    decreases i
  {
    hide Next, NodeStep, AppStep, ValidConfig;
    assert acts[..0] == [];
    if i != 0 {
      var c := Run(cfg, acts[..i - 1]);
      RunStep(cfg, acts, i - 1);
      if m in c.net {
        x := RequestHadLeader(cfg, acts, i - 1, m);
      } else {
        NetGrowsBySent(cfg, c, acts[i - 1], m);
        OwnRequest(cfg, c, acts[i - 1], m);
        x := i;
      }
    }
  }

  /** What is new in the network was sent by the action's server. */
  lemma NetGrowsBySent(cfg: Config, c: Cluster, act: Action, m: Message)
    requires c.servers.Keys == cfg.Keys && m in Next(cfg, c, act).net && m !in c.net
    ensures Target(act) in cfg && m in NodeStep(cfg, c, act).sent
    ensures Next(cfg, c, act).servers[Target(act)].node == NodeStep(cfg, c, act).node
  {
    hide NodeStep, AppStep;
  }

  /** Every AppendEntries request in flight, even one whose sender has stepped down, restarted or
      been deposed since, is a slice of the log its sender had while leading the request's term. */
  lemma RequestIsSlice(cfg: Config, acts: seq<Action>, i: nat, m: Message) returns (x: nat)
    requires ValidConfig(cfg) && i <= |acts| && m.Append? && m in Run(cfg, acts[..i]).net
    ensures x <= i && m.src in cfg
    ensures var n := NodeAt(cfg, acts, x, m.src);
            && n.role == Leader && n.currentTerm == m.term && m.leaderId == m.src
            && m.nentries == |m.entries| && m.prevLogIndex + |m.entries| <= |n.log|
            && m.entries == n.log[m.prevLogIndex..m.prevLogIndex + |m.entries|]
            && m.prevLogTerm == LogTerm(n.log, m.prevLogIndex)
            && m.leaderCommit <= m.prevLogIndex + |m.entries|
  {
    hide ValidConfig, Run, NodeAt;
    x := RequestHadLeader(cfg, acts, i, m);
    RequestIsLeaderSlice(cfg, acts, x, x, m.src, m);
  }

  // --- Votes ----------------------------------------------------------------------------------

  /** A vote is granted in answer to a request, by a server that records it. */
  lemma OwnGrant(cfg: Config, c: Cluster, act: Action, m: Message)
    requires Target(act) in cfg && Target(act) in c.servers
    requires m in NodeStep(cfg, c, act).sent && m.Vote? && m.granted
    ensures act.Deliver? && act.m in c.net && act.m.RequestVote? && m.dst == act.m.src
    ensures var n := NodeStep(cfg, c, act).node;
            m.src == Target(act) && n.currentTerm == m.term && n.votedFor == act.m.candidateId
  {
    hide Heartbeats, ApproveRead, CandidateTimeout, QuorumIndex, Elect;
    var id := Target(act);
    var n := c.servers[id].node;
    match act
    case Timeout(_, tick) =>
      var n1 := Elect(id, cfg[id], n, tick.now, tick.jitter);
      CandidateSends(id, cfg[id], n1, tick.now);
      HeartbeatRequests(id, cfg[id], n1, tick.now);
    case Read(_) => ReadRequests(id, cfg[id], n);
    case _ =>
  }

  lemma OwnCandidacy(cfg: Config, c: Cluster, h: History, m: Message)
    requires Inv(cfg, c, h) && m in c.net && m.RequestVote?
    ensures m.candidateId == m.src && m.src in cfg
  {
    assert MessageOk(cfg, h, m);
  }

  /** A granted vote in flight was cast: its sender, in that term, had voted for its receiver. */
  lemma {:induction false} GrantWasCast(cfg: Config, acts: seq<Action>, i: nat, m: Message) returns (x: nat)
    requires ValidConfig(cfg) && i <= |acts| && m.Vote? && m.granted && m in Run(cfg, acts[..i]).net
    ensures x <= i && m.src in cfg
    ensures NodeAt(cfg, acts, x, m.src).currentTerm == m.term && NodeAt(cfg, acts, x, m.src).votedFor == m.dst
    decreases i
  {
    hide Next, NodeStep, AppStep, ValidConfig, Inv;
    assert acts[..0] == [];
    if i != 0 {
      var c := Run(cfg, acts[..i - 1]);
      RunStep(cfg, acts, i - 1);
      if m in c.net {
        x := GrantWasCast(cfg, acts, i - 1, m);
      } else {
        NetGrowsBySent(cfg, c, acts[i - 1], m);
        OwnGrant(cfg, c, acts[i - 1], m);
        var h, last := HistoryFrom(cfg, acts, i - 1);
        OwnCandidacy(cfg, c, h, acts[i - 1].m);
        x := i;
      }
    }
  }

  /** A candidate has counted a vote before, in this term, or counts it now. */
  lemma VoteSource(cfg: Config, c: Cluster, act: Action, p: nat)
    requires Target(act) in cfg && Target(act) in c.servers
    requires var n' := NodeStep(cfg, c, act).node; n'.role == Candidate && p in n'.vol.votes
    ensures var n, n' := c.servers[Target(act)].node, NodeStep(cfg, c, act).node;
            || (n.role == Candidate && n.currentTerm == n'.currentTerm && p in n.vol.votes)
            || (act.Deliver? && act.m in c.net && act.m == Vote(p, Target(act), n'.currentTerm, true))
  {
    hide Heartbeats, ApproveRead, CandidateTimeout, QuorumIndex;
    var id := Target(act);
    var n := c.servers[id].node;
    match act
    case Timeout(_, t) =>
      CandidateSends(id, cfg[id], Elect(id, cfg[id], n, t.now, t.jitter), t.now);
      HeartbeatRequests(id, cfg[id], Elect(id, cfg[id], n, t.now, t.jitter), t.now);
    case Read(_) => ReadRequests(id, cfg[id], n);
    case _ =>
  }

  /** Every counted vote comes from another server that, in this very term, voted for the candidate,
      whatever terms that server has moved on to; while it is in the term, its vote still stands. */
  lemma CountedVotesAreReal(cfg: Config, acts: seq<Action>, i: nat, a: nat, p: nat) returns (x: nat)
    requires ValidConfig(cfg) && i <= |acts| && a in cfg
    requires NodeAt(cfg, acts, i, a).role == Candidate && p in NodeAt(cfg, acts, i, a).vol.votes
    ensures x <= i && p in cfg && p != a
    ensures NodeAt(cfg, acts, x, p).currentTerm == NodeAt(cfg, acts, i, a).currentTerm
    ensures NodeAt(cfg, acts, x, p).votedFor == a
    ensures NodeAt(cfg, acts, i, p).currentTerm >= NodeAt(cfg, acts, i, a).currentTerm
    ensures NodeAt(cfg, acts, i, p).currentTerm == NodeAt(cfg, acts, i, a).currentTerm ==>
              NodeAt(cfg, acts, i, p).votedFor == a
  {
    hide NodeAt, ValidConfig;
    VoterKnown(cfg, acts, i, a, p);
    x := VoteWasCast(cfg, acts, i, a, p);
  }

  lemma {:induction false} VoteWasCast(cfg: Config, acts: seq<Action>, i: nat, a: nat, p: nat) returns (x: nat)
    requires ValidConfig(cfg) && i <= |acts| && a in cfg
    requires NodeAt(cfg, acts, i, a).role == Candidate && p in NodeAt(cfg, acts, i, a).vol.votes
    ensures x <= i && p in cfg
    ensures NodeAt(cfg, acts, x, p).currentTerm == NodeAt(cfg, acts, i, a).currentTerm
    ensures NodeAt(cfg, acts, x, p).votedFor == a
    decreases i
  {
    hide NodeStep, AppStep, ValidConfig;
    assert acts[..0] == [];
    if i != 0 {
      var c, act := Run(cfg, acts[..i - 1]), acts[i - 1];
      RunStep(cfg, acts, i - 1);
      if Target(act) != a {
        x := VoteWasCast(cfg, acts, i - 1, a, p);
      } else {
        VoteSource(cfg, c, act, p);
        var n, n' := c.servers[a].node, NodeAt(cfg, acts, i, a);
        if n.role == Candidate && n.currentTerm == n'.currentTerm && p in n.vol.votes {
          x := VoteWasCast(cfg, acts, i - 1, a, p);
        } else {
          x := GrantWasCast(cfg, acts, i - 1, act.m);
        }
      }
    }
  }
}
