/** What one server keeps from one moment of a run to the next: terms and votes, committed
    entries, and the entries handed to the application. */
module Durable {
  import opened Messages
  import opened Log
  import opened Protocol
  import opened Cluster
  import opened History
  import opened Stable
  import opened Completeness
  import opened Preserve
  import opened PreserveElection
  import opened Safety

  // --- Terms, votes, commit index -------------------------------------------------------------

  /** Terms never decrease and a vote is given at most once in a term. */
  ghost predicate Forward(n: Node, n': Node) {
    && n.currentTerm <= n'.currentTerm
    && (n.currentTerm == n'.currentTerm && n.votedFor != 0 ==> n'.votedFor == n.votedFor)
  }

  /** Except for a restart neither the commit index nor the message counter decreases. */
  ghost predicate Onward(n: Node, n': Node) {
    n.vol.commitIndex <= n'.vol.commitIndex && n.seqno <= n'.seqno
  }

  lemma {:induction false} SendsAreForward(id: nat, peers: seq<nat>, n: Node, now: nat)
    ensures OnlySent(n, Heartbeats(id, peers, n, now).node)
    ensures OnlySent(n, ApproveRead(id, peers, n).node)
  {
  }

  lemma TimeoutForward(id: nat, peers: seq<nat>, n: Node, t: Tick)
    ensures var n' := ProcessTimeout(id, peers, n, t).node;
            Forward(n, n') && Onward(n, n')
            && (n'.log == n.log || exists e :: n'.log == n.log + [e])
  {
    var n1 := Elect(id, peers, n, t.now, t.jitter);
    assert n1.log == n.log || n1.log == n.log + [Entry(n1.currentTerm, STUB, [])];
    if n1.role == Candidate {
      CandidateSends(id, peers, n1, t.now);
    }
  }

  lemma ProcessForward(id: nat, peers: seq<nat>, n: Node, m: Message, t: Tick)
    ensures var n' := Process(id, peers, n, m, t).node;
            Forward(n, n') && Onward(n, n')
  {
    var n1 := Observe(n, m.term, t.now, t.jitter);
    hide CommitAdvance;
    if m.Appended? && n1.role == Leader && m.term == n1.currentTerm {
      AdvanceForward(OnReply(n1.vol, m), peers, n1.currentTerm, n1.log, m.seqno);
    }
  }

  lemma AdvanceForward(v: Volatile, peers: seq<nat>, term: nat, log: seq<Entry>, seqno: nat)
    ensures CommitAdvance(v, peers, term, log, seqno).commitIndex >= v.commitIndex
  {
  }

  lemma StepForward(cfg: Config, c: Cluster, a: Action)
    requires Target(a) in cfg && Target(a) in c.servers
    ensures var n, n' := c.servers[Target(a)].node, NodeStep(cfg, c, a).node;
            Forward(n, n') && (!a.Restart? ==> Onward(n, n'))
  {
    hide Process, ProcessTimeout, ApproveRead, Heartbeats;
    var id := Target(a);
    var n := c.servers[id].node;
    match a
    case Deliver(m, t) => ProcessForward(id, cfg[id], n, m, t);
    case Timeout(_, t) => TimeoutForward(id, cfg[id], n, t);
    case Read(_) => SendsAreForward(id, cfg[id], n, 0);
    case _ =>
  }

  lemma {:induction false} RunForward(cfg: Config, acts: seq<Action>, i: nat, j: nat, a: nat)
    requires i <= j <= |acts| && a in cfg
    ensures Forward(NodeAt(cfg, acts, i, a), NodeAt(cfg, acts, j, a))
    decreases j
  {
    hide Next, Run, NodeStep;
    if i < j {
      RunForward(cfg, acts, i, j - 1, a);
      OneStepForward(cfg, acts, j - 1, a);
    }
  }

  lemma OneStepForward(cfg: Config, acts: seq<Action>, i: nat, a: nat)
    requires i < |acts| && a in cfg
    ensures Forward(NodeAt(cfg, acts, i, a), NodeAt(cfg, acts, i + 1, a))
    ensures !(acts[i].Restart? && acts[i].id == a) ==>
              Onward(NodeAt(cfg, acts, i, a), NodeAt(cfg, acts, i + 1, a))
  {
    hide Run, NodeStep, AppStep, Forward, Onward;
    RunStep(cfg, acts, i);
    if Target(acts[i]) == a {
      StepForward(cfg, Run(cfg, acts[..i]), acts[i]);
    } else {
      ForwardRefl(NodeAt(cfg, acts, i, a));
    }
  }

  lemma ForwardRefl(n: Node)
    ensures Forward(n, n) && Onward(n, n)
  {
  }

  /** Over a whole run, restarts included, a server's term never decreases, and in one term it
      never changes a vote it gave. */
  lemma VotesOncePerTerm(cfg: Config, acts: seq<Action>, i: nat, j: nat, a: nat)
    requires i <= j <= |acts| && a in cfg
    ensures NodeAt(cfg, acts, i, a).currentTerm <= NodeAt(cfg, acts, j, a).currentTerm
    ensures NodeAt(cfg, acts, i, a).currentTerm == NodeAt(cfg, acts, j, a).currentTerm
            && NodeAt(cfg, acts, i, a).votedFor != 0 ==>
              NodeAt(cfg, acts, j, a).votedFor == NodeAt(cfg, acts, i, a).votedFor
  {
    RunForward(cfg, acts, i, j, a);
  }

  lemma {:induction false} RunOnward(cfg: Config, acts: seq<Action>, i: nat, j: nat, a: nat)
    requires i <= j <= |acts| && a in cfg
    requires forall x | i <= x < j :: acts[x] != Restart(a)
    ensures Onward(NodeAt(cfg, acts, i, a), NodeAt(cfg, acts, j, a))
    decreases j
  {
    hide NodeAt;
    if i < j {
      RunOnward(cfg, acts, i, j - 1, a);
      OneStepForward(cfg, acts, j - 1, a);
    }
  }

  /** Without a restart of the server its commit index never decreases. */
  lemma CommitIndexGrows(cfg: Config, acts: seq<Action>, i: nat, j: nat, a: nat)
    requires i <= j <= |acts| && a in cfg
    requires forall x | i <= x < j :: acts[x] != Restart(a)
    ensures NodeAt(cfg, acts, i, a).vol.commitIndex <= NodeAt(cfg, acts, j, a).vol.commitIndex
  {
    hide NodeAt;
    RunOnward(cfg, acts, i, j, a);
  }

  // --- Committed entries ----------------------------------------------------------------------

  lemma InvGives(cfg: Config, c: Cluster, h: History, id: nat)
    requires ValidConfig(cfg) && Inv(cfg, c, h) && id in cfg
    ensures Before(cfg, h, id, c.servers[id].node) && cfg != map[]
    ensures forall m | m in c.net :: MessageOk(cfg, h, m)
  {
    hide HistoryOk, NodeOk, MessageOk;
    assert ValidPeers(cfg, id);
  }

  /** No step removes an entry that any leader has committed, although the follower neither
      clamps LeaderCommit nor compares the cut with its own CommitIndex. */
  lemma StepKeepsCommitted(cfg: Config, c: Cluster, h: History, a: Action, k: nat)
    requires ValidConfig(cfg) && Inv(cfg, c, h) && Target(a) in cfg && Target(a) in c.servers
    requires var n := c.servers[Target(a)].node; CommitOk(cfg, h, k, n.log, n.currentTerm)
    ensures Agree(c.servers[Target(a)].node.log, NodeStep(cfg, c, a).node.log, k)
  {
    hide Before, Inv, MessageOk, CommitOk, ProcessTimeout, ApproveRead, Process, ValidConfig;
    var id := Target(a);
    var n := c.servers[id].node;
    InvGives(cfg, c, h, id);
    CommitInLog(cfg, h, k, n.log, n.currentTerm);
    match a
    case Deliver(m, t) =>
      if m in c.net { ProcessKeepsCommitted(cfg, h, id, n, m, t, k); }
    case Timeout(_, t) => TimeoutForward(id, cfg[id], n, t);
    case Read(_) => SendsAreForward(id, cfg[id], n, 0);
    case _ =>
  }

  /** Only a request the server can place changes its log, and in one way only. */
  lemma ProcessLog(id: nat, peers: seq<nat>, n: Node, m: Message, t: Tick)
    ensures var n1 := Observe(n, m.term, t.now, t.jitter);
            var log' := Process(id, peers, n, m, t).node.log;
            if m.Append? && m.term == n1.currentTerm && Matches(n1.log, m.prevLogIndex, m.prevLogTerm)
            then log' == Replay(n1.log, m.prevLogIndex, m.entries)
            else log' == n.log
  {
    hide QuorumIndex, Replay, LastTerm, LogTerm;
  }

  lemma ProcessKeepsCommitted(cfg: Config, h: History, id: nat, n: Node, m: Message, t: Tick, k: nat)
    requires Before(cfg, h, id, n) && MessageOk(cfg, h, m) && m.dst == id
    requires CommitOk(cfg, h, k, n.log, n.currentTerm)
    ensures Agree(n.log, Process(id, cfg[id], n, m, t).node.log, k)
  {
    ObserveKeeps(cfg, h, id, n, m.term, t.now, t.jitter);
    var n1 := Observe(n, m.term, t.now, t.jitter);
    CommitInLog(cfg, h, k, n.log, n.currentTerm);
    hide HistoryOk, NodeOk, Process, Replay, Matches, MessageOk, CommitOk;
    ProcessLog(id, cfg[id], n, m, t);
    TransferCommit(cfg, h, k, n.log, n.currentTerm, k, n1.log, n1.currentTerm);
    if m.Append? && m.term == n1.currentTerm && Matches(n1.log, m.prevLogIndex, m.prevLogTerm) {
      PlacedKeepsCommitted(cfg, h, id, n1, m, k);
    }
  }

  lemma PlacedKeepsCommitted(cfg: Config, h: History, id: nat, n: Node, m: Message, k: nat)
    requires Before(cfg, h, id, n) && m.Append? && MessageOk(cfg, h, m) && m.dst == id && m.term == n.currentTerm
    requires Matches(n.log, m.prevLogIndex, m.prevLogTerm) && CommitOk(cfg, h, k, n.log, n.currentTerm)
    ensures Agree(n.log, Replay(n.log, m.prevLogIndex, m.entries), k)
  {
    hide HistoryOk, LogOk, KeepsAcks;
    ReplayAsLeader(cfg, h, n.log, m);
    CommitPrefixInLog(cfg, h, k, n.log, n.currentTerm, m.term);
  }

  /** Moment `j` still has the first `k` entries of moment `i`, and they are still committed. */
  ghost predicate StillCommitted(cfg: Config, acts: seq<Action>, hs: seq<History>, i: nat, j: nat, a: nat, k: nat)
    requires i <= |acts| && j <= |acts| && |hs| == |acts| + 1 && a in cfg
  {
    CommitOk(cfg, hs[j], k, NodeAt(cfg, acts, j, a).log, NodeAt(cfg, acts, j, a).currentTerm)
    && Agree(NodeAt(cfg, acts, i, a).log, NodeAt(cfg, acts, j, a).log, k)
  }

  lemma {:induction false} CommittedStays(cfg: Config, acts: seq<Action>, hs: seq<History>, i: nat, j: nat, a: nat, k: nat)
    requires ValidConfig(cfg) && Explains(cfg, acts, hs) && i <= j <= |acts| && a in cfg
    requires CommitOk(cfg, hs[i], k, NodeAt(cfg, acts, i, a).log, NodeAt(cfg, acts, i, a).currentTerm)
    ensures StillCommitted(cfg, acts, hs, i, j, a, k)
    decreases j
  {
    hide ValidConfig, NodeAt, Explains, CommitOk;
    MomentsOf(cfg, acts, hs);
    if i < j {
      CommittedStays(cfg, acts, hs, i, j - 1, a, k);
      CommittedStaysOnce(cfg, acts, hs, j - 1, a, k);
    } else {
      CommitInLog(cfg, hs[i], k, NodeAt(cfg, acts, i, a).log, NodeAt(cfg, acts, i, a).currentTerm);
    }
  }

  lemma MomentsOf(cfg: Config, acts: seq<Action>, hs: seq<History>)
    requires Explains(cfg, acts, hs)
    ensures |hs| == |acts| + 1
  {
    hide Inv, Grows;
  }

  lemma TwoStepsOf(cfg: Config, acts: seq<Action>, hs: seq<History>, j: nat)
    requires Explains(cfg, acts, hs) && j < |acts|
    ensures Inv(cfg, Run(cfg, acts[..j]), hs[j]) && Grows(hs[j], hs[j + 1])
  {
    hide Inv, Grows;
  }

  lemma CommittedStaysOnce(cfg: Config, acts: seq<Action>, hs: seq<History>, j: nat, a: nat, k: nat)
    requires ValidConfig(cfg) && Explains(cfg, acts, hs) && j < |acts| && a in cfg
    requires |hs| == |acts| + 1
    requires CommitOk(cfg, hs[j], k, NodeAt(cfg, acts, j, a).log, NodeAt(cfg, acts, j, a).currentTerm)
    ensures StillCommitted(cfg, acts, hs, j, j + 1, a, k)
  {
    hide ValidConfig, Explains, CommitOk, NodeStep, AppStep, Run, Grows, HistoryOk, Inv;
    var n, n' := NodeAt(cfg, acts, j, a), NodeAt(cfg, acts, j + 1, a);
    var c := Run(cfg, acts[..j]);
    TwoStepsOf(cfg, acts, hs, j);
    OneStepForward(cfg, acts, j, a);
    RunStep(cfg, acts, j);
    CommitInLog(cfg, hs[j], k, n.log, n.currentTerm);
    if Target(acts[j]) == a {
      StepKeepsCommitted(cfg, c, hs[j], acts[j], k);
    }
    assert Agree(n.log, n'.log, k);
    InvHistory(cfg, c, hs[j]);
    StableCommitOk(cfg, hs[j], hs[j + 1], k, n.log, n.currentTerm);
    TransferCommit(cfg, hs[j + 1], k, n.log, n.currentTerm, k, n'.log, n'.currentTerm);
  }

  lemma InvHistory(cfg: Config, c: Cluster, h: History)
    requires Inv(cfg, c, h)
    ensures HistoryOk(cfg, h)
  {
  }

  /** No server ever removes an entry that was at or below its CommitIndex, not even after a
      restart has set CommitIndex back to 0; and CommitIndex never points past the log. */
  lemma CommittedNeverRemoved(cfg: Config, acts: seq<Action>, i: nat, j: nat, a: nat)
    requires ValidConfig(cfg) && i <= j <= |acts| && a in cfg
    ensures var n := NodeAt(cfg, acts, i, a);
            n.vol.commitIndex <= |n.log| && Agree(n.log, NodeAt(cfg, acts, j, a).log, n.vol.commitIndex)
  {
    hide ValidConfig, NodeAt, CommitOk, Grows, Inv;
    var hs := RunHistory(cfg, acts);
    GrowsRefl(hs[i]);
    CommitStands(cfg, acts, i, a, hs[i], hs[i]);
    CommittedStays(cfg, acts, hs, i, j, a, NodeAt(cfg, acts, i, a).vol.commitIndex);
  }

  // --- Applied entries ------------------------------------------------------------------------

  /** The application has received exactly the non-stub entries up to LastAppliedIndex, in order. */
  ghost predicate AppOk(s: Server) {
    && s.app.lastApplied <= s.node.vol.commitIndex
    && s.app.lastApplied <= |s.node.log|
    && s.app.applied == NonStub(s.node.log[..s.app.lastApplied])
  }

  lemma {:induction false} NonStubConcat(a: seq<Entry>, b: seq<Entry>)
    ensures NonStub(a + b) == NonStub(a) + NonStub(b)
  {
    if b == [] {
      assert a + b == a;
    } else {
      var n := |b| - 1;
      assert (a + b)[..|a + b| - 1] == a + b[..n];
      NonStubConcat(a, b[..n]);
    }
  }

  lemma ApplyKeepsApp(s: Server)
    requires AppOk(s) && s.node.vol.commitIndex <= |s.node.log|
    ensures AppOk(s.(app := ApplyCommitted(s))) && ApplyCommitted(s).lastApplied == s.node.vol.commitIndex
  {
    var log, from, to := s.node.log, s.app.lastApplied, s.node.vol.commitIndex;
    NonStubConcat(log[..from], log[from..to]);
    assert log[..to] == log[..from] + log[from..to];
  }

  lemma StepKeepsApp(cfg: Config, c: Cluster, h: History, a: Action)
    requires ValidConfig(cfg) && Inv(cfg, c, h) && Target(a) in cfg && Target(a) in c.servers
    requires AppOk(c.servers[Target(a)])
    ensures AppOk(Server(NodeStep(cfg, c, a).node, AppStep(c, a)))
  {
    hide ValidConfig, Inv, Before, CommitOk, NonStub, NodeStep, Forward;
    var s := c.servers[Target(a)];
    var n, n' := s.node, NodeStep(cfg, c, a).node;
    InvGives(cfg, c, h, Target(a));
    OwnCommit(cfg, h, Target(a), n);
    StepForward(cfg, c, a);
    StepKeepsCommitted(cfg, c, h, a, n.vol.commitIndex);
    if a.Commit? {
      ApplyKeepsApp(s);
      CommitStepOnly(cfg, c, a);
    } else if !a.Restart? {
      assert n'.log[..s.app.lastApplied] == n.log[..s.app.lastApplied];
    } else {
      NonStubNothing(n'.log);
    }
  }

  lemma OwnCommit(cfg: Config, h: History, id: nat, n: Node)
    requires Before(cfg, h, id, n)
    ensures CommitOk(cfg, h, n.vol.commitIndex, n.log, n.currentTerm) && n.vol.commitIndex <= |n.log|
  {
  }

  lemma CommitStepOnly(cfg: Config, c: Cluster, a: Action)
    requires Target(a) in cfg && Target(a) in c.servers && a.Commit?
    ensures NodeStep(cfg, c, a).node == c.servers[Target(a)].node
  {
  }

  lemma NonStubNothing(log: seq<Entry>)
    ensures NonStub(log[..0]) == []
  {
  }

  lemma {:induction false} RunKeepsApp(cfg: Config, acts: seq<Action>, hs: seq<History>, i: nat, a: nat)
    requires ValidConfig(cfg) && Explains(cfg, acts, hs) && i <= |acts| && a in cfg
    ensures AppOk(ServerAt(cfg, acts, i, a))
  {
    hide ValidConfig, Explains, NodeStep, AppStep, AppOk, Inv, Grows;
    if i == 0 {
      StartApps(cfg, acts, a);
    } else {
      hide Run;
      RunKeepsApp(cfg, acts, hs, i - 1, a);
      MomentsOf(cfg, acts, hs);
      RunStep(cfg, acts, i - 1);
      TwoStepsOf(cfg, acts, hs, i - 1);
      if Target(acts[i - 1]) == a {
        StepKeepsApp(cfg, Run(cfg, acts[..i - 1]), hs[i - 1], acts[i - 1]);
      }
    }
  }

  lemma StartApps(cfg: Config, acts: seq<Action>, a: nat)
    requires a in cfg
    ensures AppOk(ServerAt(cfg, acts, 0, a))
  {
    assert acts[..0] == [];
  }

  /** Each committed command is handed over exactly once and in log order. */
  lemma AppliedExactly(cfg: Config, acts: seq<Action>, i: nat, a: nat)
    requires ValidConfig(cfg) && i <= |acts| && a in cfg
    ensures var s := ServerAt(cfg, acts, i, a);
            s.app.lastApplied <= s.node.vol.commitIndex <= |s.node.log|
            && s.app.applied == NonStub(s.node.log[..s.app.lastApplied])
  {
    hide ValidConfig, Inv, Grows, Run;
    var hs := RunHistory(cfg, acts);
    RunKeepsApp(cfg, acts, hs, i, a);
    CommittedNeverRemoved(cfg, acts, i, i, a);
  }

  /** The applications of any two servers at any two moments have received the same commands in
      the same order, as far as both have got; at equal LastAppliedIndex they are equal. */
  lemma ReplicasAgree(cfg: Config, acts: seq<Action>, i: nat, j: nat, a: nat, b: nat)
    requires ValidConfig(cfg) && i <= |acts| && j <= |acts| && a in cfg && b in cfg
    requires ServerAt(cfg, acts, i, a).app.lastApplied <= ServerAt(cfg, acts, j, b).app.lastApplied
    ensures ServerAt(cfg, acts, i, a).app.applied <= ServerAt(cfg, acts, j, b).app.applied
    ensures ServerAt(cfg, acts, i, a).app.lastApplied == ServerAt(cfg, acts, j, b).app.lastApplied ==>
              ServerAt(cfg, acts, i, a).app.applied == ServerAt(cfg, acts, j, b).app.applied
  {
    hide ValidConfig, Run, NonStub;
    AppliedExactly(cfg, acts, i, a);
    AppliedExactly(cfg, acts, j, b);
    var s, s' := ServerAt(cfg, acts, i, a), ServerAt(cfg, acts, j, b);
    var k, k' := s.app.lastApplied, s'.app.lastApplied;
    forall x | 0 <= x < k ensures s.node.log[x] == s'.node.log[x] {
      StateMachineSafety(cfg, acts, i, j, a, b, x + 1);
    }
    assert s.node.log[..k] == s'.node.log[..k];
    assert s'.node.log[..k'] == s'.node.log[..k] + s'.node.log[k..k'];
    NonStubConcat(s'.node.log[..k], s'.node.log[k..k']);
  }

  // --- Stale requests -------------------------------------------------------------------------

  /** A request of an earlier term leaves the server untouched, its election deadline included. */
  lemma StaleRequestChangesNothing(id: nat, peers: seq<nat>, n: Node, m: Message, t: Tick)
    requires m.Append? && m.term < n.currentTerm
    ensures Process(id, peers, n, m, t) == Step(n, [Appended(id, m.src, n.currentTerm, m.seqno, 0, false)])
  {
  }
}
