/** Elections, client commands, and then any step of a server and any action of the cluster. */
module PreserveElection {
  import opened Messages
  import opened Log
  import opened Protocol
  import opened Cluster
  import opened History
  import opened Stable
  import opened Completeness
  import opened HistorySteps
  import opened Preserve
  import opened PreserveLeader

  // --- A client command -----------------------------------------------------------------------

  /** The history of a leader that appends to its log. */
  lemma AppendHistory(cfg: Config, h: History, id: nat, n: Node, e: Entry) returns (h': History)
    requires Before(cfg, h, id, n) && n.role == Leader && e.term == n.currentTerm
    ensures Extends(cfg, h, h', id) && h'.votes == h.votes && Won(h', n.currentTerm)
    ensures forall u: nat | Won(h', u) :: Won(h, u)
    ensures var e' := h'.elections[n.currentTerm]; e'.leader == id && e'.log == n.log + [e] && e'.seqno == n.seqno
    ensures Acked(h', id, n.currentTerm, |n.log| + 1)
    ensures forall u: nat | (id, u) in h'.acks :: u <= n.currentTerm
    ensures forall u: nat, k: nat | Acked(h', id, u, k) :: Acked(h, id, u, k) || u == n.currentTerm
  {
    hide Before, Extends, AddAck, Acked, Voted;
    var t := n.currentTerm;
    var h1 := LongerLog(cfg, h, id, n, e);
    NoLaterTerm(cfg, h, id, n);
    OwnAck(cfg, h, h1, id, t, |n.log| + 1);
    h' := AddAck(h1, id, t, |n.log| + 1);
  }

  lemma NoLaterTerm(cfg: Config, h: History, id: nat, n: Node)
    requires Before(cfg, h, id, n)
    ensures forall u: nat | Voted(h, id, u) :: u <= n.currentTerm
    ensures forall u: nat | (id, u) in h.acks :: u <= n.currentTerm
  {
  }

  lemma LongerLog(cfg: Config, h: History, id: nat, n: Node, e: Entry) returns (h': History)
    requires Before(cfg, h, id, n) && n.role == Leader && e.term == n.currentTerm
    ensures id in cfg && Extends(cfg, h, h', id) && h'.votes == h.votes && h'.acks == h.acks && Won(h', n.currentTerm)
    ensures forall u: nat | Won(h', u) :: Won(h, u)
    ensures var e' := h'.elections[n.currentTerm]; e'.leader == id && e'.log == n.log + [e] && e'.seqno == n.seqno
  {
    hide HistoryOk, Extends, NodeOk, ValidPeers, ValidConfig;
    LeaderElection(cfg, h, id, n);
    ContinueKeeps(cfg, h, n.currentTerm, [e], n.seqno);
    h' := Continue(h, n.currentTerm, [e], n.seqno);
  }

  lemma CommandKeeps(cfg: Config, h: History, id: nat, n: Node, flags: nat, data: seq<byte>) returns (h': History)
    requires Before(cfg, h, id, n) && n.role == Leader
    ensures Keeps(cfg, h, h', id, Step(AppendCommand(n, flags, data), []))
  {
    hide HistoryOk, Grows, OnlyBy, KeepsAcks, LogOk, CommitOk;
    var e := Entry(n.currentTerm, flags, data);
    h' := AppendHistory(cfg, h, id, n, e);
    LeaderMovesOn(cfg, h, h', id, n, AppendCommand(n, flags, data), 1);
  }

  // --- Standing for election ------------------------------------------------------------------

  lemma StartElectionKeeps(cfg: Config, h: History, id: nat, n: Node, now: nat, jitter: nat) returns (h': History)
    requires Before(cfg, h, id, n)
    ensures Keeps(cfg, h, h', id, Step(StartElection(id, cfg[id], n, now, jitter), []))
  {
    var t := n.currentTerm + 1;
    AddVoteKeeps(cfg, h, id, t, id, n.log);
    h' := AddVote(h, id, t, id, n.log);
    StandingOk(cfg, h, h', id, n, StartElection(id, cfg[id], n, now, jitter));
  }

  lemma StandingTerms(cfg: Config, h: History, h': History, id: nat, n: Node, n': Node)
    requires TermOk(h, id, n) && h' == AddVote(h, id, n.currentTerm + 1, id, n.log)
    requires n'.currentTerm == n.currentTerm + 1 && n'.votedFor == id && n'.log == n.log && n'.vol.votes == {}
    ensures TermOk(h', id, n') && (id != 0 ==> VotedForOk(h', id, n')) && CandidateOk(cfg, h', id, n')
  {
    var t := n.currentTerm + 1;
    assert forall u: nat | Voted(h', id, u) :: Voted(h, id, u) || u == t;
    assert forall u: nat | Won(h', u) :: Won(h, u) && h'.elections[u] == h.elections[u];
  }

  lemma StandingLog(cfg: Config, h: History, h': History, id: nat, n: Node)
    requires HistoryOk(cfg, h) && Grows(h, h') && h'.acks == h.acks
    requires LogOk(h, n.log) && KeepsAcks(h, id, n.log, n.currentTerm + 1)
    requires CommitOk(cfg, h, n.vol.commitIndex, n.log, n.currentTerm)
    requires forall t: nat | (id, t) in h.acks :: t <= n.currentTerm
    ensures LogOk(h', n.log) && KeepsAcks(h', id, n.log, n.currentTerm + 2)
    ensures CommitOk(cfg, h', n.vol.commitIndex, n.log, n.currentTerm + 1)
  {
    var t := n.currentTerm + 1;
    StableLog(h, h', n.log);
    assert KeepsAcks(h', id, n.log, t) by { StableKeepsAcks(cfg, h, h', id, n.log, t); }
    StableCommitOk(cfg, h, h', n.vol.commitIndex, n.log, n.currentTerm);
    hide HistoryOk, Grows, LogOk, CommitOk;
    WidenKeepsAcks(h', id, n.log, t, t + 1);
    TransferCommit(cfg, h', n.vol.commitIndex, n.log, n.currentTerm, n.vol.commitIndex, n.log, t);
  }

  lemma StandingOk(cfg: Config, h: History, h': History, id: nat, n: Node, n': Node)
    requires Before(cfg, h, id, n) && Extends(cfg, h, h', id) && h' == AddVote(h, id, n.currentTerm + 1, id, n.log)
    requires n'.currentTerm == n.currentTerm + 1 && n'.votedFor == id && n'.log == n.log && n'.role == Candidate
    requires n'.vol.votes == {} && n'.vol.commitIndex == n.vol.commitIndex && n'.vol.electionDue != Never
    ensures NodeOk(cfg, h', id, n')
  {
    hide HistoryOk, Grows, OnlyBy, KeepsAcks, LogOk, CommitOk, VotedForOk, CandidateOk, LeaderOk, ValidPeers;
    StandingLog(cfg, h, h', id, n);
    StandingTerms(cfg, h, h', id, n, n');
  }

  // --- Winning --------------------------------------------------------------------------------

  /** The voters a candidate has counted, itself included. */
  lemma WinningQuorum(cfg: Config, h: History, id: nat, n: Node)
    requires Before(cfg, h, id, n) && n.role == Candidate && WonElection(cfg[id], n)
    ensures var quorum := n.vol.votes + {id};
            && quorum <= cfg.Keys && |quorum| >= MinVotes(|cfg| - 1)
            && (forall s | s in quorum :: Voted(h, s, n.currentTerm) && h.votes[(s, n.currentTerm)].cand == id)
            && !Won(h, n.currentTerm)
  {
    PeerCount(cfg, id);
    var quorum := n.vol.votes + {id};
    assert id !in n.vol.votes;
    NoSecondWinner(cfg, h, n.currentTerm, id, quorum);
  }

  /** Without a winner of the current term, every entry is of an earlier term. */
  lemma EarlierTerms(h: History, id: nat, n: Node)
    requires TermOk(h, id, n) && LogOk(h, n.log) && !Won(h, n.currentTerm)
    ensures forall i | 0 <= i < |n.log| :: n.log[i].term < n.currentTerm
  {
    forall i | 0 <= i < |n.log| ensures n.log[i].term < n.currentTerm {
      assert EntryOk(h, n.log, i);
    }
  }

  lemma WinElection(cfg: Config, h: History, id: nat, n: Node, e: Election)
    requires Before(cfg, h, id, n) && n.role == Candidate && !Won(h, n.currentTerm)
    requires e.leader == id && e.init == n.log && |e.log| == |n.log| + 1 && Agree(n.log, e.log, |n.log|)
    requires e.log[|n.log|].term == n.currentTerm && id in e.quorum
    requires e.quorum <= cfg.Keys && |e.quorum| >= MinVotes(|cfg| - 1)
    requires forall s | s in e.quorum :: Voted(h, s, n.currentTerm) && h.votes[(s, n.currentTerm)].cand == id
    requires forall i | 0 <= i < |n.log| :: n.log[i].term < n.currentTerm
    ensures Extends(cfg, h, AddElection(h, n.currentTerm, e), id)
  {
    hide HistoryOk, Grows, OnlyBy, KeepsAcks, LogOk, CommitOk, MinVotes;
    NoLaterTerm(cfg, h, id, n);
    AddElectionKeeps(cfg, h, n.currentTerm, e);
  }

  /** The history of a candidate that wins. */
  lemma WinHistory(cfg: Config, h: History, id: nat, n: Node, stub: Entry) returns (h': History)
    requires Before(cfg, h, id, n) && n.role == Candidate && WonElection(cfg[id], n) && stub.term == n.currentTerm
    ensures Extends(cfg, h, h', id) && h'.votes == h.votes && Won(h', n.currentTerm)
    ensures forall u: nat | Won(h', u) :: (Won(h, u) && h'.elections[u] == h.elections[u]) || u == n.currentTerm
    ensures var e := h'.elections[n.currentTerm]; e.leader == id && e.log == n.log + [stub] && e.seqno == n.seqno
    ensures Acked(h', id, n.currentTerm, |n.log| + 1)
    ensures forall u: nat | (id, u) in h'.acks :: u <= n.currentTerm
    ensures forall u: nat, k: nat | Acked(h', id, u, k) :: Acked(h, id, u, k) || u == n.currentTerm
  {
    var t := n.currentTerm;
    WinningQuorum(cfg, h, id, n);
    EarlierTerms(h, id, n);
    var e := Election(id, n.vol.votes + {id}, n.log, n.log + [stub], n.seqno);
    hide HistoryOk, Grows, OnlyBy, KeepsAcks, LogOk, CommitOk, ValidPeers, LeaderOk, AddAck, Acked, WonElection, MinVotes;
    WinElection(cfg, h, id, n, e);
    NoLaterTerm(cfg, h, id, n);
    NoAckYet(cfg, h, t);
    AddElectionGrows(h, t, e);
    h' := AddElection(h, t, e);
  }

  lemma BecomeLeaderKeeps(cfg: Config, h: History, id: nat, n: Node) returns (h': History)
    requires Before(cfg, h, id, n) && n.role == Candidate && WonElection(cfg[id], n)
    ensures Keeps(cfg, h, h', id, Step(BecomeLeader(cfg[id], n), []))
  {
    hide HistoryOk, Grows, OnlyBy, KeepsAcks, LogOk, CommitOk;
    h' := WinHistory(cfg, h, id, n, Entry(n.currentTerm, STUB, []));
    NewLeaderOk(cfg, h, h', id, n, BecomeLeader(cfg[id], n));
  }

  lemma NewLeaderTerms(cfg: Config, h: History, h': History, id: nat, n: Node, log': seq<Entry>)
    requires Before(cfg, h, id, n) && HistoryOk(cfg, h') && Won(h', n.currentTerm) && log' == LogOf(h', n.currentTerm)
    requires h'.votes == h.votes
    requires forall u: nat | Won(h', u) :: (Won(h, u) && h'.elections[u] == h.elections[u]) || u == n.currentTerm
    requires forall u: nat | (id, u) in h'.acks :: u <= n.currentTerm
    ensures TermOk(h', id, n.(log := log')) && LogOk(h', log')
  {
    OwnTerms(cfg, h', n.currentTerm);
    assert ElectionOk(cfg, h', n.currentTerm);
    hide HistoryOk, KeepsAcks, LogOk, CommitOk;
    assert forall u: nat :: Voted(h', id, u) <==> Voted(h, id, u);
  }

  lemma NewLeaderView(cfg: Config, h: History, id: nat, n: Node)
    requires id in cfg && ValidPeers(cfg, id)
    ensures forall p | p in cfg && p != id :: PeerViewOk(h, BecomeLeader(cfg[id], n), p)
  {
    forall p | p in cfg && p != id ensures PeerViewOk(h, BecomeLeader(cfg[id], n), p) {
      assert p in cfg[id];
    }
  }

  lemma NewLeaderOk(cfg: Config, h: History, h': History, id: nat, n: Node, n': Node)
    requires Before(cfg, h, id, n) && n.role == Candidate && Extends(cfg, h, h', id)
    requires n' == BecomeLeader(cfg[id], n)
    requires Won(h', n.currentTerm) && h'.votes == h.votes
    requires forall u: nat | Won(h', u) :: (Won(h, u) && h'.elections[u] == h.elections[u]) || u == n.currentTerm
    requires var e := h'.elections[n.currentTerm]; e.leader == id && e.log == n'.log && e.seqno == n.seqno
    requires Acked(h', id, n.currentTerm, |n'.log|)
    requires forall u: nat | (id, u) in h'.acks :: u <= n.currentTerm
    requires forall u: nat, k: nat | Acked(h', id, u, k) :: Acked(h, id, u, k) || u == n.currentTerm
    ensures NodeOk(cfg, h', id, n')
  {
    var t := n.currentTerm;
    hide HistoryOk, Grows, OnlyBy, KeepsAcks, LogOk, CommitOk, PeerViewOk;
    NewLeaderTerms(cfg, h, h', id, n, n'.log);
    LeaderKeepsAcks(cfg, h, h', id, n, n'.log);
    StableCommitOk(cfg, h, h', n.vol.commitIndex, n.log, t);
    TransferCommit(cfg, h', n.vol.commitIndex, n.log, t, n.vol.commitIndex, n'.log, t);
    NewLeaderView(cfg, h', id, n);
  }

  // --- Requests for votes ---------------------------------------------------------------------

  lemma {:induction false} CandidateSends(id: nat, peers: seq<nat>, n: Node, now: nat)
    ensures var r := CandidateTimeout(id, peers, n, now);
            && r.node == n.(vol := n.vol.(rpcDue := r.node.vol.rpcDue))
            && forall m | m in r.sent :: m.RequestVote? && m.dst in peers && m == CreateVote(id, n, m.dst)
  {
    if peers != [] {
      CandidateSends(id, peers[..|peers| - 1], n, now);
    }
  }

  lemma CandidateTimeoutKeeps(cfg: Config, h: History, id: nat, n: Node, now: nat)
    requires Before(cfg, h, id, n) && n.role == Candidate
    ensures Keeps(cfg, h, h, id, CandidateTimeout(id, cfg[id], n, now))
  {
    SameHistory(cfg, h, id);
    hide HistoryOk, Grows, OnlyBy, KeepsAcks, LogOk, CommitOk, CandidateTimeout;
    CandidateSends(id, cfg[id], n, now);
    var r := CandidateTimeout(id, cfg[id], n, now);
    IgnoreTimers(cfg, h, id, n, r.node);
  }

  // --- The leader's timer ---------------------------------------------------------------------

  lemma LeaderTimeoutKeeps(cfg: Config, h: History, id: nat, n: Node, now: nat) returns (h': History)
    requires Before(cfg, h, id, n) && n.role == Leader
    ensures Keeps(cfg, h, h', id, LeaderTimeout(id, cfg[id], n, now))
  {
    hide HistoryOk, Grows, OnlyBy, KeepsAcks, LogOk, CommitOk, IsRequest, Heartbeats;
    var r := Heartbeats(id, cfg[id], n, now);
    HeartbeatRequests(id, cfg[id], n, now);
    h' := SendKeeps(cfg, h, id, n, r);
    if |cfg[id]| == 0 { AloneCommits(cfg, h', id, r.node); }
  }

  /** The only server of a cluster commits its whole log. */
  lemma AloneCommits(cfg: Config, h: History, id: nat, n: Node)
    requires Before(cfg, h, id, n) && n.role == Leader
    ensures NodeOk(cfg, h, id, n.(vol := CommitAdvance(n.vol, cfg[id], n.currentTerm, n.log, 0)))
  {
    hide HistoryOk, KeepsAcks, LogOk, CommitOk;
    forall p | p in cfg && p != id
      ensures Get(n.vol.matchIndex, p) == 0 || Acked(h, p, n.currentTerm, Get(n.vol.matchIndex, p))
    {
      assert PeerViewOk(h, n, p);
    }
    AdvanceCommits(cfg, h, id, n, n.vol, 0);
    var n' := n.(vol := CommitAdvance(n.vol, cfg[id], n.currentTerm, n.log, 0));
    forall p | p in cfg && p != id ensures PeerViewOk(h, n', p) { assert PeerViewOk(h, n, p); }
    LeaderStays(cfg, h, id, n, n');
  }

  lemma ReadKeeps(cfg: Config, h: History, id: nat, n: Node) returns (h': History)
    requires Before(cfg, h, id, n) && n.role == Leader
    ensures Keeps(cfg, h, h', id, ApproveRead(id, cfg[id], n))
  {
    hide HistoryOk, Grows, OnlyBy, KeepsAcks, LogOk, CommitOk, IsRequest, ApproveRead;
    ReadRequests(id, cfg[id], n);
    h' := SendKeeps(cfg, h, id, n, ApproveRead(id, cfg[id], n));
  }

  // --- Whole calls ----------------------------------------------------------------------------

  lemma ElectKeeps(cfg: Config, h: History, id: nat, n: Node, now: nat, jitter: nat) returns (h': History)
    requires Before(cfg, h, id, n)
    ensures Keeps(cfg, h, h', id, Step(Elect(id, cfg[id], n, now, jitter), []))
  {
    hide HistoryOk, Grows, OnlyBy, NodeOk, StartElection, BecomeLeader;
    SameHistory(cfg, h, id);
    var h1, n1 := h, n;
    if n.role != Leader && Due(n.vol.electionDue, now) {
      h1 := StartElectionKeeps(cfg, h, id, n, now, jitter);
      n1 := StartElection(id, cfg[id], n, now, jitter);
    }
    h' := h1;
    if n1.role == Candidate && WonElection(cfg[id], n1) {
      h' := BecomeLeaderKeeps(cfg, h1, id, n1);
      ExtendsTrans(cfg, h, h1, h', id);
    }
  }

  lemma TimeoutKeeps(cfg: Config, h: History, id: nat, n: Node, t: Tick) returns (h': History)
    requires Before(cfg, h, id, n)
    ensures Keeps(cfg, h, h', id, ProcessTimeout(id, cfg[id], n, t))
  {
    hide HistoryOk, Grows, OnlyBy, NodeOk, Elect, CandidateTimeout, LeaderTimeout;
    var h1 := ElectKeeps(cfg, h, id, n, t.now, t.jitter);
    var n1 := Elect(id, cfg[id], n, t.now, t.jitter);
    h' := h1;
    if n1.role == Candidate {
      CandidateTimeoutKeeps(cfg, h1, id, n1, t.now);
    } else if n1.role == Leader {
      h' := LeaderTimeoutKeeps(cfg, h1, id, n1, t.now);
      ExtendsTrans(cfg, h, h1, h', id);
    }
  }

  lemma ProcessKeeps(cfg: Config, h: History, id: nat, n: Node, m: Message, t: Tick) returns (h': History)
    requires Before(cfg, h, id, n) && MessageOk(cfg, h, m) && m.dst == id
    ensures Keeps(cfg, h, h', id, Process(id, cfg[id], n, m, t))
  {
    ObserveKeeps(cfg, h, id, n, m.term, t.now, t.jitter);
    SameHistory(cfg, h, id);
    var n1 := Observe(n, m.term, t.now, t.jitter);
    assert m.term <= n1.currentTerm;
    hide HistoryOk, Grows, OnlyBy, NodeOk, Observe, OnRequestVote, OnAppend, OnVote, OnAppended;
    h' := h;
    if m.RequestVote? {
      h' := RequestVoteKeeps(cfg, h, id, n1, m, t.now, t.jitter2);
    } else if m.Append? {
      h' := AppendKeeps(cfg, h, id, n1, m, t.now, t.jitter2);
    } else if m.Vote? && n1.role == Candidate {
      VoteReplyKeeps(cfg, h, id, n1, m);
    } else if m.Appended? && n1.role == Leader {
      ReplyKeeps(cfg, h, id, n1, m);
    }
  }

  lemma NodeStepKeeps(cfg: Config, c: Cluster, h: History, a: Action) returns (h': History)
    requires ValidConfig(cfg) && Inv(cfg, c, h) && Target(a) in cfg
    ensures Keeps(cfg, h, h', Target(a), NodeStep(cfg, c, a))
  {
    hide Inv, Keeps, Before, MessageOk, Process, ProcessTimeout, ApproveRead, AppendCommand, Boot, ValidConfig;
    BeforeStep(cfg, c, h, a);
    var id := Target(a);
    var n := c.servers[id].node;
    IdleKeeps(cfg, h, id, n);
    h' := h;
    match a
    case Deliver(m, t) =>
      if m in c.net { h' := ProcessKeeps(cfg, h, id, n, m, t); }
    case Timeout(_, t) => h' := TimeoutKeeps(cfg, h, id, n, t);
    case Command(_, data) => if n.role == Leader { h' := CommandKeeps(cfg, h, id, n, 0, data); }
    case Read(_) => if n.role == Leader { h' := ReadKeeps(cfg, h, id, n); }
    case Commit(_) =>
    case Restart(_) =>
  }

  lemma BeforeStep(cfg: Config, c: Cluster, h: History, a: Action)
    requires ValidConfig(cfg) && Inv(cfg, c, h) && Target(a) in cfg
    ensures Target(a) in c.servers && Before(cfg, h, Target(a), c.servers[Target(a)].node)
    ensures a.Deliver? && a.m in c.net ==> MessageOk(cfg, h, a.m)
  {
    assert NodeOk(cfg, h, Target(a), c.servers[Target(a)].node) && ValidPeers(cfg, Target(a));
  }

  /** A step that sends nothing and leaves the server as it is, or restarts it. */
  lemma IdleKeeps(cfg: Config, h: History, id: nat, n: Node)
    requires Before(cfg, h, id, n)
    ensures Keeps(cfg, h, h, id, Step(n, []))
    ensures Keeps(cfg, h, h, id, Step(Boot(cfg[id], n.currentTerm, n.votedFor, n.log), []))
  {
    SameHistory(cfg, h, id);
    RestartKeeps(cfg, h, id, n);
    hide HistoryOk, NodeOk, Extends, Boot;
  }

  /** Every action keeps the invariant. */
  lemma NextKeeps(cfg: Config, c: Cluster, h: History, a: Action) returns (h': History)
    requires ValidConfig(cfg) && Inv(cfg, c, h)
    ensures Inv(cfg, Next(cfg, c, a), h') && Grows(h, h')
  {
    if Target(a) in cfg {
      h' := NodeStepKeeps(cfg, c, h, a);
      OthersKeep(cfg, c, h, h', Target(a), NodeStep(cfg, c, a), AppStep(c, a));
    } else {
      h' := h;
      SameHistory(cfg, h, Target(a));
    }
  }

  /** The other servers and the messages already sent are not disturbed. */
  lemma OthersKeep(cfg: Config, c: Cluster, h: History, h': History, id: nat, r: Step, app: App)
    requires ValidConfig(cfg) && Inv(cfg, c, h) && id in cfg && Keeps(cfg, h, h', id, r)
    ensures Inv(cfg, Cluster(c.servers[id := Server(r.node, app)], c.net + Sent(r.sent)), h') && Grows(h, h')
  {
    hide HistoryOk, Grows, OnlyBy, NodeOk, MessageOk;
    forall s | s in cfg && s != id ensures NodeOk(cfg, h', s, c.servers[s].node) {
      StableNode(cfg, h, h', id, s, c.servers[s].node);
    }
    forall m | m in c.net ensures MessageOk(cfg, h', m) { StableMessage(cfg, h, h', m); }
  }

  ghost function NoHistory(): History { History(map[], map[], map[]) }

  lemma StartOk(cfg: Config)
    requires ValidConfig(cfg)
    ensures Inv(cfg, Start(cfg), NoHistory())
  {
    hide NodeOk, ValidConfig, HistoryOk, Boot, MessageOk;
    NoHistoryOk(cfg);
    forall id | id in cfg ensures NodeOk(cfg, NoHistory(), id, Start(cfg).servers[id].node) {
      BootOk(cfg, id);
    }
  }

  lemma NoHistoryOk(cfg: Config)
    ensures HistoryOk(cfg, NoHistory())
  {
  }

  lemma BootOk(cfg: Config, id: nat)
    requires id in cfg
    ensures NodeOk(cfg, NoHistory(), id, Boot(cfg[id], 1, 0, []))
  {
  }
}
