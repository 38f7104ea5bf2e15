/** Whom a server takes for the leader, and so to whom it forwards commands. */
module Following {
  import opened Messages
  import opened Log
  import opened Protocol
  import opened Cluster
  import opened History
  import opened Safety
  import opened Durable
  import opened Origins
  import opened Deadlines
  import F = Routes

  /** A request of no earlier term names its leader; no other message does. */
  lemma MessageNames(id: nat, peers: seq<nat>, n: Node, m: Message, t: Tick)
    ensures var n' := Process(id, peers, n, m, t).node;
            if m.Append? && m.term >= n.currentTerm
            then n'.vol.leaderId == m.leaderId && n'.currentTerm == m.term && n'.role == Follower
            else n'.vol.leaderId == n.vol.leaderId
  {
    hide QuorumIndex, Replay, Matches, UpToDate;
  }

  /** A timeout forgets the name when a new term or a leadership begins, and keeps it otherwise. */
  lemma {:induction false} TimeoutNames(id: nat, peers: seq<nat>, n: Node, t: Tick)
    ensures var n' := ProcessTimeout(id, peers, n, t).node;
            n'.vol.leaderId == (if (n.role != Leader && Due(n.vol.electionDue, t.now)) || n'.role != n.role then 0
                                else n.vol.leaderId)
  {
    hide Heartbeats, CandidateTimeout, QuorumIndex;
    var n1 := Elect(id, peers, n, t.now, t.jitter);
    if n1.role == Candidate { AskingKeeps(id, peers, n1, t.now); }
  }

  /** Moment `i` delivers to `a` a request of a leader of no earlier term. */
  ghost predicate Hears(cfg: Config, acts: seq<Action>, i: nat, a: nat) {
    && i < |acts| && a in cfg && acts[i].Deliver? && acts[i].m.dst == a && acts[i].m in Run(cfg, acts[..i]).net
    && acts[i].m.Append? && acts[i].m.term >= NodeAt(cfg, acts, i, a).currentTerm
  }

  lemma Ends(cfg: Config, acts: seq<Action>, i: nat, m: Message)
    requires ValidConfig(cfg) && i <= |acts| && m in Run(cfg, acts[..i]).net
    ensures m.src in cfg && m.dst in cfg && m.src != m.dst
  {
    hide ValidConfig, Run, HistoryOk, NodeOk, Grows;
    var h, last := HistoryFrom(cfg, acts, i);
    assert MessageOk(cfg, h, m);
  }

  /** It then takes the sender for the leader, which is another server and has led the request's term. */
  lemma HeardNames(cfg: Config, acts: seq<Action>, i: nat, a: nat) returns (x: nat)
    requires ValidConfig(cfg) && Hears(cfg, acts, i, a)
    ensures var m, n' := acts[i].m, NodeAt(cfg, acts, i + 1, a);
            && n'.vol.leaderId == m.src && n'.currentTerm == m.term && n'.role == Follower
            && x <= i && m.src in cfg && m.src != a
            && NodeAt(cfg, acts, x, m.src).role == Leader && NodeAt(cfg, acts, x, m.src).currentTerm == m.term
  {
    hide ValidConfig, Run, Process, AppStep;
    RunStep(cfg, acts, i);
    MessageNames(a, cfg[a], NodeAt(cfg, acts, i, a), acts[i].m, acts[i].tick);
    Ends(cfg, acts, i, acts[i].m);
    x := RequestIsSlice(cfg, acts, i, acts[i].m);
  }

  /** While it stays in that term and keeps running, it follows that leader and no other. */
  lemma {:induction false} NameLasts(cfg: Config, acts: seq<Action>, i: nat, j: nat, a: nat)
    requires ValidConfig(cfg) && Hears(cfg, acts, i, a) && i < j <= |acts|
    requires NodeAt(cfg, acts, j, a).currentTerm == acts[i].m.term
    requires forall y | i < y < j :: acts[y] != Restart(a)
    ensures NodeAt(cfg, acts, j, a).vol.leaderId == acts[i].m.src && NodeAt(cfg, acts, j, a).role == Follower
    decreases j
  {
    hide ValidConfig, Run, NodeAt, Hears;
    HeardLater(cfg, acts, i, j, a);
    var x := HeardNames(cfg, acts, i, a);
    if j > i + 1 {
      VotesOncePerTerm(cfg, acts, i + 1, j - 1, a);
      VotesOncePerTerm(cfg, acts, j - 1, j, a);
      NameLasts(cfg, acts, i, j - 1, a);
      FollowsOn(cfg, acts, i, j - 1, a, x);
    }
  }

  lemma HeardLater(cfg: Config, acts: seq<Action>, i: nat, j: nat, a: nat)
    requires Hears(cfg, acts, i, a)
    ensures i < |acts| && acts[i].Deliver? && acts[i].m.Append? && a in cfg
  {
  }

  lemma FollowsOn(cfg: Config, acts: seq<Action>, i: nat, j: nat, a: nat, x: nat)
    requires ValidConfig(cfg) && Hears(cfg, acts, i, a) && i < j < |acts| && acts[j] != Restart(a)
    requires var n, n' := NodeAt(cfg, acts, j, a), NodeAt(cfg, acts, j + 1, a);
             n.vol.leaderId == acts[i].m.src && n.role == Follower && n.currentTerm == n'.currentTerm == acts[i].m.term
    requires x <= i && acts[i].m.src in cfg && NodeAt(cfg, acts, x, acts[i].m.src).role == Leader
    requires NodeAt(cfg, acts, x, acts[i].m.src).currentTerm == acts[i].m.term
    ensures var n' := NodeAt(cfg, acts, j + 1, a); n'.vol.leaderId == acts[i].m.src && n'.role == Follower
  {
    hide ValidConfig, Run, NodeAt;
    if Hears(cfg, acts, j, a) {
      var y := HeardNames(cfg, acts, j, a);
      ElectionSafety(cfg, acts, x, y, acts[i].m.src, acts[j].m.src);
    } else {
      NothingHeard(cfg, acts, j, a);
    }
  }

  /** Without a request of its leader a follower that stays in its term keeps the name. */
  lemma NothingHeard(cfg: Config, acts: seq<Action>, j: nat, a: nat)
    requires j < |acts| && a in cfg && !Hears(cfg, acts, j, a) && acts[j] != Restart(a)
    requires NodeAt(cfg, acts, j, a).role == Follower
    requires NodeAt(cfg, acts, j + 1, a).currentTerm == NodeAt(cfg, acts, j, a).currentTerm
    ensures NodeAt(cfg, acts, j + 1, a).role == Follower
    ensures NodeAt(cfg, acts, j + 1, a).vol.leaderId == NodeAt(cfg, acts, j, a).vol.leaderId
  {
    hide Run, Process, ProcessTimeout, AppStep;
    RunStep(cfg, acts, j);
    var n := NodeAt(cfg, acts, j, a);
    if Target(acts[j]) == a {
      match acts[j]
      case Deliver(m, t) =>
        MessageNames(a, cfg[a], n, m, t);
        FollowersStay(a, cfg[a], n, m, t);
      case Timeout(_, t) => TimeoutStandsIff(a, cfg[a], n, t);
      case _ =>
    }
  }

  /** Whomever a server takes for a leader, in any reachable state, is another server that has led, in
      no later term than the server's. */
  lemma {:induction false} NamedHasLed(cfg: Config, acts: seq<Action>, i: nat, a: nat) returns (x: nat)
    requires ValidConfig(cfg) && i <= |acts| && a in cfg && NodeAt(cfg, acts, i, a).vol.leaderId != 0
    ensures var l := NodeAt(cfg, acts, i, a).vol.leaderId;
            && x <= i && l in cfg && l != a && NodeAt(cfg, acts, x, l).role == Leader
            && NodeAt(cfg, acts, x, l).currentTerm <= NodeAt(cfg, acts, i, a).currentTerm
    decreases i
  {
    hide ValidConfig, Run, NodeAt;
    if i == 0 {
      NobodyAtStart(cfg, acts, a);
    } else if Hears(cfg, acts, i - 1, a) {
      x := HeardNames(cfg, acts, i - 1, a);
    } else {
      NameKeptOrForgotten(cfg, acts, i - 1, a);
      VotesOncePerTerm(cfg, acts, i - 1, i, a);
      x := NamedHasLed(cfg, acts, i - 1, a);
    }
  }

  lemma NobodyAtStart(cfg: Config, acts: seq<Action>, a: nat)
    requires a in cfg
    ensures NodeAt(cfg, acts, 0, a).vol.leaderId == 0
  {
    assert acts[..0] == [];
  }

  lemma NameKeptOrForgotten(cfg: Config, acts: seq<Action>, j: nat, a: nat)
    requires j < |acts| && a in cfg && !Hears(cfg, acts, j, a)
    ensures NodeAt(cfg, acts, j + 1, a).vol.leaderId in {0, NodeAt(cfg, acts, j, a).vol.leaderId}
  {
    hide Run, Process, ProcessTimeout, ApproveRead, AppStep;
    RunStep(cfg, acts, j);
    var n := NodeAt(cfg, acts, j, a);
    if Target(acts[j]) == a {
      match acts[j]
      case Deliver(m, t) => MessageNames(a, cfg[a], n, m, t);
      case Timeout(_, t) => TimeoutNames(a, cfg[a], n, t);
      case Read(_) => SendsAreForward(a, cfg[a], n, 0);
      case _ =>
    }
  }

  /** A server that leads takes nobody for the leader, itself included, in any reachable state. So what
      waited at it for a leader to be known goes on waiting while it leads. */
  lemma {:induction false} LeaderNamesNobody(cfg: Config, acts: seq<Action>, i: nat, a: nat)
    requires ValidConfig(cfg) && i <= |acts| && a in cfg && NodeAt(cfg, acts, i, a).role == Leader
    ensures NodeAt(cfg, acts, i, a).vol.leaderId == 0
    decreases i
  {
    hide ValidConfig, Run, NodeAt, Hears;
    if i == 0 {
      NobodyAtStart(cfg, acts, a);
    } else {
      LeadsBefore(cfg, acts, i - 1, a);
      if NodeAt(cfg, acts, i - 1, a).role == Leader { LeaderNamesNobody(cfg, acts, i - 1, a); }
    }
  }

  lemma LeadsBefore(cfg: Config, acts: seq<Action>, j: nat, a: nat)
    requires j < |acts| && a in cfg && NodeAt(cfg, acts, j + 1, a).role == Leader
    ensures NodeAt(cfg, acts, j, a).role == Leader ==>
              NodeAt(cfg, acts, j + 1, a).vol.leaderId in {0, NodeAt(cfg, acts, j, a).vol.leaderId}
    ensures NodeAt(cfg, acts, j, a).role != Leader ==> NodeAt(cfg, acts, j + 1, a).vol.leaderId == 0
  {
    hide Run, Process, ProcessTimeout, ApproveRead, AppStep;
    RunStep(cfg, acts, j);
    var n := NodeAt(cfg, acts, j, a);
    if Target(acts[j]) == a {
      match acts[j]
      case Deliver(m, t) =>
        MessageNames(a, cfg[a], n, m, t);
        if n.role != Leader { NoMessageElects(a, cfg[a], n, m, t); }
      case Timeout(_, t) => TimeoutNames(a, cfg[a], n, t);
      case Read(_) => SendsAreForward(a, cfg[a], n, 0);
      case _ =>
    }
  }

  lemma NoMessageElects(id: nat, peers: seq<nat>, n: Node, m: Message, t: Tick)
    requires n.role != Leader
    ensures Process(id, peers, n, m, t).node.role != Leader
  {
    hide Replay, Matches, UpToDate;
  }

  /** A command is forwarded only to another server of the cluster, one that has led. */
  lemma ForwardedToALeader(cfg: Config, acts: seq<Action>, i: nat, a: nat, f: F.Routes, cmd: F.Request, client: F.Client,
                           l: nat, r: F.Request)
    returns (x: nat)
    requires ValidConfig(cfg) && i <= |acts| && a in cfg
    requires var n := NodeAt(cfg, acts, i, a);
             F.ToLeader(l, r) in F.ForwardHop(f, n.role == Candidate, n.vol.leaderId, cmd, client).sent
    ensures x <= i && l in cfg && l != a && NodeAt(cfg, acts, x, l).role == Leader
    ensures NodeAt(cfg, acts, x, l).currentTerm <= NodeAt(cfg, acts, i, a).currentTerm
  {
    hide ValidConfig, Run, NodeAt;
    x := NamedHasLed(cfg, acts, i, a);
  }
}
