/** Election deadlines: what postpones an election, and that a server that has heard of a leader does
    not stand before its deadline. */
module Deadlines {
  import opened Messages
  import opened Log
  import opened Protocol
  import opened Cluster
  import opened Clocks
  import opened Voting

  /** The deadline is finite and not due before `at`. */
  predicate QuietUntil(n: Node, at: nat) { n.vol.electionDue.At? && n.vol.electionDue.ms >= at }

  /** The deadline was drawn at `now`: a whole election timeout and a random part ahead. */
  predicate Drawn(n: Node, now: nat, jitter: nat) {
    n.vol.electionDue.At? && now + ELECTION <= n.vol.electionDue.ms <= now + ELECTION + jitter
  }

  /** The messages that postpone the election of a server: a request of a leader of no earlier term, a
      vote it grants, and a later term when its deadline has passed or it led. */
  predicate Postpones(n: Node, m: Message, now: nat) {
    || (m.Append? && m.term >= n.currentTerm)
    || (m.RequestVote? && Grants(n, m))
    || (m.term > n.currentTerm && (n.vol.electionDue == Never || Due(n.vol.electionDue, now)))
  }

  /** These give a whole new election timeout from the reading on, whatever the deadline was before; no
      other message moves the deadline. */
  lemma MessageMovesDeadline(id: nat, peers: seq<nat>, n: Node, m: Message, t: Tick)
    ensures var n' := Process(id, peers, n, m, t).node;
            if Postpones(n, m, t.now) then Drawn(n', t.now, Max(t.jitter, t.jitter2))
            else n'.vol.electionDue == n.vol.electionDue
  {
    hide QuorumIndex, Replay, UpToDate, Matches;
  }

  /** A timeout of a server that does not lead begins a new term exactly when its deadline has come, and
      then the next deadline is a whole election timeout away, unless it leads at once. */
  lemma TimeoutStandsIff(id: nat, peers: seq<nat>, n: Node, t: Tick)
    requires n.role != Leader
    ensures var n' := ProcessTimeout(id, peers, n, t).node;
            && n'.currentTerm == n.currentTerm + (if Due(n.vol.electionDue, t.now) then 1 else 0)
            && (Due(n.vol.electionDue, t.now) && n'.role != Leader ==>
                  n'.role == Candidate && n'.votedFor == id && Drawn(n', t.now, t.jitter))
            && (!Due(n.vol.electionDue, t.now) && n.role == Follower ==>
                  ProcessTimeout(id, peers, n, t) == Step(n, []))
            && (!Due(n.vol.electionDue, t.now) && n.role == Candidate && !WonElection(peers, n) ==>
                  n' == n.(vol := n.vol.(rpcDue := n'.vol.rpcDue)))
  {
    hide Heartbeats, QuorumIndex, CandidateTimeout;
    var n1 := Elect(id, peers, n, t.now, t.jitter);
    if n1.role == Candidate { AskingKeeps(id, peers, n1, t.now); }
  }

  lemma {:induction false} AskingKeeps(id: nat, peers: seq<nat>, n: Node, now: nat)
    ensures var n' := CandidateTimeout(id, peers, n, now).node; n' == n.(vol := n.vol.(rpcDue := n'.vol.rpcDue))
  {
    if peers != [] { AskingKeeps(id, peers[..|peers| - 1], n, now); }
  }

  /** A new term begins with nothing known of it: no leader, no votes, no confirmed reads, nothing of the
      peers. What is committed stays known. */
  lemma StandingForgets(id: nat, peers: seq<nat>, n: Node, t: Tick)
    requires n.role != Leader && Due(n.vol.electionDue, t.now)
    ensures var n' := ProcessTimeout(id, peers, n, t).node;
            && n'.vol.leaderId == 0 && n'.vol.votes == {} && n'.vol.matchIndex == map[] && n'.seqno >= n.seqno
            && (peers != [] ==> n'.vol.commitSeqno == 0 && n'.vol.commitIndex == n.vol.commitIndex)
  {
    hide Heartbeats, QuorumIndex, CandidateTimeout;
    var n1 := Elect(id, peers, n, t.now, t.jitter);
    if n1.role == Candidate { AskingKeeps(id, peers, n1, t.now); }
  }

  /** So does a leadership, with every peer one entry behind the leader's own empty one. */
  lemma WinningForgets(id: nat, peers: seq<nat>, n: Node, t: Tick)
    requires n.role != Leader && ProcessTimeout(id, peers, n, t).node.role == Leader && peers != []
    ensures var n' := ProcessTimeout(id, peers, n, t).node;
            && n'.vol.leaderId == 0 && n'.vol.votes == {} && n'.vol.commitSeqno == 0
            && n'.vol.commitIndex == n.vol.commitIndex && n'.vol.electionDue == Never && |n'.log| == |n.log| + 1
            && forall p | p in peers ::
                 Get(n'.vol.nextIndex, p) == |n'.log| && Get(n'.vol.matchIndex, p) == 0
                 && Get(n'.vol.batchSize, p) == 0 && Get(n'.vol.backOff, p) == 0
  {
    hide Heartbeats, CandidateTimeout, QuorumIndex;
    var n1 := Elect(id, peers, n, t.now, t.jitter);
    if n1.role == Candidate { AskingKeeps(id, peers, n1, t.now); }
  }

  /** A server that was just started stands at its first timeout, at whatever reading. */
  lemma FreshIsDue(peers: seq<nat>, term: nat, votedFor: nat, log: seq<Entry>, now: nat)
    ensures Due(Boot(peers, term, votedFor, log).vol.electionDue, now)
  {
  }

  // --- Over runs ------------------------------------------------------------------------------

  /** A follower that stays quiet until `at`. */
  ghost predicate Resting(n: Node, at: nat) { n.role == Follower && QuietUntil(n, at) }

  /** Whatever happens to it before `at` keeps it so, when no reading is below `at` less the timeout. */
  lemma StepKeepsResting(cfg: Config, c: Cluster, act: Action, at: nat)
    requires Target(act) in cfg && Target(act) in c.servers && Resting(c.servers[Target(act)].node, at)
    requires !act.Restart? && (act.Deliver? ==> act.tick.now + ELECTION >= at)
    requires act.Timeout? ==> act.tick.now < at
    ensures Resting(NodeStep(cfg, c, act).node, at)
    ensures act.Timeout? ==> NodeStep(cfg, c, act).node == c.servers[Target(act)].node
  {
    hide Process, ProcessTimeout, ApproveRead, Grants;
    var id := Target(act);
    var n := c.servers[id].node;
    match act
    case Deliver(m, t) =>
      MessageMovesDeadline(id, cfg[id], n, m, t);
      FollowersStay(id, cfg[id], n, m, t);
    case Timeout(_, t) => TimeoutStandsIff(id, cfg[id], n, t);
    case _ =>
  }

  lemma FollowersStay(id: nat, peers: seq<nat>, n: Node, m: Message, t: Tick)
    requires n.role == Follower
    ensures Process(id, peers, n, m, t).node.role == Follower
  {
    hide Replay, Matches, UpToDate;
  }

  /** No reading of `acts` from moment `i` on is below the one of moment `i`. */
  lemma ReadingsFrom(acts: seq<Action>, i: nat, x: nat)
    requires Steady(acts) && i < x < |acts| && Timed(acts[i]) && Timed(acts[x])
    ensures acts[x].tick.now >= acts[i].tick.now
  {
  }

  lemma {:induction false} RestsOn(cfg: Config, acts: seq<Action>, i: nat, x: nat, a: nat, at: nat)
    requires Steady(acts) && i < x <= |acts| && a in cfg && Timed(acts[i]) && acts[i].tick.now + ELECTION >= at
    requires Resting(NodeAt(cfg, acts, i + 1, a), at)
    requires forall y | i < y < x :: acts[y] != Restart(a)
    requires forall y | i < y < x && acts[y].Timeout? && acts[y].id == a :: acts[y].tick.now < at
    ensures Resting(NodeAt(cfg, acts, x, a), at)
    decreases x
  {
    hide Run, Resting, NodeStep, AppStep, Steady;
    if x > i + 1 {
      RestsOn(cfg, acts, i, x - 1, a, at);
      RestsOneStep(cfg, acts, i, x - 1, a, at);
    }
  }

  lemma RestsOneStep(cfg: Config, acts: seq<Action>, i: nat, x: nat, a: nat, at: nat)
    requires Steady(acts) && i < x < |acts| && a in cfg && Timed(acts[i]) && acts[i].tick.now + ELECTION >= at
    requires Resting(NodeAt(cfg, acts, x, a), at) && acts[x] != Restart(a)
    requires acts[x].Timeout? && acts[x].id == a ==> acts[x].tick.now < at
    ensures Resting(NodeAt(cfg, acts, x + 1, a), at)
    ensures acts[x].Timeout? && acts[x].id == a ==> NodeAt(cfg, acts, x + 1, a) == NodeAt(cfg, acts, x, a)
  {
    hide Run, Resting, NodeStep, AppStep, Steady;
    RunStep(cfg, acts, x);
    if Timed(acts[x]) { ReadingsFrom(acts, i, x); }
    if Target(acts[x]) == a { StepKeepsResting(cfg, Run(cfg, acts[..x]), acts[x], at); }
  }

  /** A server whose election was postponed at moment `i` by a message, as a follower, does nothing at its
      own timeouts before a whole election timeout has passed since that reading: neither its term
      nor its role nor anything else changes. */
  lemma PostponedMeansQuiet(cfg: Config, acts: seq<Action>, i: nat, x: nat, a: nat)
    requires Steady(acts) && i < x < |acts| && a in cfg
    requires acts[i].Deliver? && acts[i].m.dst == a && acts[i].m in Run(cfg, acts[..i]).net
    requires Postpones(NodeAt(cfg, acts, i, a), acts[i].m, acts[i].tick.now)
    requires NodeAt(cfg, acts, i + 1, a).role == Follower
    requires acts[x].Timeout? && acts[x].id == a && acts[x].tick.now < acts[i].tick.now + ELECTION
    requires forall y | i < y < x :: acts[y] != Restart(a)
    ensures NodeAt(cfg, acts, x + 1, a) == NodeAt(cfg, acts, x, a)
  {
    hide Run, Process, AppStep, Steady, Postpones;
    var at := acts[i].tick.now + ELECTION;
    RunStep(cfg, acts, i);
    MessageMovesDeadline(a, cfg[a], NodeAt(cfg, acts, i, a), acts[i].m, acts[i].tick);
    forall y | i < y < x && acts[y].Timeout? && acts[y].id == a ensures acts[y].tick.now < at {
      ReadingsFrom(acts, y, x);
    }
    hide NodeStep, NodeAt;
    RestsOn(cfg, acts, i, x, a, at);
    RestsOneStep(cfg, acts, i, x, a, at);
  }

  lemma AppendMakesFollower(id: nat, peers: seq<nat>, n: Node, m: Message, t: Tick)
    requires m.Append? && m.term >= n.currentTerm
    ensures Process(id, peers, n, m, t).node.role == Follower && Postpones(n, m, t.now)
  {
    hide Replay, Matches;
  }

  /** So a live leader is not deposed by those it reaches: a server that got an AppendEntries request of
      no earlier term does not stand within an election timeout of it. */
  lemma HeardMeansQuiet(cfg: Config, acts: seq<Action>, i: nat, x: nat, a: nat)
    requires Steady(acts) && i < x < |acts| && a in cfg
    requires acts[i].Deliver? && acts[i].m.dst == a && acts[i].m in Run(cfg, acts[..i]).net
    requires acts[i].m.Append? && acts[i].m.term >= NodeAt(cfg, acts, i, a).currentTerm
    requires acts[x].Timeout? && acts[x].id == a && acts[x].tick.now < acts[i].tick.now + ELECTION
    requires forall y | i < y < x :: acts[y] != Restart(a)
    ensures NodeAt(cfg, acts, x + 1, a) == NodeAt(cfg, acts, x, a)
  {
    hide Run, Process, AppStep, Steady, Postpones;
    RunStep(cfg, acts, i);
    AppendMakesFollower(a, cfg[a], NodeAt(cfg, acts, i, a), acts[i].m, acts[i].tick);
    PostponedMeansQuiet(cfg, acts, i, x, a);
  }
}
