/** How a server is elected, from any reachable state, with the votes of some servers while the others
    stay silent. */
module Elections {
  import opened Messages
  import opened Log
  import opened Protocol
  import opened Commit
  import opened Cluster
  import opened Clocks
  import opened Safety

  /** The request of a candidate of term `t` with this log. */
  function VoteRequest(a: nat, p: nat, t: nat, log: seq<Entry>): Message {
    RequestVote(a, p, t, |log|, LastTerm(log), a)
  }

  /** Servers other than `a` that are peers of it. */
  ghost predicate Others(cfg: Config, a: nat, up: seq<nat>) {
    ValidConfig(cfg) && a in cfg && Distinct(up) && forall p | p in up :: p in cfg && p != a
  }

  /** `a` and the servers in `up`, which are among its peers, form a vote quorum. */
  ghost predicate Quorum(cfg: Config, a: nat, up: seq<nat>) {
    Others(cfg, a, up) && |up| + 1 >= MinVotes(|cfg[a]|)
  }

  /** What an action did: the server it concerns, the other servers, and the network. */
  lemma NextDoes(cfg: Config, c: Cluster, act: Action)
    requires Target(act) in cfg && Target(act) in c.servers
    ensures var c', r := Next(cfg, c, act), NodeStep(cfg, c, act);
            && c'.servers.Keys == c.servers.Keys
            && c'.servers[Target(act)].node == r.node
            && c'.servers[Target(act)].app == AppStep(c, act)
            && (forall s | s in c.servers && s != Target(act) :: c'.servers[s] == c.servers[s])
            && c.net <= c'.net && forall m | m in r.sent :: m in c'.net
  {
    hide NodeStep, AppStep;
  }

  lemma RunSnoc(cfg: Config, acts: seq<Action>, act: Action)
    ensures Run(cfg, acts + [act]) == Next(cfg, Run(cfg, acts), act)
  {
    hide Next;
    assert (acts + [act])[..|acts|] == acts;
  }

  /** From `c` to `c'` only `a` and servers in `up` did anything. */
  ghost predicate Only(c: Cluster, c': Cluster, a: nat, up: seq<nat>) {
    && c'.servers.Keys == c.servers.Keys && c.net <= c'.net
    && forall s | s in c.servers && s != a && s !in up :: c'.servers[s] == c.servers[s]
  }

  lemma OnlyTrans(c: Cluster, c1: Cluster, c2: Cluster, a: nat, up: seq<nat>)
    requires Only(c, c1, a, up) && Only(c1, c2, a, up)
    ensures Only(c, c2, a, up)
  {
  }

  lemma OnlyRefl(c: Cluster, a: nat, up: seq<nat>)
    ensures Only(c, c, a, up)
  {
  }

  lemma OnlyWider(c: Cluster, c': Cluster, a: nat, up: seq<nat>, up': seq<nat>)
    requires Only(c, c', a, up) && forall p | p in up :: p in up'
    ensures Only(c, c', a, up')
  {
  }

  lemma UpIsOther(cfg: Config, a: nat, up: seq<nat>, i: nat)
    requires Others(cfg, a, up) && i < |up|
    ensures up[i] in cfg && up[i] != a && up[i] in cfg[a]
  {
    assert ValidPeers(cfg, a);
  }

  lemma PeersDistinct(cfg: Config, a: nat)
    requires ValidConfig(cfg) && a in cfg
    ensures Distinct(cfg[a]) && a !in cfg[a]
  {
    assert ValidPeers(cfg, a);
  }

  lemma QuorumOfOne(cfg: Config, a: nat, up: seq<nat>)
    requires Quorum(cfg, a, up)
    ensures up == [] ==> cfg[a] == []
  {
  }

  lemma AllPeersUp(cfg: Config, a: nat)
    requires ValidConfig(cfg) && a in cfg
    ensures Quorum(cfg, a, cfg[a])
  {
    PeersDistinct(cfg, a);
    assert ValidPeers(cfg, a);
  }

  lemma EndOfRun(cfg: Config, acts: seq<Action>, a: nat)
    requires a in cfg
    ensures NodeAt(cfg, acts, |acts|, a) == Run(cfg, acts).servers[a].node
    ensures ServerAt(cfg, acts, |acts|, a) == Run(cfg, acts).servers[a]
  {
    assert acts[..|acts|] == acts;
  }

  // --- Standing for election ------------------------------------------------------------------

  /** A candidate with these votes, whose deadline is after `now`. */
  ghost predicate CandidateSo(n: Node, t: nat, log: seq<Entry>, votes: set<nat>, now: nat) {
    && n.role == Candidate && n.currentTerm == t && n.log == log
    && n.vol.votes == votes && n.vol.electionDue.At? && n.vol.electionDue.ms > now
  }

  /** A server that will vote for a candidate of term `t` with this log. */
  ghost predicate Voter(n: Node, t: nat, log: seq<Entry>) {
    n.currentTerm < t && UpToDate(LastTerm(log), |log|, n.log)
  }

  ghost predicate Joined(n: Node, t: nat) { n.role == Follower && n.currentTerm == t }

  /** `a` stands for election in term `t` and at `now` has the votes of the first `k` servers of `up`,
      whose logs are still what they were in `c0`. */
  ghost predicate Standing(cfg: Config, c0: Cluster, c: Cluster, a: nat, up: seq<nat>, t: nat, log: seq<Entry>, k: nat,
                           now: nat)
    requires Others(cfg, a, up)
  {
    && c.servers.Keys == c0.servers.Keys == cfg.Keys && k <= |up|
    && CandidateSo(c.servers[a].node, t, log, Members(up[..k]), now)
    && (forall i | 0 <= i < |up| ::
          if i < k then Joined(c.servers[up[i]].node, t) else Voter(c.servers[up[i]].node, t, log))
    && (forall i | 0 <= i < |up| :: c.servers[up[i]].node.log == c0.servers[up[i]].node.log)
    && (forall i | 0 <= i < |up| :: VoteRequest(a, up[i], t, log) in c.net)
  }

  lemma {:induction false} VotesReach(id: nat, peers: seq<nat>, n: Node, p: nat, now: nat)
    requires n.vol.rpcDue == map[] && Distinct(peers)
    ensures var r := CandidateTimeout(id, peers, n, now);
            && r.node == n.(vol := n.vol.(rpcDue := r.node.vol.rpcDue))
            && (forall q | q in r.node.vol.rpcDue :: q in peers)
            && (p in peers ==> CreateVote(id, n, p) in r.sent)
  {
    if peers != [] {
      var k := |peers| - 1;
      VotesReach(id, peers[..k], n, p, now);
      assert peers[k] !in peers[..k];
      assert peers == peers[..k] + [peers[k]];
    }
  }

  /** A server that does not lead stands when its deadline has come, and asks every peer. */
  lemma CandidateTimeoutAt(a: nat, peers: seq<nat>, n: Node, now: nat, p: nat)
    requires peers != [] && Distinct(peers) && n.role != Leader && Due(n.vol.electionDue, now)
    ensures var r := ProcessTimeout(a, peers, n, Now(now));
            && CandidateSo(r.node, n.currentTerm + 1, n.log, {}, now)
            && (p in peers ==> VoteRequest(a, p, n.currentTerm + 1, n.log) in r.sent)
  {
    hide CandidateTimeout;
    VotesReach(a, peers, StartElection(a, peers, n, now, 0), p, now);
  }

  /** A reading at which the deadline of a server that does not lead has come. */
  lemma DeadlineOf(cfg: Config, acts: seq<Action>, a: nat) returns (now: nat)
    requires ValidConfig(cfg) && a in cfg && Run(cfg, acts).servers[a].node.role != Leader
    ensures Due(Run(cfg, acts).servers[a].node.vol.electionDue, now) && now >= Clock(acts)
  {
    hide ValidConfig, Run;
    EndOfRun(cfg, acts, a);
    DeadlineIffNotLeader(cfg, acts, |acts|, a);
    now := Max(Clock(acts), Run(cfg, acts).servers[a].node.vol.electionDue.ms);
  }

  /** Such a server can be brought to any higher term, alone, its log untouched. */
  lemma {:induction false} RaiseTerm(cfg: Config, acts: seq<Action>, a: nat, t: nat) returns (acts': seq<Action>)
    requires ValidConfig(cfg) && a in cfg && cfg[a] != [] && Run(cfg, acts).servers[a].node.role != Leader
    ensures Unfolds(acts, acts') && Only(Run(cfg, acts), Run(cfg, acts'), a, [])
    ensures var n, n' := Run(cfg, acts).servers[a].node, Run(cfg, acts').servers[a].node;
            n'.role != Leader && n'.currentTerm >= t && n'.currentTerm >= n.currentTerm && n'.log == n.log
    decreases t - Run(cfg, acts).servers[a].node.currentTerm
  {
    hide ValidConfig, Run, Next, ProcessTimeout, AppStep, Unfolds, Clock;
    var n := Run(cfg, acts).servers[a].node;
    if n.currentTerm >= t {
      acts' := acts;
      UnfoldsRefl(acts);
    } else {
      var now := DeadlineOf(cfg, acts, a);
      var act := Timeout(a, Now(now));
      UnfoldsSnoc(acts, act);
      PeersDistinct(cfg, a);
      NextDoes(cfg, Run(cfg, acts), act);
      CandidateTimeoutAt(a, cfg[a], n, now, a);
      RunSnoc(cfg, acts, act);
      acts' := RaiseTerm(cfg, acts + [act], a, t);
      UnfoldsTrans(acts, acts + [act], acts');
    }
  }

  /** It stands for election in the next term. */
  lemma Stand(cfg: Config, c: Cluster, a: nat, up: seq<nat>, now: nat)
    requires Others(cfg, a, up) && up != [] && c.servers.Keys == cfg.Keys
    requires c.servers[a].node.role != Leader && Due(c.servers[a].node.vol.electionDue, now)
    requires forall i | 0 <= i < |up| ::
               Voter(c.servers[up[i]].node, c.servers[a].node.currentTerm + 1, c.servers[a].node.log)
    ensures var c', n := Next(cfg, c, Timeout(a, Now(now))), c.servers[a].node;
            Standing(cfg, c, c', a, up, n.currentTerm + 1, n.log, 0, now) && Only(c, c', a, up)
  {
    hide ProcessTimeout, CandidateSo, ValidConfig, Next, AppStep, Voter, Distinct;
    var act := Timeout(a, Now(now));
    NextDoes(cfg, c, act);
    UpIsOther(cfg, a, up, 0);
    PeersDistinct(cfg, a);
    var n := c.servers[a].node;
    CandidateTimeoutAt(a, cfg[a], n, now, a);
    forall i | 0 <= i < |up| ensures VoteRequest(a, up[i], n.currentTerm + 1, n.log) in Next(cfg, c, act).net {
      UpIsOther(cfg, a, up, i);
      CandidateTimeoutAt(a, cfg[a], n, now, up[i]);
    }
    assert Members(up[..0]) == {};
  }

  // --- Votes ----------------------------------------------------------------------------------

  lemma Grant(a: nat, p: nat, peers: seq<nat>, n: Node, t: nat, log: seq<Entry>, tick: Tick)
    requires Voter(n, t, log)
    ensures var r := Process(p, peers, n, VoteRequest(a, p, t, log), tick);
            Joined(r.node, t) && r.node.log == n.log && r.sent == [Vote(p, a, t, true)]
  {
  }

  lemma CountVote(a: nat, p: nat, peers: seq<nat>, n: Node, t: nat, log: seq<Entry>, votes: set<nat>, now: nat, tick: Tick)
    requires CandidateSo(n, t, log, votes, now)
    ensures CandidateSo(Process(a, peers, n, Vote(p, a, t, true), tick).node, t, log, votes + {p}, now)
  {
  }

  /** A voter grants its vote and the candidate counts it. */
  lemma VoteArrives(cfg: Config, c: Cluster, a: nat, p: nat, t: nat, log: seq<Entry>, votes: set<nat>, now: nat,
                    tick: Tick, tick': Tick)
    requires a in cfg && p in cfg && p != a && c.servers.Keys == cfg.Keys
    requires CandidateSo(c.servers[a].node, t, log, votes, now) && Voter(c.servers[p].node, t, log)
    requires VoteRequest(a, p, t, log) in c.net
    ensures var c1 := Next(cfg, c, Deliver(VoteRequest(a, p, t, log), tick));
            var c2 := Next(cfg, c1, Deliver(Vote(p, a, t, true), tick'));
            && c2.servers.Keys == cfg.Keys && c.net <= c2.net
            && (forall s | s in cfg && s != a && s != p :: c2.servers[s] == c.servers[s])
            && CandidateSo(c2.servers[a].node, t, log, votes + {p}, now)
            && Joined(c2.servers[p].node, t) && c2.servers[p].node.log == c.servers[p].node.log
  {
    hide Process, CandidateSo, Joined, Voter, Next, AppStep;
    var request, vote := Deliver(VoteRequest(a, p, t, log), tick), Deliver(Vote(p, a, t, true), tick');
    NextDoes(cfg, c, request);
    Grant(a, p, cfg[p], c.servers[p].node, t, log, tick);
    var c1 := Next(cfg, c, request);
    NextDoes(cfg, c1, vote);
    CountVote(a, p, cfg[a], c.servers[a].node, t, log, votes, now, tick');
  }

  /** The next server of `up` votes and its vote arrives. */
  lemma OneVote(cfg: Config, c0: Cluster, c: Cluster, a: nat, up: seq<nat>, t: nat, log: seq<Entry>, k: nat, now: nat,
                tick: Tick, tick': Tick)
    requires Others(cfg, a, up) && k < |up| && Standing(cfg, c0, c, a, up, t, log, k, now)
    ensures var c1 := Next(cfg, c, Deliver(VoteRequest(a, up[k], t, log), tick));
            var c2 := Next(cfg, c1, Deliver(Vote(up[k], a, t, true), tick'));
            Standing(cfg, c0, c2, a, up, t, log, k + 1, now) && Only(c, c2, a, up)
  {
    hide CandidateSo, Joined, Voter, ValidConfig, Next;
    VoteArrives(cfg, c, a, up[k], t, log, Members(up[..k]), now, tick, tick');
    assert Members(up[..k + 1]) == Members(up[..k]) + {up[k]} by { assert up[..k + 1] == up[..k] + [up[k]]; }
  }

  lemma {:induction false} CollectVotes(cfg: Config, c0: Cluster, acts: seq<Action>, a: nat, up: seq<nat>, t: nat,
                                        log: seq<Entry>, k: nat, now: nat)
    returns (acts': seq<Action>)
    requires Others(cfg, a, up) && k <= |up| && Standing(cfg, c0, Run(cfg, acts), a, up, t, log, k, now)
    requires Clock(acts) == now
    ensures Standing(cfg, c0, Run(cfg, acts'), a, up, t, log, |up|, now) && Clock(acts') == now
    ensures Unfolds(acts, acts') && Only(Run(cfg, acts), Run(cfg, acts'), a, up)
    decreases |up| - k
  {
    hide Others, Standing, Run, Next, Unfolds, Clock;
    if k == |up| {
      acts' := acts;
      UnfoldsRefl(acts);
    } else {
      var request := Deliver(VoteRequest(a, up[k], t, log), Now(now));
      var vote := Deliver(Vote(up[k], a, t, true), Now(now));
      OneVote(cfg, c0, Run(cfg, acts), a, up, t, log, k, now, Now(now), Now(now));
      UnfoldsTwice(acts, request, vote);
      RunSnoc(cfg, acts, request);
      RunSnoc(cfg, acts + [request], vote);
      acts' := CollectVotes(cfg, c0, acts + [request] + [vote], a, up, t, log, k + 1, now);
      UnfoldsTrans(acts, acts + [request] + [vote], acts');
    }
  }

  lemma UnfoldsTwice(acts: seq<Action>, act: Action, act': Action)
    requires Timed(act) && Timed(act') && Clock(acts) <= act.tick.now <= act'.tick.now
    ensures Unfolds(acts, acts + [act] + [act']) && Clock(acts + [act] + [act']) == act'.tick.now
  {
    hide Unfolds, Clock;
    UnfoldsSnoc(acts, act);
    UnfoldsSnoc(acts + [act], act');
    UnfoldsTrans(acts, acts + [act], acts + [act] + [act']);
  }

  // --- Victory --------------------------------------------------------------------------------

  /** `a` leads with the log it had and its own empty entry on top; the servers in `up` follow it in
      its term and have the logs they had. */
  ghost predicate Elected(c: Cluster, c': Cluster, a: nat, up: seq<nat>)
    requires a in c.servers && a in c'.servers && forall p | p in up :: p in c.servers && p in c'.servers
  {
    var n, n' := c.servers[a].node, c'.servers[a].node;
    && n'.role == Leader && n'.currentTerm > n.currentTerm && n'.log == n.log + [Entry(n'.currentTerm, STUB, [])]
    && forall p | p in up ::
         Joined(c'.servers[p].node, n'.currentTerm) && c'.servers[p].node.log == c.servers[p].node.log
  }

  lemma LeaderTimeoutKeeps(a: nat, peers: seq<nat>, n: Node, now: nat)
    ensures var r := LeaderTimeout(a, peers, n, now).node;
            r.role == n.role && r.currentTerm == n.currentTerm && r.log == n.log
  {
    hide Heartbeats, QuorumIndex;
  }

  /** A candidate with enough votes leads at its next timeout. */
  lemma Victory(a: nat, peers: seq<nat>, s: Node, t: nat, log: seq<Entry>, votes: set<nat>, now: nat)
    requires CandidateSo(s, t, log, votes, now) && |votes| + 1 >= MinVotes(|peers|)
    ensures var r := ProcessTimeout(a, peers, s, Now(now)).node;
            r.role == Leader && r.currentTerm == t && r.log == log + [Entry(t, STUB, [])]
  {
    hide LeaderTimeout, CandidateTimeout;
    LeaderTimeoutKeeps(a, peers, BecomeLeader(peers, s), now);
  }

  /** The only server of a cluster wins as soon as it stands. */
  lemma VictoryAlone(a: nat, n: Node, now: nat)
    requires n.role != Leader && Due(n.vol.electionDue, now)
    ensures var r := ProcessTimeout(a, [], n, Now(now)).node;
            r.role == Leader && r.currentTerm == n.currentTerm + 1
            && r.log == n.log + [Entry(n.currentTerm + 1, STUB, [])]
  {
    hide LeaderTimeout, CandidateTimeout;
    LeaderTimeoutKeeps(a, [], BecomeLeader([], StartElection(a, [], n, now, 0)), now);
  }

  lemma StandingDone(cfg: Config, c0: Cluster, c: Cluster, a: nat, up: seq<nat>, t: nat, log: seq<Entry>, now: nat)
    requires Others(cfg, a, up) && Standing(cfg, c0, c, a, up, t, log, |up|, now)
    ensures c.servers.Keys == c0.servers.Keys == cfg.Keys && CandidateSo(c.servers[a].node, t, log, Members(up), now)
    ensures forall p | p in up :: Joined(c.servers[p].node, t) && c.servers[p].node.log == c0.servers[p].node.log
  {
    assert up[..|up|] == up;
    forall p | p in up ensures Joined(c.servers[p].node, t) && c.servers[p].node.log == c0.servers[p].node.log {
      var i :| 0 <= i < |up| && up[i] == p;
      assert Joined(c.servers[up[i]].node, t);
    }
  }

  /** A server with enough votes takes over. */
  lemma TakeOver(cfg: Config, c0: Cluster, c: Cluster, a: nat, up: seq<nat>, t: nat, now: nat)
    requires Quorum(cfg, a, up) && a in c0.servers && t > c0.servers[a].node.currentTerm
    requires Standing(cfg, c0, c, a, up, t, c0.servers[a].node.log, |up|, now)
    ensures var c' := Next(cfg, c, Timeout(a, Now(now)));
            && c'.servers.Keys == cfg.Keys && Elected(c0, c', a, up) && Only(c, c', a, up)
  {
    hide ProcessTimeout, ValidConfig, Next, MinVotes, Standing, CandidateSo, AppStep, Distinct;
    var log := c0.servers[a].node.log;
    StandingDone(cfg, c0, c, a, up, t, log, now);
    DistinctSize(up);
    Victory(a, cfg[a], c.servers[a].node, t, log, Members(up), now);
    NextDoes(cfg, c, Timeout(a, Now(now)));
  }

  /** The largest term among some servers. */
  lemma {:induction false} TermBound(c: Cluster, up: seq<nat>) returns (t: nat)
    requires forall p | p in up :: p in c.servers
    ensures forall p | p in up :: c.servers[p].node.currentTerm <= t
  {
    if up == [] {
      t := 0;
    } else {
      var n := |up| - 1;
      assert up == up[..n] + [up[n]];
      t := TermBound(c, up[..n]);
      t := Max(t, c.servers[up[n]].node.currentTerm);
    }
  }

  /** Once its term is the highest. */
  lemma WinNow(cfg: Config, acts: seq<Action>, a: nat, up: seq<nat>) returns (acts': seq<Action>)
    requires Quorum(cfg, a, up) && up != [] && Run(cfg, acts).servers[a].node.role != Leader
    requires var c := Run(cfg, acts);
             forall p | p in up :: Voter(c.servers[p].node, c.servers[a].node.currentTerm + 1, c.servers[a].node.log)
    ensures Unfolds(acts, acts') && Only(Run(cfg, acts), Run(cfg, acts'), a, up)
    ensures Elected(Run(cfg, acts), Run(cfg, acts'), a, up)
  {
    hide ValidConfig, Run, Next, Standing, Distinct, MinVotes, Voter, Elected, Only, Unfolds, Clock;
    var c := Run(cfg, acts);
    var n := c.servers[a].node;
    var t := n.currentTerm + 1;
    var now := DeadlineOf(cfg, acts, a);
    var act := Timeout(a, Now(now));
    Stand(cfg, c, a, up, now);
    RunSnoc(cfg, acts, act);
    UnfoldsSnoc(acts, act);
    var voted := CollectVotes(cfg, c, acts + [act], a, up, t, n.log, 0, now);
    OnlyTrans(c, Run(cfg, acts + [act]), Run(cfg, voted), a, up);
    TakeOver(cfg, c, Run(cfg, voted), a, up, t, now);
    RunSnoc(cfg, voted, act);
    UnfoldsSnoc(voted, act);
    acts' := voted + [act];
    UnfoldsTrans(acts, acts + [act], voted);
    UnfoldsTrans(acts, voted, acts');
    OnlyTrans(c, Run(cfg, voted), Run(cfg, acts'), a, up);
  }

  lemma ElectedEarlier(c: Cluster, c1: Cluster, c': Cluster, a: nat, up: seq<nat>)
    requires a in c.servers && a in c'.servers && forall p | p in up :: p in c.servers && p in c'.servers && p != a
    requires Only(c, c1, a, []) && Elected(c1, c', a, up)
    requires c1.servers[a].node.log == c.servers[a].node.log
    requires c1.servers[a].node.currentTerm >= c.servers[a].node.currentTerm
    ensures Elected(c, c', a, up)
  {
  }

  /** From any reachable state a server that does not lead wins an election with the votes of `up`,
      if its log is at least as up to date as theirs. */
  lemma WinElection(cfg: Config, acts: seq<Action>, a: nat, up: seq<nat>) returns (acts': seq<Action>)
    requires Quorum(cfg, a, up) && Run(cfg, acts).servers[a].node.role != Leader
    requires var c := Run(cfg, acts);
             forall p | p in up ::
               UpToDate(LastTerm(c.servers[a].node.log), |c.servers[a].node.log|, c.servers[p].node.log)
    ensures Unfolds(acts, acts') && Only(Run(cfg, acts), Run(cfg, acts'), a, up)
    ensures Elected(Run(cfg, acts), Run(cfg, acts'), a, up)
  {
    hide ValidConfig, Run, Next, Standing, ProcessTimeout, Distinct, MinVotes, UpToDate, AppStep, Elected, Unfolds, Clock;
    var c := Run(cfg, acts);
    QuorumOfOne(cfg, a, up);
    if up == [] {
      var now := DeadlineOf(cfg, acts, a);
      var act := Timeout(a, Now(now));
      UnfoldsSnoc(acts, act);
      NextDoes(cfg, c, act);
      VictoryAlone(a, c.servers[a].node, now);
      RunSnoc(cfg, acts, act);
      acts' := acts + [act];
      assert Elected(c, Run(cfg, acts'), a, up) by { ElectedAlone(c, Run(cfg, acts'), a); }
    } else {
      UpIsOther(cfg, a, up, 0);
      var t := TermBound(c, up);
      var raised := RaiseTerm(cfg, acts, a, t);
      OnlyWider(c, Run(cfg, raised), a, [], up);
      RaisedVoters(c, Run(cfg, raised), a, up, t);
      acts' := WinNow(cfg, raised, a, up);
      UnfoldsTrans(acts, raised, acts');
      OnlyTrans(c, Run(cfg, raised), Run(cfg, acts'), a, up);
      ElectedEarlier(c, Run(cfg, raised), Run(cfg, acts'), a, up);
    }
  }

  lemma RaisedVoters(c: Cluster, c1: Cluster, a: nat, up: seq<nat>, t: nat)
    requires a in c.servers && forall p | p in up :: p in c.servers && p != a
    requires Only(c, c1, a, []) && c1.servers[a].node.log == c.servers[a].node.log
    requires c1.servers[a].node.currentTerm >= t && forall p | p in up :: c.servers[p].node.currentTerm <= t
    requires forall p | p in up ::
               UpToDate(LastTerm(c.servers[a].node.log), |c.servers[a].node.log|, c.servers[p].node.log)
    ensures forall p | p in up ::
              Voter(c1.servers[p].node, c1.servers[a].node.currentTerm + 1, c1.servers[a].node.log)
  {
    hide UpToDate;
  }

  lemma ElectedAlone(c: Cluster, c': Cluster, a: nat)
    requires a in c.servers && a in c'.servers
    requires var n, n' := c.servers[a].node, c'.servers[a].node;
             n'.role == Leader && n'.currentTerm > n.currentTerm && n'.log == n.log + [Entry(n'.currentTerm, STUB, [])]
    ensures Elected(c, c', a, [])
  {
  }
}
