/** Requests for a vote and their answers: who grants, what a refused candidate learns. */
module Voting {
  import opened Messages
  import opened Protocol
  import opened Cluster
  import opened Clocks
  import opened Elections

  /** The rule of sections 5.2 and 5.4.1 of the Raft paper for a server in state `n`: the request is of
      no earlier term, the server has not voted for anybody else in that term, and the candidate's log
      is at least as up to date as its own. */
  predicate Grants(n: Node, m: Message)
    requires m.RequestVote?
  {
    && m.term >= n.currentTerm
    && (m.term > n.currentTerm || n.votedFor == 0 || n.votedFor == m.candidateId)
    && UpToDate(m.lastLogTerm, m.lastLogIndex, n.log)
  }

  /** Every request for a vote is answered by exactly one message: to its sender, in the term the server
      then has, granted exactly by the rule. */
  lemma EveryRequestAnswered(id: nat, peers: seq<nat>, n: Node, m: Message, t: Tick)
    requires m.RequestVote?
    ensures var r := Process(id, peers, n, m, t);
            && r.node.currentTerm == Max(n.currentTerm, m.term) && r.node.log == n.log
            && r.sent == [Vote(id, m.src, r.node.currentTerm, Grants(n, m))]
            && (Grants(n, m) ==> r.node.votedFor == m.candidateId)
            && (!Grants(n, m) && m.term <= n.currentTerm ==> r.node == n)
  {
  }

  /** A request that was granted is granted again when it is repeated. */
  lemma GrantedAgain(id: nat, peers: seq<nat>, n: Node, m: Message, t: Tick, t': Tick)
    requires m.RequestVote? && Grants(n, m)
    ensures var n' := Process(id, peers, n, m, t).node;
            Grants(n', m) && Process(id, peers, n', m, t').sent == Process(id, peers, n, m, t).sent
  {
    hide UpToDate;
    EveryRequestAnswered(id, peers, n, m, t);
    EveryRequestAnswered(id, peers, Process(id, peers, n, m, t).node, m, t');
  }

  /** A refusal of a later term ends a candidacy, or a leadership. */
  lemma RefusalTeaches(id: nat, peers: seq<nat>, n: Node, m: Message, t: Tick)
    requires m.Vote? && m.term > n.currentTerm
    ensures var r := Process(id, peers, n, m, t);
            && r.node.role == Follower && r.node.currentTerm == m.term && r.node.votedFor == 0
            && r.node.log == n.log && r.sent == []
  {
  }

  /** The replies a server waits for: votes while it stands, and answers to its requests while it leads,
      of its own term. */
  predicate Awaited(n: Node, m: Message) {
    m.term == n.currentTerm && ((m.Vote? && m.granted && n.role == Candidate) || (m.Appended? && n.role == Leader))
  }

  /** Any other reply of no later term, late, stray or repeated, changes nothing at all. */
  lemma StrayReplyIgnored(id: nat, peers: seq<nat>, n: Node, m: Message, t: Tick)
    requires (m.Vote? || m.Appended?) && m.term <= n.currentTerm && !Awaited(n, m)
    ensures Process(id, peers, n, m, t) == Step(n, [])
  {
  }

  /** A candidate whose request reaches a server in a later term learns that term from the reply and
      becomes its follower, log unchanged; nobody else is changed. */
  lemma CandidateLearns(cfg: Config, acts: seq<Action>, a: nat, p: nat, m: Message) returns (acts': seq<Action>)
    requires a in cfg && p in cfg && a != p && m.RequestVote? && m.src == a && m.dst == p && m in Run(cfg, acts).net
    requires m.term == Run(cfg, acts).servers[a].node.currentTerm < Run(cfg, acts).servers[p].node.currentTerm
    ensures Unfolds(acts, acts') && Only(Run(cfg, acts), Run(cfg, acts'), a, [])
    ensures var n, n' := Run(cfg, acts).servers[a].node, Run(cfg, acts').servers[a].node;
            n'.role == Follower && n'.currentTerm == Run(cfg, acts).servers[p].node.currentTerm && n'.log == n.log
  {
    hide Run, Next, Process, Unfolds, Clock, AppStep;
    var c, now := Run(cfg, acts), Clock(acts);
    var f := c.servers[p].node;
    var request, reply := Deliver(m, Now(now)), Deliver(Vote(p, a, f.currentTerm, false), Now(now));
    EveryRequestAnswered(p, cfg[p], f, m, Now(now));
    NextDoes(cfg, c, request);
    RefusalTeaches(a, cfg[a], c.servers[a].node, reply.m, Now(now));
    NextDoes(cfg, Next(cfg, c, request), reply);
    AppUntouched(c, request);
    RunSnoc(cfg, acts, request);
    RunSnoc(cfg, acts + [request], reply);
    UnfoldsTwice(acts, request, reply);
    acts' := acts + [request] + [reply];
  }

  lemma AppUntouched(c: Cluster, act: Action)
    requires Target(act) in c.servers && Timed(act)
    ensures AppStep(c, act) == c.servers[Target(act)].app
  {
  }
}
