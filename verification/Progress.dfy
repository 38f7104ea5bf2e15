/** The protocol is not only safe: from every reachable state, with the help of any vote quorum and
    while the remaining servers stay silent, a leader is found and a new command committed. */
module Progress {
  import opened Messages
  import opened Log
  import opened Protocol
  import opened Commit
  import opened Cluster
  import opened Clocks
  import opened Preserve
  import opened Durable
  import opened Elections
  import opened CatchUp
  import opened Exchanges
  import opened Sending
  import opened Copying

  // --- From the start -------------------------------------------------------------------------

  lemma StartingQuorum(cfg: Config, a: nat, up: seq<nat>)
    requires Quorum(cfg, a, up)
    ensures var c := Run(cfg, []);
            && c.servers[a].node.role != Leader && c.servers[a].node.log == []
            && forall p | p in up :: UpToDate(0, 0, c.servers[p].node.log)
  {
  }

  lemma ElectedLeads(cfg: Config, c: Cluster, c': Cluster, a: nat, up: seq<nat>)
    requires Quorum(cfg, a, up) && c.servers.Keys == c'.servers.Keys == cfg.Keys && Elected(c, c', a, up)
    ensures LeadsAll(cfg, c', a, up, 0)
  {
    forall i | 0 <= i < |up| ensures Leads(cfg, c', a, up[i]) { assert up[i] in up; }
  }

  /** A leader with an entry of its own term at the end brings its quorum up to date and commits. */
  lemma LeaderCommits(cfg: Config, acts: seq<Action>, a: nat, up: seq<nat>) returns (acts': seq<Action>)
    requires Quorum(cfg, a, up) && LeadsAll(cfg, Run(cfg, acts), a, up, 0)
    requires var n := Run(cfg, acts).servers[a].node; n.log != [] && LastTerm(n.log) == n.currentTerm
    ensures Unfolds(acts, acts') && Only(Run(cfg, acts), Run(cfg, acts'), a, up)
    ensures var n, n' := Run(cfg, acts).servers[a].node, Run(cfg, acts').servers[a].node;
            n'.role == Leader && n'.currentTerm == n.currentTerm && n'.log == n.log && n'.vol.commitIndex == |n.log|
    ensures LeadsAll(cfg, Run(cfg, acts'), a, up, |up|)
  {
    hide ValidConfig, Run, Distinct, MinVotes, CaughtUp, Only, TermsAscend, Unfolds;
    ReachableLogAscends(cfg, acts, a);
    TermsWithin(cfg, acts, a);
    var caught := CatchUpAll(cfg, acts, a, up, 0);
    acts' := CommitAll(cfg, caught, a, up);
    UnfoldsTrans(acts, caught, acts');
    OnlyTrans(Run(cfg, acts), Run(cfg, caught), Run(cfg, acts'), a, up);
  }

  function Stub(t: nat): Entry { Entry(t, STUB, []) }

  /** The log of the first leader once it was given these commands in its term. */
  function LogWith(t: nat, cmds: seq<seq<byte>>): seq<Entry> {
    if cmds == [] then [Stub(t)] else LogWith(t, cmds[..|cmds| - 1]) + [Entry(t, 0, cmds[|cmds| - 1])]
  }

  function Entries(t: nat, cmds: seq<seq<byte>>): seq<Entry> {
    seq(|cmds|, i requires 0 <= i < |cmds| => Entry(t, 0, cmds[i]))
  }

  lemma {:induction false} CommandsOnly(t: nat, cmds: seq<seq<byte>>)
    ensures NonStub(LogWith(t, cmds)) == Entries(t, cmds)
  {
    if cmds == [] {
      assert [Stub(t)][..0] == [];
    } else {
      var n := |cmds| - 1;
      CommandsOnly(t, cmds[..n]);
      EntriesSnoc(t, cmds);
      NonStubSnoc(LogWith(t, cmds[..n]), Entry(t, 0, cmds[n]));
      hide NonStub, Entries;
    }
  }

  lemma NonStubSnoc(log: seq<Entry>, e: Entry)
    requires e.flags != STUB
    ensures NonStub(log + [e]) == NonStub(log) + [e]
  {
    assert (log + [e])[..|log|] == log;
  }

  lemma EntriesSnoc(t: nat, cmds: seq<seq<byte>>)
    requires cmds != []
    ensures Entries(t, cmds) == Entries(t, cmds[..|cmds| - 1]) + [Entry(t, 0, cmds[|cmds| - 1])]
  {
  }

  lemma {:induction false} CommandsCopied(cfg: Config, a: nat, up: seq<nat>, cmds: seq<seq<byte>>)
    returns (acts: seq<Action>)
    requires Quorum(cfg, a, up)
    ensures Steady(acts) && NoReads(acts)
    ensures var n := Run(cfg, acts).servers[a].node;
            n.role == Leader && n.log == LogWith(n.currentTerm, cmds) && n.vol.commitIndex == |n.log|
    ensures LeadsAll(cfg, Run(cfg, acts), a, up, |up|)
    decreases |cmds|
  {
    hide Run, ValidConfig, Distinct, MinVotes, CaughtUp, Only, Leads, UpToDate, Quorum, Steady, NoReads, Unfolds;
    if cmds == [] {
      StartingQuorum(cfg, a, up);
      acts := WinElection(cfg, [], a, up);
      NothingYet();
      ThenUnfolds([], acts);
      ElectedLeads(cfg, Run(cfg, []), Run(cfg, acts), a, up);
      assert [] + [Stub(Run(cfg, acts).servers[a].node.currentTerm)] == [Stub(Run(cfg, acts).servers[a].node.currentTerm)];
      var led := acts;
      acts := LeaderCommits(cfg, led, a, up);
      ThenUnfolds(led, acts);
    } else {
      var before := CommandsCopied(cfg, a, up, cmds[..|cmds| - 1]);
      var act := Command(a, cmds[|cmds| - 1]);
      LeadsAllAnew(cfg, Run(cfg, before), a, up);
      acts := CommitCommand(cfg, before, a, up, cmds[|cmds| - 1]);
      ThenAct(before, act);
      ThenUnfolds(before + [act], acts);
    }
  }

  /** Nobody asked for a consistent read and nobody restarted. */
  ghost predicate NoReads(acts: seq<Action>) {
    forall x | 0 <= x < |acts| :: !acts[x].Read? && !acts[x].Restart?
  }

  lemma NothingYet()
    ensures Steady([]) && NoReads([])
  {
  }

  lemma ThenUnfolds(acts: seq<Action>, acts': seq<Action>)
    requires Steady(acts) && NoReads(acts) && Unfolds(acts, acts')
    ensures Steady(acts') && NoReads(acts')
  {
    hide Steady;
    forall x | 0 <= x < |acts'| ensures !acts'[x].Read? && !acts'[x].Restart? {
      if x < |acts| { assert acts'[x] == acts[x]; }
    }
  }

  lemma ThenAct(acts: seq<Action>, act: Action)
    requires Steady(acts) && NoReads(acts) && (act.Command? || act.Commit?)
    ensures Steady(acts + [act]) && NoReads(acts + [act])
  {
    SteadySnoc(acts, act);
  }

  lemma LeadsAllAnew(cfg: Config, c: Cluster, a: nat, up: seq<nat>)
    requires LeadsAll(cfg, c, a, up, |up|)
    ensures LeadsAll(cfg, c, a, up, 0)
  {
  }

  // --- Applying -------------------------------------------------------------------------------

  /** After ProcessCommitted an application that has everything committed has the whole log's commands. */
  lemma CommitApplies(cfg: Config, acts: seq<Action>, a: nat)
    requires ValidConfig(cfg) && a in cfg
    requires var n := Run(cfg, acts).servers[a].node; n.vol.commitIndex == |n.log|
    ensures var c, c' := Run(cfg, acts), Run(cfg, acts + [Commit(a)]);
            && c'.servers.Keys == c.servers.Keys && c'.servers[a].node == c.servers[a].node
            && c'.servers[a].app.lastApplied == c.servers[a].node.vol.commitIndex
            && c'.servers[a].app.applied == NonStub(c.servers[a].node.log)
            && (forall s | s in cfg && s != a :: c'.servers[s] == c.servers[s])
            && c.net <= c'.net
  {
    hide Run, NonStub, ValidConfig;
    var c, acts' := Run(cfg, acts), acts + [Commit(a)];
    RunSnoc(cfg, acts, Commit(a));
    CommitStep(cfg, c, a);
    EndOfRun(cfg, acts', a);
    AppliedExactly(cfg, acts', |acts'|, a);
    var log := c.servers[a].node.log;
    assert log[..|log|] == log;
  }

  lemma CommitStep(cfg: Config, c: Cluster, a: nat)
    requires a in cfg && c.servers.Keys == cfg.Keys
    ensures var c' := Next(cfg, c, Commit(a));
            && c'.servers.Keys == cfg.Keys && c'.servers[a].node == c.servers[a].node && c.net <= c'.net
            && c'.servers[a].app.lastApplied == c.servers[a].node.vol.commitIndex
            && forall s | s in c.servers && s != a :: c'.servers[s] == c.servers[s]
  {
  }

  /** Followers that are up to date have the leader's log. */
  lemma UpHaveLog(cfg: Config, acts: seq<Action>, a: nat, up: seq<nat>)
    requires ValidConfig(cfg) && LeadsAll(cfg, Run(cfg, acts), a, up, |up|)
    requires var n := Run(cfg, acts).servers[a].node; n.log != [] && LastTerm(n.log) == n.currentTerm
    ensures forall p | p in up :: p in cfg && Run(cfg, acts).servers[p].node.log == Run(cfg, acts).servers[a].node.log
  {
    hide ValidConfig, Run, CaughtUp;
    forall p | p in up
      ensures p in cfg && Run(cfg, acts).servers[p].node.log == Run(cfg, acts).servers[a].node.log
    {
      var i :| 0 <= i < |up| && up[i] == p;
      assert Leads(cfg, Run(cfg, acts), a, up[i]);
      SameLogs(cfg, acts, a, p);
    }
  }

  lemma LogWithEnds(t: nat, cmds: seq<seq<byte>>)
    ensures LogWith(t, cmds) != [] && LastTerm(LogWith(t, cmds)) == t
  {
  }

  /** In every configuration, any server together with any servers that make up a vote quorum with
      it can be elected, take any sequence of client commands, commit them all on that quorum and
      hand them to its application, whatever the other servers do not do. */
  lemma AnyQuorumCommits(cfg: Config, a: nat, up: seq<nat>, cmds: seq<seq<byte>>) returns (acts: seq<Action>)
    requires Quorum(cfg, a, up)
    ensures Steady(acts) && NoReads(acts) && LeadsAll(cfg, Run(cfg, acts), a, up, |up|)
    ensures var servers := Run(cfg, acts).servers;
            var n := servers[a].node;
            && n.log == LogWith(n.currentTerm, cmds) && n.vol.commitIndex == |n.log|
            && servers[a].app.applied == Entries(n.currentTerm, cmds) && servers[a].app.lastApplied == |n.log|
            && forall p | p in up :: p in cfg && servers[p].node.log == n.log
  {
    hide Run, NonStub, LogWith, ValidConfig, LeadsAll, Distinct, MinVotes, Steady, NoReads;
    var before := CommandsCopied(cfg, a, up, cmds);
    var t := Run(cfg, before).servers[a].node.currentTerm;
    LogWithEnds(t, cmds);
    CommandsOnly(t, cmds);
    CommitApplies(cfg, before, a);
    UpHaveLog(cfg, before, a, up);
    acts := before + [Commit(a)];
    ThenAct(before, Commit(a));
    AppliedLeads(cfg, Run(cfg, before), Run(cfg, acts), a, up);
  }

  lemma AppliedLeads(cfg: Config, c: Cluster, c': Cluster, a: nat, up: seq<nat>)
    requires a in cfg && LeadsAll(cfg, c, a, up, |up|) && c'.servers.Keys == c.servers.Keys
    requires c'.servers[a].node == c.servers[a].node && forall s | s in cfg && s != a :: c'.servers[s] == c.servers[s]
    ensures LeadsAll(cfg, c', a, up, |up|)
  {
    forall i | 0 <= i < |up| ensures Leads(cfg, c', a, up[i]) && CaughtUp(LinkOf(cfg, c', a, up[i])) {
      assert Leads(cfg, c, a, up[i]);
    }
  }

  // --- From any state -------------------------------------------------------------------------

  lemma UpToDateTotal(x: seq<Entry>, y: seq<Entry>)
    ensures UpToDate(LastTerm(x), |x|, y) || UpToDate(LastTerm(y), |y|, x)
    ensures UpToDate(LastTerm(x), |x|, x)
  {
  }

  lemma UpToDateTrans(x: seq<Entry>, y: seq<Entry>, z: seq<Entry>)
    requires UpToDate(LastTerm(x), |x|, y) && UpToDate(LastTerm(y), |y|, z)
    ensures UpToDate(LastTerm(x), |x|, z)
  {
  }

  /** Among some servers one has a log at least as up to date as all the others. */
  lemma {:induction false} BestLog(c: Cluster, q: seq<nat>) returns (k: nat)
    requires q != [] && forall p | p in q :: p in c.servers
    ensures k < |q| && forall p | p in q ::
              UpToDate(LastTerm(c.servers[q[k]].node.log), |c.servers[q[k]].node.log|, c.servers[p].node.log)
  {
    hide UpToDate;
    var n := |q| - 1;
    var last := c.servers[q[n]].node.log;
    assert q == q[..n] + [q[n]];
    UpToDateTotal(last, last);
    if n == 0 {
      k := 0;
    } else {
      k := BestLog(c, q[..n]);
      var best := c.servers[q[k]].node.log;
      UpToDateTotal(best, last);
      if !UpToDate(LastTerm(best), |best|, last) {
        forall p | p in q[..n] ensures UpToDate(LastTerm(last), |last|, c.servers[p].node.log) {
          UpToDateTrans(last, best, c.servers[p].node.log);
        }
        k := n;
      }
    }
  }

  lemma DistinctTail(s: seq<nat>)
    requires s != [] && Distinct(s)
    ensures Distinct(s[1..]) && s[0] !in s[1..]
  {
  }

  /** The other members of a vote quorum. */
  lemma OthersOf(cfg: Config, q: seq<nat>, k: nat) returns (up: seq<nat>)
    requires ValidConfig(cfg) && Distinct(q) && k < |q| && (forall p | p in q :: p in cfg)
    requires |q| >= MinVotes(|cfg| - 1)
    ensures Quorum(cfg, q[k], up) && forall p :: p in q <==> p == q[k] || p in up
  {
    hide MinVotes;
    up := q[..k] + q[k + 1..];
    PeerCount(cfg, q[k]);
    assert q == q[..k] + [q[k]] + q[k + 1..];
  }

  lemma HigherTermDeposes(a: nat, peers: seq<nat>, n: Node, reply: Message, t: Tick)
    requires reply.Appended? && reply.term > n.currentTerm
    ensures var n' := Process(a, peers, n, reply, t).node;
            n'.role == Follower && n'.currentTerm == reply.term && n'.log == n.log
  {
  }

  /** The refusal of a server in a later term deposes a leader that has sent to it. */
  lemma Deposed(cfg: Config, c: Cluster, c1: Cluster, a: nat, p: nat, seqno: nat, t: Tick)
    returns (request: Message, reply: Message)
    requires a in cfg && p in cfg && a != p && c.servers.Keys == c1.servers.Keys == cfg.Keys
    requires Offers(c, c1, a, p, seqno) && c.servers[p].node.currentTerm > c.servers[a].node.currentTerm
    ensures Only(c, AfterTwo(cfg, c1, request, reply, t), a, [])
    ensures var n' := AfterTwo(cfg, c1, request, reply, t).servers[a].node;
            && n'.role == Follower && n'.currentTerm == c.servers[p].node.currentTerm
            && n'.log == c.servers[a].node.log
  {
    hide Next, Process, RequestTo, AppStep;
    var n, f := c.servers[a].node, c.servers[p].node;
    request := RequestTo(a, n, p, seqno);
    RequestEnds(a, n, p, seqno);
    reply := Appended(p, a, f.currentTerm, seqno, 0, false);
    NextDoes(cfg, c1, Deliver(request, t));
    StaleRequestChangesNothing(p, cfg[p], f, request, t);
    assert AppStep(c1, Deliver(request, t)) == c1.servers[p].app by { DeliverKeepsApp(c1, request, t); }
    HigherTermDeposes(a, cfg[a], c1.servers[a].node, reply, t);
    NextDoes(cfg, Next(cfg, c1, Deliver(request, t)), Deliver(reply, t));
  }

  /** A leader whose heartbeat reaches a server in a later term steps down; nothing else changes. */
  lemma StepDown(cfg: Config, acts: seq<Action>, a: nat, p: nat) returns (acts': seq<Action>)
    requires ValidConfig(cfg) && a in cfg && p in cfg && a != p && Run(cfg, acts).servers[a].node.role == Leader
    requires Run(cfg, acts).servers[p].node.currentTerm > Run(cfg, acts).servers[a].node.currentTerm
    ensures Unfolds(acts, acts') && Only(Run(cfg, acts), Run(cfg, acts'), a, [])
    ensures var n' := Run(cfg, acts').servers[a].node;
            && n'.role == Follower && n'.currentTerm == Run(cfg, acts).servers[p].node.currentTerm
            && n'.log == Run(cfg, acts).servers[a].node.log
  {
    hide ValidConfig, Run, Next, Offers, Only, Unfolds, Clock, Distinct;
    PeerOf(cfg, a, p);
    PeersDistinct(cfg, a);
    var now := BeatTime(cfg, acts, a, p);
    var act := Timeout(a, Now(now));
    var seqno := DueSends(cfg, Run(cfg, acts), a, p, now);
    RunSnoc(cfg, acts, act);
    UnfoldsSnoc(acts, act);
    var sent := acts + [act];
    var request, reply := Deposed(cfg, Run(cfg, acts), Run(cfg, sent), a, p, seqno, Now(now));
    RunSnoc(cfg, sent, Deliver(request, Now(now)));
    RunSnoc(cfg, sent + [Deliver(request, Now(now))], Deliver(reply, Now(now)));
    UnfoldsTwice(sent, Deliver(request, Now(now)), Deliver(reply, Now(now)));
    acts' := sent + [Deliver(request, Now(now))] + [Deliver(reply, Now(now))];
    UnfoldsTrans(acts, sent, acts');
  }

  lemma DeliverKeepsApp(c: Cluster, m: Message, t: Tick)
    requires m.dst in c.servers
    ensures AppStep(c, Deliver(m, t)) == c.servers[m.dst].app
  {
  }

  /** What finding a leader leaves behind: `a` leads everyone in `up`, its log extends the one it had. */
  ghost predicate Found(cfg: Config, c: Cluster, c': Cluster, a: nat, up: seq<nat>)
    requires a in c.servers && a in c'.servers
  {
    LeadsAll(cfg, c', a, up, 0) && c.servers[a].node.log <= c'.servers[a].node.log
  }

  /** The server with the best log becomes the leader of its quorum, unless it is already. */
  lemma FindLeader(cfg: Config, acts: seq<Action>, a: nat, up: seq<nat>) returns (acts': seq<Action>)
    requires Quorum(cfg, a, up)
    requires var c := Run(cfg, acts);
             forall p | p in up ::
               UpToDate(LastTerm(c.servers[a].node.log), |c.servers[a].node.log|, c.servers[p].node.log)
    ensures Unfolds(acts, acts') && Only(Run(cfg, acts), Run(cfg, acts'), a, up)
    ensures Found(cfg, Run(cfg, acts), Run(cfg, acts'), a, up)
  {
    hide ValidConfig, Run, Distinct, MinVotes, UpToDate, LeadsAll, Only, Unfolds;
    var c := Run(cfg, acts);
    if c.servers[a].node.role != Leader {
      acts' := WinElection(cfg, acts, a, up);
      ElectedLeads(cfg, c, Run(cfg, acts'), a, up);
    } else if p :| p in up && c.servers[p].node.currentTerm > c.servers[a].node.currentTerm {
      var down := StepDown(cfg, acts, a, p);
      OnlyKeys(c, Run(cfg, down), a, []);
      acts' := WinElection(cfg, down, a, up);
      UnfoldsTrans(acts, down, acts');
      ElectedLeads(cfg, Run(cfg, down), Run(cfg, acts'), a, up);
      OnlyWider(c, Run(cfg, down), a, [], up);
      OnlyTrans(c, Run(cfg, down), Run(cfg, acts'), a, up);
    } else {
      acts' := acts;
      UnfoldsRefl(acts);
      OnlyRefl(c, a, up);
      LeadsAlready(cfg, c, a, up);
    }
  }

  lemma LeadsAlready(cfg: Config, c: Cluster, a: nat, up: seq<nat>)
    requires Quorum(cfg, a, up) && c.servers.Keys == cfg.Keys && c.servers[a].node.role == Leader
    requires forall p | p in up :: c.servers[p].node.currentTerm <= c.servers[a].node.currentTerm
    ensures LeadsAll(cfg, c, a, up, 0)
  {
    forall i | 0 <= i < |up| ensures Leads(cfg, c, a, up[i]) { assert up[i] in up; }
  }

  /** `acts` goes on to `acts'` by deliveries, timeouts, one command for `a` and its application. No client
      and no restart helps, and no clock goes back. */
  ghost predicate OneCommand(acts: seq<Action>, acts': seq<Action>, a: nat, data: seq<byte>) {
    && acts <= acts' && (Steady(acts) ==> Steady(acts'))
    && exists m: nat :: |acts| <= m < |acts'| - 1 && acts'[m] == Command(a, data) && acts'[|acts'| - 1] == Commit(a)
                        && forall x | |acts| <= x < |acts'| - 1 && x != m :: Timed(acts'[x])
  }

  lemma OneCommandDone(acts: seq<Action>, found: seq<Action>, done: seq<Action>, a: nat, data: seq<byte>)
    requires Unfolds(acts, found) && Unfolds(found + [Command(a, data)], done)
    ensures OneCommand(acts, done + [Commit(a)], a, data)
  {
    SteadySnoc(found, Command(a, data));
    SteadySnoc(done, Commit(a));
    hide Steady;
    var acts', m := done + [Commit(a)], |found|;
    assert acts'[m] == (found + [Command(a, data)])[m];
    forall x | |acts| <= x < |acts'| - 1 && x != m ensures Timed(acts'[x]) {
      if x < m { assert acts'[x] == (found + [Command(a, data)])[x] == found[x]; }
    }
  }

  /** From every reachable state, and for any vote quorum `q`, there is a continuation in which only the
      servers of `q` act, one of them leads, its log extends the log it had and ends in the given new
      command, all of `q` hold that log, it is committed, and its commands have been applied. The
      command is the only help it gets: elections and copies run on the servers' own timers. */
  lemma AnyStateCommits(cfg: Config, acts: seq<Action>, q: seq<nat>, data: seq<byte>)
    returns (acts': seq<Action>, a: nat)
    requires ValidConfig(cfg) && Distinct(q) && (forall p | p in q :: p in cfg) && |q| >= MinVotes(|cfg| - 1)
    ensures a in q && OneCommand(acts, acts', a, data)
    ensures forall s | s in cfg && s !in q :: Run(cfg, acts').servers[s] == Run(cfg, acts).servers[s]
    ensures var n, n' := Run(cfg, acts).servers[a].node, Run(cfg, acts').servers[a].node;
            && n'.role == Leader && n.log < n'.log && n'.log[|n'.log| - 1] == Entry(n'.currentTerm, 0, data)
            && n'.vol.commitIndex == |n'.log|
            && Run(cfg, acts').servers[a].app.applied == NonStub(n'.log)
            && forall p | p in q :: Run(cfg, acts').servers[p].node.log == n'.log
  {
    hide ValidConfig, Run, Distinct, MinVotes, UpToDate, Only, NonStub, LeadsAll, Unfolds, OneCommand;
    var c := Run(cfg, acts);
    assert q != [] by { SomeServer(cfg, q); }
    var k := BestLog(c, q);
    a := q[k];
    var up := OthersOf(cfg, q, k);
    var found := FindLeader(cfg, acts, a, up);
    var done := CommitCommand(cfg, found, a, up, data);
    OnlyTrans(c, Run(cfg, found), Run(cfg, done), a, up);
    OnlyKeys(c, Run(cfg, done), a, up);
    UpHaveLog(cfg, done, a, up);
    CommitApplies(cfg, done, a);
    OneCommandDone(acts, found, done, a, data);
    acts' := done + [Commit(a)];
  }

  lemma SomeServer(cfg: Config, q: seq<nat>)
    requires ValidConfig(cfg) && |q| >= MinVotes(|cfg| - 1)
    ensures q != []
  {
  }
}
