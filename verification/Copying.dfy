/** How a leader, from any reachable state, brings a whole quorum up to date and commits with its help
    while the rest stay silent. */
module Copying {
  import opened Messages
  import opened Log
  import opened Protocol
  import opened Commit
  import opened Cluster
  import opened Clocks
  import opened History
  import opened Completeness
  import opened Safety
  import opened Durable
  import opened Elections
  import opened CatchUp
  import opened Exchanges

  // --- Everyone in turn -----------------------------------------------------------------------

  /** The leader is the same and has not forgotten what is committed. */
  ghost predicate SameLead(n: Node, n': Node) {
    n'.role == n.role && n'.currentTerm == n.currentTerm && n'.log == n.log && n'.vol.commitIndex >= n.vol.commitIndex
  }

  /** `a` leads everyone in `up`, and the first `k` of them are up to date. */
  ghost predicate LeadsAll(cfg: Config, c: Cluster, a: nat, up: seq<nat>, k: nat) {
    && k <= |up| && c.servers.Keys == cfg.Keys && a in cfg && c.servers[a].node.role == Leader
    && (forall i | 0 <= i < |up| :: Leads(cfg, c, a, up[i]))
    && forall i | 0 <= i < k :: CaughtUp(LinkOf(cfg, c, a, up[i]))
  }

  lemma CaughtUpElsewhere(cfg: Config, c: Cluster, c': Cluster, a: nat, p: nat, q: nat)
    requires Leads(cfg, c, a, q) && p != q && c'.servers.Keys == cfg.Keys && c'.servers[q] == c.servers[q]
    requires SameButView(c.servers[a].node, c'.servers[a].node, p)
    ensures Leads(cfg, c', a, q)
    ensures CaughtUp(LinkOf(cfg, c, a, q)) ==> CaughtUp(LinkOf(cfg, c', a, q))
  {
  }

  lemma NextCaughtUp(cfg: Config, acts: seq<Action>, a: nat, up: seq<nat>, k: nat) returns (acts': seq<Action>)
    requires Others(cfg, a, up) && k < |up| && LeadsAll(cfg, Run(cfg, acts), a, up, k)
    ensures Unfolds(acts, acts')
    ensures Only(Run(cfg, acts), Run(cfg, acts'), a, up)
    ensures Run(cfg, acts').servers[a].app == Run(cfg, acts).servers[a].app
    ensures SameLead(Run(cfg, acts).servers[a].node, Run(cfg, acts').servers[a].node)
    ensures LeadsAll(cfg, Run(cfg, acts'), a, up, k + 1)
  {
    hide ValidConfig, Run, Leads, CaughtUp, Unfolds;
    var c := Run(cfg, acts);
    acts' := CatchUpInRun(cfg, acts, a, up[k]);
    var c' := Run(cfg, acts');
    OnlyWider(c, c', a, [up[k]], up);
    forall i | 0 <= i < |up| && i != k
      ensures Leads(cfg, c', a, up[i]) && (i < k ==> CaughtUp(LinkOf(cfg, c', a, up[i])))
    {
      CaughtUpElsewhere(cfg, c, c', a, up[k], up[i]);
    }
  }

  lemma {:induction false} CatchUpAll(cfg: Config, acts: seq<Action>, a: nat, up: seq<nat>, k: nat)
    returns (acts': seq<Action>)
    requires Others(cfg, a, up) && LeadsAll(cfg, Run(cfg, acts), a, up, k)
    ensures Unfolds(acts, acts')
    ensures Only(Run(cfg, acts), Run(cfg, acts'), a, up)
    ensures Run(cfg, acts').servers[a].app == Run(cfg, acts).servers[a].app
    ensures SameLead(Run(cfg, acts).servers[a].node, Run(cfg, acts').servers[a].node)
    ensures LeadsAll(cfg, Run(cfg, acts'), a, up, |up|)
    decreases |up| - k
  {
    hide Others, Run, Leads, CaughtUp, Only, Unfolds;
    if k == |up| {
      acts' := acts;
      UnfoldsRefl(acts);
      OnlyRefl(Run(cfg, acts), a, up);
    } else {
      var next := NextCaughtUp(cfg, acts, a, up, k);
      acts' := CatchUpAll(cfg, next, a, up, k + 1);
      UnfoldsTrans(acts, next, acts');
      OnlyTrans(Run(cfg, acts), Run(cfg, next), Run(cfg, acts'), a, up);
    }
  }

  // --- Committing -----------------------------------------------------------------------------

  /** A log whose last entry was made in term `t`. */
  ghost predicate Current(log: seq<Entry>, t: nat) {
    log != [] && t >= 1 && LastTerm(log) == t && TermsAscend(log)
  }

  lemma UpHolds(a: nat, peers: seq<nat>, matched: map<nat, nat>, last: nat, up: seq<nat>)
    requires a !in peers && Distinct(up) && |up| + 1 >= MinVotes(|peers|)
    requires forall p | p in up :: p in peers && Get(matched, p) == last
    ensures QuorumHolds(a, peers, matched, last, last)
  {
    var holders := Holders(a, peers, matched, last, last);
    assert Members(up) + {a} <= holders;
    DistinctSize(up);
    assert a !in Members(up);
    SubsetSize(Members(up) + {a}, holders);
    assert |Members(up) + {a}| == |up| + 1;
  }

  /** Once the whole quorum has the log, the leader commits all of it. */
  lemma QuorumCommits(a: nat, peers: seq<nat>, v: Volatile, t: nat, log: seq<Entry>, up: seq<nat>, seqno: nat)
    requires Distinct(peers) && a !in peers && Current(log, t) && v.commitIndex <= |log|
    requires forall q | q in peers :: Get(v.matchIndex, q) <= |log|
    requires Distinct(up) && |up| + 1 >= MinVotes(|peers|)
    requires forall p | p in up :: p in peers && Get(v.matchIndex, p) == |log|
    ensures CommitAdvance(v, peers, t, log, seqno).commitIndex == |log|
  {
    hide CommitAdvance, TermsAscend, Distinct, QuorumHolds, MinVotes;
    UpHolds(a, peers, v.matchIndex, |log|, up);
    assert LogTerm(log, |log|) == t;
    CommitAdvanceIsPaperRule(a, peers, v, t, log, seqno);
    CommitInRange(peers, v, t, log, seqno);
  }

  lemma CommitInRange(peers: seq<nat>, v: Volatile, t: nat, log: seq<Entry>, seqno: nat)
    requires v.commitIndex <= |log| && t >= 1
    ensures CommitAdvance(v, peers, t, log, seqno).commitIndex <= |log|
  {
    hide QuorumIndex;
  }

  /** In every reachable log terms never decrease. */
  lemma ReachableLogAscends(cfg: Config, acts: seq<Action>, a: nat)
    requires ValidConfig(cfg) && a in cfg
    ensures TermsAscend(Run(cfg, acts).servers[a].node.log)
  {
    hide Inv, KeepsAcks, CommitOk, Run, Grows, HistoryOk, ValidConfig, LeaderOk, CandidateOk, TermOk, VotedForOk, LogOk;
    var h, last := HistoryFrom(cfg, acts, |acts|);
    EndOfRun(cfg, acts, a);
    NodeOkAt(cfg, acts, |acts|, a, h);
    LogAscends(cfg, h, Run(cfg, acts).servers[a].node.log);
  }

  /** What the leader may rely on: its commit index and what it knows of its peers lie within its log. */
  lemma LeaderInRange(cfg: Config, acts: seq<Action>, a: nat)
    requires ValidConfig(cfg) && a in cfg && Run(cfg, acts).servers[a].node.role == Leader
    ensures var n := Run(cfg, acts).servers[a].node;
            && n.vol.commitIndex <= |n.log| && forall p | p in cfg[a] :: Get(n.vol.matchIndex, p) <= |n.log|
  {
    hide Run, NodeAt;
    EndOfRun(cfg, acts, a);
    CommittedNeverRemoved(cfg, acts, |acts|, |acts|, a);
    var n := Run(cfg, acts).servers[a].node;
    forall p | p in cfg[a] ensures Get(n.vol.matchIndex, p) <= |n.log| {
      assert ValidPeers(cfg, a);
      LeaderViewSound(cfg, acts, |acts|, a, p);
    }
  }

  /** The leader's volatile state after a reply that reports index `k`. */
  ghost function VolAfter(s: Link, sender: Node, seqno: nat, k: nat): Volatile {
    CommitAdvance(OnReply(sender.vol, Appended(s.p, s.a, s.leader.currentTerm, seqno, k, true)), s.peers,
                  s.leader.currentTerm, s.leader.log, seqno)
  }

  /** An exchange with a follower that has everything ends in the commit rule. */
  lemma LastReply(s: Link, sender: Node, seqno: nat, t: Tick) returns (k: nat)
    requires Sound(s) && CaughtUp(s) && OnlySent(s.leader, sender)
    ensures k <= |s.leader.log|
    ensures ExchangeWith(s, sender, seqno, t, t).leader.vol == VolAfter(s, sender, seqno, k)
  {
    CaughtUpStays(s, sender, seqno, t, t);
    FollowerSide(s, seqno, t);
    SoundInRange(s);
    GoalInRange(s);
    hide Sound, Process, RequestTo, WillMatch, Goal, CommitAdvance, OnReply;
    k := Goal(s);
    LeaderSide(s, sender, seqno, k, true, t);
  }

  /** When the quorum has everything, the last reply commits everything. */
  lemma ReplyCommitsAll(s: Link, sender: Node, seqno: nat, k: nat, up: seq<nat>)
    requires Distinct(s.peers) && s.a !in s.peers && Current(s.leader.log, s.leader.currentTerm)
    requires OnlySent(s.leader, sender) && CaughtUp(s) && k <= |s.leader.log| && s.leader.vol.commitIndex <= |s.leader.log|
    requires forall q | q in s.peers :: Get(s.leader.vol.matchIndex, q) <= |s.leader.log|
    requires Distinct(up) && |up| + 1 >= MinVotes(|s.peers|)
    requires forall p | p in up :: p in s.peers && Get(s.leader.vol.matchIndex, p) == |s.leader.log|
    ensures VolAfter(s, sender, seqno, k).commitIndex == |s.leader.log|
  {
    hide CommitAdvance, Current, Distinct, MinVotes, Agree;
    var v := OnReply(sender.vol, Appended(s.p, s.a, s.leader.currentTerm, seqno, k, true));
    QuorumCommits(s.a, s.peers, v, s.leader.currentTerm, s.leader.log, up, seqno);
  }

  /** A leader without peers commits its log at its next timeout. */
  lemma AloneCommitsAll(a: nat, n: Node, t: Tick)
    requires n.role == Leader && Current(n.log, n.currentTerm) && n.vol.commitIndex <= |n.log|
    ensures var n' := ProcessTimeout(a, [], n, t).node;
            n'.role == Leader && n'.currentTerm == n.currentTerm && n'.log == n.log && n'.vol.commitIndex == |n.log|
  {
    hide TermsAscend;
    assert Sort([|n.log|]) == [|n.log|];
    assert MatchIndices([], n.vol.matchIndex) == [];
    assert QuorumIndex([], n.vol.matchIndex, |n.log|) == |n.log|;
  }

  lemma MatchesOf(cfg: Config, c: Cluster, a: nat, up: seq<nat>)
    requires Others(cfg, a, up) && LeadsAll(cfg, c, a, up, |up|)
    ensures forall p | p in up :: p in cfg[a] && Get(c.servers[a].node.vol.matchIndex, p) == |c.servers[a].node.log|
  {
    hide Agree;
    forall p | p in up ensures p in cfg[a] && Get(c.servers[a].node.vol.matchIndex, p) == |c.servers[a].node.log| {
      var i :| 0 <= i < |up| && up[i] == p;
      UpIsOther(cfg, a, up, i);
      assert CaughtUp(LinkOf(cfg, c, a, up[i]));
    }
  }

  /** With everyone in the quorum up to date, one more exchange commits the whole log. */
  lemma CommitAll(cfg: Config, acts: seq<Action>, a: nat, up: seq<nat>) returns (acts': seq<Action>)
    requires Quorum(cfg, a, up) && LeadsAll(cfg, Run(cfg, acts), a, up, |up|)
    requires Current(Run(cfg, acts).servers[a].node.log, Run(cfg, acts).servers[a].node.currentTerm)
    ensures Unfolds(acts, acts')
    ensures Only(Run(cfg, acts), Run(cfg, acts'), a, up)
    ensures Run(cfg, acts').servers[a].app == Run(cfg, acts).servers[a].app
    ensures SameLead(Run(cfg, acts).servers[a].node, Run(cfg, acts').servers[a].node)
    ensures Run(cfg, acts').servers[a].node.vol.commitIndex == |Run(cfg, acts).servers[a].node.log|
    ensures LeadsAll(cfg, Run(cfg, acts'), a, up, |up|)
  {
    hide ValidConfig, Run, Next, Distinct, MinVotes, Current, ProcessTimeout, Unfolds, Clock;
    LeaderInRange(cfg, acts, a);
    QuorumOfOne(cfg, a, up);
    if up == [] {
      var act := Timeout(a, Now(Clock(acts)));
      AloneCommitsAll(a, Run(cfg, acts).servers[a].node, act.tick);
      NextDoes(cfg, Run(cfg, acts), act);
      RunSnoc(cfg, acts, act);
      UnfoldsSnoc(acts, act);
      acts' := acts + [act];
    } else {
      acts' := CommitWith(cfg, acts, a, up);
    }
  }

  lemma CommitWith(cfg: Config, acts: seq<Action>, a: nat, up: seq<nat>) returns (acts': seq<Action>)
    requires Quorum(cfg, a, up) && up != [] && LeadsAll(cfg, Run(cfg, acts), a, up, |up|)
    requires Current(Run(cfg, acts).servers[a].node.log, Run(cfg, acts).servers[a].node.currentTerm)
    ensures Unfolds(acts, acts')
    ensures Only(Run(cfg, acts), Run(cfg, acts'), a, up)
    ensures Run(cfg, acts').servers[a].app == Run(cfg, acts).servers[a].app
    ensures SameLead(Run(cfg, acts).servers[a].node, Run(cfg, acts').servers[a].node)
    ensures Run(cfg, acts').servers[a].node.vol.commitIndex == |Run(cfg, acts).servers[a].node.log|
    ensures LeadsAll(cfg, Run(cfg, acts'), a, up, |up|)
  {
    hide ValidConfig, Run, Distinct, MinVotes, Current, Leads, Sound, CaughtUp, ExchangeWith, OnlySent, VolAfter, Only,
         SameButView, SameLead, Unfolds;
    var c, p := Run(cfg, acts), up[0];
    var s := LinkOf(cfg, c, a, p);
    LeaderInRange(cfg, acts, a);
    PeersDistinct(cfg, a);
    MatchesOf(cfg, c, a, up);
    LinkIsSound(cfg, acts, a, p);
    var sender, seqno, now;
    acts', sender, seqno, now := OneExchange(cfg, acts, a, p);
    var c', t := Run(cfg, acts'), Now(now);
    OnlyKeys(c, c', a, [p]);
    CaughtUpStays(s, sender, seqno, t, t);
    ExchangeWithStep(s, sender, seqno, t, t);
    ExchangeKeepsRest(s, sender, seqno, t);
    var k := LastReply(s, sender, seqno, t);
    ReplyCommitsAll(s, sender, seqno, k, up);
    SameRole(c.servers[a].node, c'.servers[a].node, p);
    OnlyWider(c, c', a, [p], up);
    LeadsAfter(cfg, c, c', a, p);
    RestStays(cfg, c, c', a, up, p);
  }

  lemma RestStays(cfg: Config, c: Cluster, c': Cluster, a: nat, up: seq<nat>, p: nat)
    requires LeadsAll(cfg, c, a, up, |up|) && Only(c, c', a, [p])
    requires SameButView(c.servers[a].node, c'.servers[a].node, p)
    requires Leads(cfg, c', a, p) && CaughtUp(LinkOf(cfg, c', a, p))
    ensures LeadsAll(cfg, c', a, up, |up|)
  {
    hide Leads, CaughtUp, SameButView;
    forall i | 0 <= i < |up| ensures up[i] in cfg && c'.servers.Keys == cfg.Keys { LeadsOther(cfg, c, a, up[i]); }
    forall i | 0 <= i < |up| ensures Leads(cfg, c', a, up[i]) && CaughtUp(LinkOf(cfg, c', a, up[i])) {
      if up[i] != p {
        LeadsOther(cfg, c, a, up[i]);
        CaughtUpElsewhere(cfg, c, c', a, p, up[i]);
      }
    }
    SameRole(c.servers[a].node, c'.servers[a].node, p);
  }

  lemma LeadsOther(cfg: Config, c: Cluster, a: nat, p: nat)
    requires Leads(cfg, c, a, p)
    ensures a in cfg && p in cfg && p != a && c.servers.Keys == cfg.Keys && c.servers[a].node.role == Leader
  {
  }

  lemma SameRole(n: Node, n': Node, p: nat)
    requires SameButView(n, n', p)
    ensures n'.role == n.role && SameLead(n, n')
  {
  }

  lemma OnlyKeys(c: Cluster, c': Cluster, a: nat, up: seq<nat>)
    requires Only(c, c', a, up)
    ensures c'.servers.Keys == c.servers.Keys
    ensures forall s | s in c.servers && s != a && s !in up :: c'.servers[s] == c.servers[s]
  {
  }

  lemma CurrentSnoc(log: seq<Entry>, t: nat, flags: nat, data: seq<byte>)
    requires TermsAscend(log) && LastTerm(log) <= t && t >= 1
    ensures Current(log + [Entry(t, flags, data)], t)
  {
  }

  /** A leader whose quorum is in no later term takes a command, brings the quorum up to date and
      commits its whole log, the command last. */
  lemma CommitCommand(cfg: Config, acts: seq<Action>, a: nat, up: seq<nat>, data: seq<byte>) returns (acts': seq<Action>)
    requires Quorum(cfg, a, up) && LeadsAll(cfg, Run(cfg, acts), a, up, 0)
    ensures Unfolds(acts + [Command(a, data)], acts')
    ensures Only(Run(cfg, acts), Run(cfg, acts'), a, up)
    ensures Run(cfg, acts').servers[a].app == Run(cfg, acts).servers[a].app
    ensures var n, n' := Run(cfg, acts).servers[a].node, Run(cfg, acts').servers[a].node;
            && n'.role == Leader && n'.currentTerm == n.currentTerm && n'.log == n.log + [Entry(n.currentTerm, 0, data)]
            && n'.vol.commitIndex == |n'.log|
    ensures LeadsAll(cfg, Run(cfg, acts'), a, up, |up|)
  {
    hide ValidConfig, Run, Next, Distinct, MinVotes, Current, CaughtUp, Only, Unfolds;
    var c := Run(cfg, acts);
    var n := c.servers[a].node;
    var act := Command(a, data);
    var c1 := Next(cfg, c, act);
    CommandTaken(cfg, c, a, up, data);
    RunSnoc(cfg, acts, act);
    ReachableLogAscends(cfg, acts, a);
    TermsWithin(cfg, acts, a);
    CurrentSnoc(n.log, n.currentTerm, 0, data);
    var caught := CatchUpAll(cfg, acts + [act], a, up, 0);
    acts' := CommitAll(cfg, caught, a, up);
    UnfoldsTrans(acts + [act], caught, acts');
    OnlyTrans(c1, Run(cfg, caught), Run(cfg, acts'), a, up);
    OnlyTrans(c, c1, Run(cfg, acts'), a, up);
  }

  lemma CommandTaken(cfg: Config, c: Cluster, a: nat, up: seq<nat>, data: seq<byte>)
    requires Others(cfg, a, up) && LeadsAll(cfg, c, a, up, 0)
    ensures var c' := Next(cfg, c, Command(a, data));
            && Only(c, c', a, up) && c'.servers[a].app == c.servers[a].app && LeadsAll(cfg, c', a, up, 0)
            && c'.servers[a].node == AppendCommand(c.servers[a].node, 0, data)
  {
    hide ValidConfig, Next;
    NextDoes(cfg, c, Command(a, data));
  }

  lemma TermsWithin(cfg: Config, acts: seq<Action>, a: nat)
    requires ValidConfig(cfg) && a in cfg
    ensures var n := Run(cfg, acts).servers[a].node;
            LastTerm(n.log) <= n.currentTerm && n.currentTerm >= 1
  {
    hide Inv, KeepsAcks, CommitOk, Run, Grows, HistoryOk, ValidConfig, LeaderOk, CandidateOk, LogOk, VotedForOk;
    var h, last := HistoryFrom(cfg, acts, |acts|);
    EndOfRun(cfg, acts, a);
    NodeOkAt(cfg, acts, |acts|, a, h);
  }

  /** A follower of the leader's term that is up to date has exactly the leader's log, when that ends
      in its own term. */
  lemma SameLogs(cfg: Config, acts: seq<Action>, a: nat, p: nat)
    requires ValidConfig(cfg) && Leads(cfg, Run(cfg, acts), a, p) && CaughtUp(LinkOf(cfg, Run(cfg, acts), a, p))
    requires var n := Run(cfg, acts).servers[a].node; n.log != [] && LastTerm(n.log) == n.currentTerm
    ensures Run(cfg, acts).servers[p].node.log == Run(cfg, acts).servers[a].node.log
  {
    hide Inv, KeepsAcks, CommitOk, Run, Grows, HistoryOk, ValidConfig, CandidateOk, VotedForOk, PeerViewOk;
    var h, last := HistoryFrom(cfg, acts, |acts|);
    EndOfRun(cfg, acts, a);
    EndOfRun(cfg, acts, p);
    NodeOkAt(cfg, acts, |acts|, a, h);
    NodeOkAt(cfg, acts, |acts|, p, h);
    ReachableLogAscends(cfg, acts, p);
    NoEntryBeyond(h, Run(cfg, acts).servers[a].node.log, Run(cfg, acts).servers[p].node.log,
                  Run(cfg, acts).servers[a].node.currentTerm);
  }

  lemma NoEntryBeyond(h: History, log: seq<Entry>, log': seq<Entry>, t: nat)
    requires LogOk(h, log') && TermsAscend(log') && Won(h, t) && LogOf(h, t) == log
    requires log != [] && LastTerm(log) == t && Agree(log, log', |log|)
    requires forall i | 0 <= i < |log'| :: log'[i].term <= t
    ensures log' == log
  {
    hide LogOk, TermsAscend;
    if |log'| > |log| {
      TermStays(log', |log|, t);
      NotOfTerm(h, log', t);
    }
  }

  lemma TermStays(log: seq<Entry>, k: nat, t: nat)
    requires TermsAscend(log) && 0 < k < |log| && log[k - 1].term == t && log[k].term <= t
    ensures log[k].term == t
  {
  }

  lemma NotOfTerm(h: History, log: seq<Entry>, t: nat)
    requires LogOk(h, log) && Won(h, t) && |LogOf(h, t)| < |log|
    ensures log[|LogOf(h, t)|].term != t
  {
    assert EntryOk(h, log, |LogOf(h, t)|);
  }
}
