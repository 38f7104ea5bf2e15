/** How a leader, from any reachable state, brings another server up to date while the rest stay silent:
    the exchanges of CatchUp.dfy as actions of the cluster. */
module Exchanges {
  import opened Messages
  import opened Log
  import opened Protocol
  import opened Commit
  import opened Cluster
  import opened Clocks
  import opened Durable
  import opened Elections
  import opened CatchUp
  import opened Sending
  import opened Replicas

  /** The link between `a` and `p` in a cluster. */
  ghost function LinkOf(cfg: Config, c: Cluster, a: nat, p: nat): Link
    requires a in cfg && p in cfg && c.servers.Keys == cfg.Keys
  {
    Link(a, cfg[a], c.servers[a].node, p, cfg[p], c.servers[p].node)
  }

  /** `a` leads and `p`, another server, is in no later term. */
  ghost predicate Leads(cfg: Config, c: Cluster, a: nat, p: nat) {
    && c.servers.Keys == cfg.Keys && a in cfg && p in cfg && a != p
    && c.servers[a].node.role == Leader && c.servers[p].node.currentTerm <= c.servers[a].node.currentTerm
  }

  lemma LinkIsSound(cfg: Config, acts: seq<Action>, a: nat, p: nat)
    requires ValidConfig(cfg) && Leads(cfg, Run(cfg, acts), a, p)
    ensures Sound(LinkOf(cfg, Run(cfg, acts), a, p))
  {
    hide ValidConfig, Sound, Run;
    EndOfRun(cfg, acts, a);
    EndOfRun(cfg, acts, p);
    ReachableLinksAreSound(cfg, acts, |acts|, a, p);
  }

  // --- One exchange ---------------------------------------------------------------------------

  /** Among the pings of a read is the request to `p`. */
  lemma {:induction false} PingSent(a: nat, peers: seq<nat>, n: Node, p: nat) returns (seqno: nat)
    requires p in peers
    ensures seqno >= n.seqno && RequestTo(a, n, p, seqno) in ApproveRead(a, peers, n).sent
  {
    hide RequestTo;
    var k := |peers| - 1;
    var before := ApproveRead(a, peers[..k], n);
    assert peers == peers[..k] + [peers[k]];
    if p in peers[..k] {
      seqno := PingSent(a, peers[..k], n, p);
    } else {
      seqno := before.node.seqno;
      SameSent(a, n, before.node, p, seqno);
      assert SendAppendTo(a, before.node, p).sent[0] in ApproveRead(a, peers, n).sent;
    }
  }

  lemma PeerOf(cfg: Config, a: nat, p: nat)
    requires ValidConfig(cfg) && a in cfg && p in cfg && a != p
    ensures p in cfg[a]
  {
    assert ValidPeers(cfg, a);
  }

  /** From `c` to `c1` leader `a` only sent, and to `p` request number `seqno`. */
  ghost predicate Offers(c: Cluster, c1: Cluster, a: nat, p: nat, seqno: nat)
    requires a in c.servers && a in c1.servers
  {
    var n, n1 := c.servers[a].node, c1.servers[a].node;
    && c1.servers == c.servers[a := Server(n1, c.servers[a].app)] && c.net <= c1.net
    && OnlySent(n, n1) && seqno >= n.seqno && RequestTo(a, n, p, seqno) in c1.net
  }

  /** A read makes the leader send. */
  lemma ReadSends(cfg: Config, c: Cluster, a: nat, p: nat) returns (seqno: nat)
    requires a in cfg && c.servers.Keys == cfg.Keys && c.servers[a].node.role == Leader && p in cfg[a]
    ensures Next(cfg, c, Read(a)).servers.Keys == cfg.Keys && Offers(c, Next(cfg, c, Read(a)), a, p, seqno)
  {
    hide Next, RequestTo;
    seqno := PingSent(a, cfg[a], c.servers[a].node, p);
    NextDoes(cfg, c, Read(a));
  }

  /** When a request to `p` is due, the leader's timer makes it send. */
  lemma DueSends(cfg: Config, c: Cluster, a: nat, p: nat, now: nat) returns (seqno: nat)
    requires a in cfg && c.servers.Keys == cfg.Keys && c.servers[a].node.role == Leader && p in cfg[a]
    requires Distinct(cfg[a]) && SendDue(c.servers[a].node, p, now)
    ensures var c1 := Next(cfg, c, Timeout(a, Now(now)));
            c1.servers.Keys == cfg.Keys && Offers(c, c1, a, p, seqno)
  {
    hide Next, RequestTo, Distinct, For, SendDue, Served;
    var n, act := c.servers[a].node, Timeout(a, Now(now));
    seqno := LeaderSendsIff(a, cfg[a], n, Now(now), p);
    SentWhenDue(a, n, ProcessTimeout(a, cfg[a], n, Now(now)), p, now, seqno);
    NextDoes(cfg, c, act);
  }

  lemma SentWhenDue(id: nat, n: Node, r: Step, p: nat, now: nat, seqno: nat)
    requires Served(id, n, r, p, now, seqno) && SendDue(n, p, now)
    ensures RequestTo(id, n, p, seqno) in r.sent && seqno >= n.seqno
  {
    hide RequestTo, For, SendDue;
    var m := RequestTo(id, n, p, seqno);
    assert m in [m];
    ForSent(r.sent, p, m);
  }

  /** Heartbeat timers are always finite. */
  ghost predicate BeatsFinite(n: Node) { forall p | p in n.vol.heartbeatDue :: n.vol.heartbeatDue[p].At? }

  lemma {:induction false} BeatsStayFinite(id: nat, peers: seq<nat>, n: Node, now: nat)
    requires BeatsFinite(n)
    ensures BeatsFinite(Heartbeats(id, peers, n, now).node) && BeatsFinite(CandidateTimeout(id, peers, n, now).node)
    ensures BeatsFinite(ApproveRead(id, peers, n).node)
  {
    hide CreateAppendEntries, CreateVote;
    if peers != [] { BeatsStayFinite(id, peers[..|peers| - 1], n, now); }
  }

  lemma TimeoutBeats(id: nat, peers: seq<nat>, n: Node, t: Tick)
    requires BeatsFinite(n)
    ensures BeatsFinite(ProcessTimeout(id, peers, n, t).node)
  {
    hide Heartbeats, CandidateTimeout, QuorumIndex;
    BeatsStayFinite(id, peers, Elect(id, peers, n, t.now, t.jitter), t.now);
  }

  lemma StepBeats(cfg: Config, c: Cluster, act: Action)
    requires Target(act) in cfg && Target(act) in c.servers && BeatsFinite(c.servers[Target(act)].node)
    ensures BeatsFinite(NodeStep(cfg, c, act).node)
  {
    hide ProcessTimeout, ApproveRead, QuorumIndex, Replay;
    var id := Target(act);
    match act
    case Timeout(_, t) => TimeoutBeats(id, cfg[id], c.servers[id].node, t);
    case Read(_) => BeatsStayFinite(id, cfg[id], c.servers[id].node, 0);
    case _ =>
  }

  lemma {:induction false} HeartbeatsFinite(cfg: Config, acts: seq<Action>, a: nat)
    requires a in cfg
    ensures BeatsFinite(Run(cfg, acts).servers[a].node)
  {
    hide NodeStep, AppStep, BeatsFinite, Start;
    if acts == [] {
      StartBeats(cfg, a);
    } else {
      HeartbeatsFinite(cfg, acts[..|acts| - 1], a);
      var c, act := Run(cfg, acts[..|acts| - 1]), acts[|acts| - 1];
      if Target(act) == a { StepBeats(cfg, c, act); }
    }
  }

  lemma StartBeats(cfg: Config, a: nat)
    requires a in cfg
    ensures BeatsFinite(Start(cfg).servers[a].node)
  {
  }

  /** A reading at which the heartbeat to `p` is due. */
  lemma BeatTime(cfg: Config, acts: seq<Action>, a: nat, p: nat) returns (now: nat)
    requires a in cfg
    ensures now >= Clock(acts) && Due(GetTime(Run(cfg, acts).servers[a].node.vol.heartbeatDue, p), now)
  {
    hide Run;
    HeartbeatsFinite(cfg, acts, a);
    now := Max(Clock(acts), GetTime(Run(cfg, acts).servers[a].node.vol.heartbeatDue, p).ms);
  }

  /** What the delivery of `request` and the delivery of `reply` do. */
  ghost function AfterTwo(cfg: Config, c: Cluster, request: Message, reply: Message, t: Tick): Cluster {
    Next(cfg, Next(cfg, c, Deliver(request, t)), Deliver(reply, t))
  }

  lemma TwoSteps(cfg: Config, c: Cluster, c1: Cluster, a: nat, p: nat, seqno: nat, t: Tick)
    returns (request: Message, reply: Message)
    requires Leads(cfg, c, a, p) && c1.servers.Keys == cfg.Keys && Offers(c, c1, a, p, seqno)
    ensures var c' := AfterTwo(cfg, c1, request, reply, t);
            && c'.servers.Keys == cfg.Keys && Only(c, c', a, [p]) && c'.servers[a].app == c.servers[a].app
            && LinkOf(cfg, c', a, p) == ExchangeWith(LinkOf(cfg, c, a, p), c1.servers[a].node, seqno, t, t)
  {
    hide Next, Process, RequestTo, OnlySent;
    var n, f := c.servers[a].node, c.servers[p].node;
    request := RequestTo(a, n, p, seqno);
    RequestEnds(a, n, p, seqno);
    NextDoes(cfg, c1, Deliver(request, t));
    AppendStep(p, cfg[p], f, request, t);
    reply := Process(p, cfg[p], f, request, t).sent[0];
    NextDoes(cfg, Next(cfg, c1, Deliver(request, t)), Deliver(reply, t));
  }

  /** An offer made at the end of `sent` reaches `p`, and the reply reaches the leader, both at `now`. */
  lemma OfferTaken(cfg: Config, c: Cluster, sent: seq<Action>, a: nat, p: nat, seqno: nat, now: nat)
    returns (acts': seq<Action>)
    requires Leads(cfg, c, a, p) && Offers(c, Run(cfg, sent), a, p, seqno) && now >= Clock(sent)
    ensures Unfolds(sent, acts') && |acts'| == |sent| + 2 && Only(c, Run(cfg, acts'), a, [p])
    ensures Run(cfg, acts').servers[a].app == c.servers[a].app
    ensures LinkOf(cfg, Run(cfg, acts'), a, p)
         == ExchangeWith(LinkOf(cfg, c, a, p), Run(cfg, sent).servers[a].node, seqno, Now(now), Now(now))
  {
    hide Run, Next, Offers, Only, ExchangeWith, Clock, Unfolds;
    var request, reply := TwoSteps(cfg, c, Run(cfg, sent), a, p, seqno, Now(now));
    RunSnoc(cfg, sent, Deliver(request, Now(now)));
    RunSnoc(cfg, sent + [Deliver(request, Now(now))], Deliver(reply, Now(now)));
    UnfoldsTwice(sent, Deliver(request, Now(now)), Deliver(reply, Now(now)));
    acts' := sent + [Deliver(request, Now(now))] + [Deliver(reply, Now(now))];
  }

  /** The outcome of an exchange between `a` and `p` in a run. */
  ghost predicate Exchanged(cfg: Config, c: Cluster, c': Cluster, a: nat, p: nat, sender: Node, seqno: nat, now: nat)
    requires Leads(cfg, c, a, p) && c'.servers.Keys == cfg.Keys
  {
    && Only(c, c', a, [p]) && c'.servers[a].app == c.servers[a].app
    && OnlySent(c.servers[a].node, sender) && seqno >= c.servers[a].node.seqno
    && LinkOf(cfg, c', a, p) == ExchangeWith(LinkOf(cfg, c, a, p), sender, seqno, Now(now), Now(now))
  }

  lemma OfferSender(c: Cluster, c1: Cluster, a: nat, p: nat, seqno: nat)
    requires a in c.servers && a in c1.servers && Offers(c, c1, a, p, seqno)
    ensures OnlySent(c.servers[a].node, c1.servers[a].node) && seqno >= c.servers[a].node.seqno
  {
  }

  /** Then one timeout and two deliveries, all at any reading not below the clock, are an exchange. */
  lemma DueExchange(cfg: Config, acts: seq<Action>, a: nat, p: nat, now: nat)
    returns (acts': seq<Action>, sender: Node, seqno: nat)
    requires ValidConfig(cfg) && Leads(cfg, Run(cfg, acts), a, p) && now >= Clock(acts)
    requires SendDue(Run(cfg, acts).servers[a].node, p, now)
    ensures Unfolds(acts + [Timeout(a, Now(now))], acts') && Unfolds(acts, acts') && |acts'| == |acts| + 3
    ensures Exchanged(cfg, Run(cfg, acts), Run(cfg, acts'), a, p, sender, seqno, now)
  {
    hide ValidConfig, Run, Next, Offers, OnlySent, Only, ExchangeWith, Clock, Unfolds, Distinct, SendDue;
    PeerOf(cfg, a, p);
    PeersDistinct(cfg, a);
    var act := Timeout(a, Now(now));
    seqno := DueSends(cfg, Run(cfg, acts), a, p, now);
    RunSnoc(cfg, acts, act);
    UnfoldsSnoc(acts, act);
    sender := Run(cfg, acts + [act]).servers[a].node;
    OfferSender(Run(cfg, acts), Run(cfg, acts + [act]), a, p, seqno);
    acts' := OfferTaken(cfg, Run(cfg, acts), acts + [act], a, p, seqno, now);
    UnfoldsTrans(acts, acts + [act], acts');
  }

  /** The leader's heartbeat to `p` comes due; the request reaches `p` and the reply the leader. */
  lemma OneExchange(cfg: Config, acts: seq<Action>, a: nat, p: nat)
    returns (acts': seq<Action>, sender: Node, seqno: nat, now: nat)
    requires ValidConfig(cfg) && Leads(cfg, Run(cfg, acts), a, p)
    ensures Unfolds(acts, acts') && Exchanged(cfg, Run(cfg, acts), Run(cfg, acts'), a, p, sender, seqno, now)
  {
    hide ValidConfig, Run, Exchanged, Clock, Unfolds, GetTime;
    now := BeatTime(cfg, acts, a, p);
    acts', sender, seqno := DueExchange(cfg, acts, a, p, now);
  }

  /** A consistent read makes the leader send; the request reaches `p` and the reply the leader. */
  lemma ReadExchange(cfg: Config, acts: seq<Action>, a: nat, p: nat)
    returns (acts': seq<Action>, sender: Node, seqno: nat, now: nat)
    requires ValidConfig(cfg) && Leads(cfg, Run(cfg, acts), a, p)
    ensures Unfolds(acts + [Read(a)], acts')
    ensures Exchanged(cfg, Run(cfg, acts), Run(cfg, acts'), a, p, sender, seqno, now)
  {
    hide ValidConfig, Run, Next, Offers, OnlySent, Only, ExchangeWith, Clock, Unfolds;
    PeerOf(cfg, a, p);
    var asked := acts + [Read(a)];
    now := Clock(asked);
    seqno := ReadSends(cfg, Run(cfg, acts), a, p);
    RunSnoc(cfg, acts, Read(a));
    sender := Run(cfg, asked).servers[a].node;
    OfferSender(Run(cfg, acts), Run(cfg, asked), a, p, seqno);
    acts' := OfferTaken(cfg, Run(cfg, acts), asked, a, p, seqno, now);
  }

  // --- Catching up ----------------------------------------------------------------------------

  /** Nothing of the leader but its view of `p` has changed, and its commit index has not decreased. */
  ghost predicate SameButView(n: Node, n': Node, p: nat) {
    && n'.role == n.role && n'.currentTerm == n.currentTerm && n'.log == n.log
    && n'.vol.commitIndex >= n.vol.commitIndex
    && forall q | q != p :: Get(n'.vol.nextIndex, q) == Get(n.vol.nextIndex, q)
                            && Get(n'.vol.matchIndex, q) == Get(n.vol.matchIndex, q)
  }

  lemma SameButViewTrans(a: Node, b: Node, c: Node, p: nat)
    requires SameButView(a, b, p) && SameButView(b, c, p)
    ensures SameButView(a, c, p)
  {
  }

  lemma ExchangeKeepsRest(s: Link, sender: Node, seqno: nat, t: Tick)
    requires Sound(s) && OnlySent(s.leader, sender)
    ensures SameButView(s.leader, ExchangeWith(s, sender, seqno, t, t).leader, s.p)
  {
    hide Sound, Process, RequestTo, WillMatch, Goal, CommitAdvance, OnReply, OnlySent, NextInRange, Answer;
    SoundInRange(s);
    AnswerIs(s, seqno, t);
    LeaderSide(s, sender, seqno, if WillMatch(s) then Goal(s) else 0, WillMatch(s), t);
    ReplyCommit(s, sender, seqno, if WillMatch(s) then Goal(s) else 0, WillMatch(s), t);
  }

  lemma AnswerIs(s: Link, seqno: nat, t: Tick)
    requires Sound(s)
    ensures Answer(Process(s.p, s.others, s.follower, RequestTo(s.a, s.leader, s.p, seqno), t))
         == Appended(s.p, s.a, s.leader.currentTerm, seqno, if WillMatch(s) then Goal(s) else 0, WillMatch(s))
  {
    hide Sound, Process, RequestTo, WillMatch, Goal, Replay;
    FollowerSide(s, seqno, t);
  }

  lemma ReplyCommit(s: Link, sender: Node, seqno: nat, k: nat, success: bool, t: Tick)
    requires s.leader.role == Leader && OnlySent(s.leader, sender)
    ensures var reply := Appended(s.p, s.a, s.leader.currentTerm, seqno, k, success);
            Process(s.a, s.peers, sender, reply, t).node.vol.commitIndex >= s.leader.vol.commitIndex
  {
    hide CommitAdvance;
    var reply := Appended(s.p, s.a, s.leader.currentTerm, seqno, k, success);
    AdvanceForward(OnReply(sender.vol, reply), s.peers, s.leader.currentTerm, s.leader.log, seqno);
  }

  /** The leader's next request to the follower starts behind its whole log, and its timer has come. */
  ghost predicate AtEnd(s: Link) { NextOf(s) == |s.leader.log| + 1 && TimerOf(s) == At(0) }

  lemma RejectedKeepsLog(s: Link, sender: Node, seqno: nat, t: Tick)
    requires Sound(s) && !WillMatch(s)
    ensures ExchangeWith(s, sender, seqno, t, t).follower.log == s.follower.log
  {
    hide Sound, Process, WillMatch, RequestTo;
    FollowerSide(s, seqno, t);
  }

  /** The exchange in which the follower becomes up to date reaches the end of the leader's log. */
  lemma CatchUpMoment(s: Link, sender: Node, seqno: nat, t: Tick)
    requires Sound(s) && OnlySent(s.leader, sender) && !CaughtUp(s)
    requires CaughtUp(ExchangeWith(s, sender, seqno, t, t))
    ensures AtEnd(ExchangeWith(s, sender, seqno, t, t))
  {
    ExchangeWithStep(s, sender, seqno, t, t);
    if !WillMatch(s) { RejectedKeepsLog(s, sender, seqno, t); }
    hide ExchangeWith, WillMatch, EqualTermsAgree, Goal;
  }

  /** From there one more exchange tells the follower how much is committed. */
  lemma FollowerCommits(s: Link, sender: Node, seqno: nat, t: Tick)
    requires Sound(s) && OnlySent(s.leader, sender) && CaughtUp(s) && AtEnd(s)
    requires s.leader.vol.commitIndex <= |s.leader.log|
    ensures var s' := ExchangeWith(s, sender, seqno, t, t);
            CaughtUp(s') && s'.follower.vol.commitIndex >= s.leader.vol.commitIndex && s'.leader.log == s.leader.log
  {
    CaughtUpStays(s, sender, seqno, t, t);
    ExchangeWithStep(s, sender, seqno, t, t);
    FollowerSide(s, seqno, t);
    GoalInRange(s);
    hide Sound, Process, WillMatch, RequestTo, CaughtUp;
  }

  /** Exchanges until the follower is up to date; the others stay silent. */
  lemma {:induction false} CatchUpInRun(cfg: Config, acts: seq<Action>, a: nat, p: nat) returns (acts': seq<Action>)
    requires ValidConfig(cfg) && Leads(cfg, Run(cfg, acts), a, p)
    ensures Unfolds(acts, acts')
    ensures Only(Run(cfg, acts), Run(cfg, acts'), a, [p])
    ensures Run(cfg, acts').servers[a].app == Run(cfg, acts).servers[a].app
    ensures Leads(cfg, Run(cfg, acts'), a, p) && CaughtUp(LinkOf(cfg, Run(cfg, acts'), a, p))
    ensures SameButView(Run(cfg, acts).servers[a].node, Run(cfg, acts').servers[a].node, p)
    ensures !CaughtUp(LinkOf(cfg, Run(cfg, acts), a, p)) ==> AtEnd(LinkOf(cfg, Run(cfg, acts'), a, p))
    decreases LinkFuel(LinkOf(cfg, Run(cfg, acts), a, p))
  {
    hide ValidConfig, Run, Sound, CaughtUp, ExchangeWith, LinkFuel, OnlySent, SameButView, Only, AtEnd, Unfolds;
    var c := Run(cfg, acts);
    var s := LinkOf(cfg, c, a, p);
    if CaughtUp(s) {
      acts' := acts;
      OnlyRefl(c, a, [p]);
      UnfoldsRefl(acts);
      assert SameButView(s.leader, s.leader, p) by { SameButViewRefl(s.leader, p); }
    } else {
      LinkIsSound(cfg, acts, a, p);
      var next, sender, seqno, now := OneExchange(cfg, acts, a, p);
      ExchangeWithStep(s, sender, seqno, Now(now), Now(now));
      ExchangeKeepsRest(s, sender, seqno, Now(now));
      var s' := LinkOf(cfg, Run(cfg, next), a, p);
      LinkFuelDrops(s, sender, seqno, Now(now));
      LeadsAfter(cfg, c, Run(cfg, next), a, p);
      if CaughtUp(s') {
        acts' := next;
        CatchUpMoment(s, sender, seqno, Now(now));
      } else {
        acts' := CatchUpInRun(cfg, next, a, p);
        OnlyTrans(c, Run(cfg, next), Run(cfg, acts'), a, [p]);
        UnfoldsTrans(acts, next, acts');
        SameButViewTrans(s.leader, s'.leader, Run(cfg, acts').servers[a].node, p);
      }
    }
  }

  lemma SameButViewRefl(n: Node, p: nat)
    ensures SameButView(n, n, p)
  {
  }

  lemma LeadsAfter(cfg: Config, c: Cluster, c': Cluster, a: nat, p: nat)
    requires Leads(cfg, c, a, p) && c'.servers.Keys == c.servers.Keys && Sound(LinkOf(cfg, c', a, p))
    ensures Leads(cfg, c', a, p)
  {
  }

  ghost function LinkFuel(s: Link): nat {
    if NextInRange(s.leader, s.p) then Fuel(s) else 0
  }

  lemma LinkFuelDrops(s: Link, sender: Node, seqno: nat, t: Tick)
    requires Sound(s) && OnlySent(s.leader, sender)
    ensures var s' := ExchangeWith(s, sender, seqno, t, t);
            CaughtUp(s') || LinkFuel(s') < LinkFuel(s)
  {
    hide ExchangeWith, CaughtUp, Fuel, OnlySent;
    ExchangeUsesFuel(s, sender, seqno, t, t);
  }

  // --- A command goes out ---------------------------------------------------------------------

  /** A command taken by a leader, when peer `p` has acknowledged everything and that reply has reset its
      request timer, reaches `p` from the leader's next timeout, at any reading not below the clock
      and whatever the heartbeat timer says, and the leader learns it: after four actions the
      leader's whole log is in the log of `p`, and MatchIndex says so. */
  lemma CommandGoesOut(cfg: Config, acts: seq<Action>, a: nat, p: nat, data: seq<byte>, now: nat)
    returns (acts': seq<Action>)
    requires ValidConfig(cfg) && Leads(cfg, Run(cfg, acts), a, p) && now >= Clock(acts)
    requires CaughtUp(LinkOf(cfg, Run(cfg, acts), a, p)) && AtEnd(LinkOf(cfg, Run(cfg, acts), a, p))
    ensures Unfolds(acts + [Command(a, data)] + [Timeout(a, Now(now))], acts') && |acts'| == |acts| + 4
    ensures Steady(acts) ==> Steady(acts')
    ensures Only(Run(cfg, acts), Run(cfg, acts'), a, [p])
    ensures var n, s' := Run(cfg, acts).servers[a].node, LinkOf(cfg, Run(cfg, acts'), a, p);
            && s'.leader.role == Leader && s'.leader.log == n.log + [Entry(n.currentTerm, 0, data)]
            && CaughtUp(s') && AtEnd(s')
  {
    hide ValidConfig, Run, Next, Only, ExchangeWith, Clock, Unfolds, Sound, OnlySent, SendDue, Steady, CaughtUp;
    var c, act := Run(cfg, acts), Command(a, data);
    var taken := acts + [act];
    NextDoes(cfg, c, act);
    RunSnoc(cfg, acts, act);
    SteadySnoc(acts, act);
    CommandMakesDue(LinkOf(cfg, c, a, p), LinkOf(cfg, Run(cfg, taken), a, p), data, now);
    assert Only(c, Run(cfg, taken), a, [p]) by { OnlyLeader(c, Run(cfg, taken), a, p); }
    var sender, seqno;
    acts', sender, seqno := DueExchange(cfg, taken, a, p, now);
    OnlyTrans(c, Run(cfg, taken), Run(cfg, acts'), a, [p]);
    SteadyUnfolds(taken, acts');
    var s := LinkOf(cfg, Run(cfg, taken), a, p);
    LinkIsSound(cfg, taken, a, p);
    ExchangeWithStep(s, sender, seqno, Now(now), Now(now));
    MatchedAll(ExchangeWith(s, sender, seqno, Now(now), Now(now)));
  }

  lemma OnlyLeader(c: Cluster, c': Cluster, a: nat, p: nat)
    requires c'.servers.Keys == c.servers.Keys && c.net <= c'.net
    requires forall s | s in c.servers && s != a :: c'.servers[s] == c.servers[s]
    ensures Only(c, c', a, [p])
  {
  }

  lemma SteadyUnfolds(acts: seq<Action>, acts': seq<Action>)
    requires Unfolds(acts, acts')
    ensures Steady(acts) ==> Steady(acts')
  {
  }

  lemma MatchedAll(s: Link)
    requires Sound(s) && MatchOf(s) == |s.leader.log|
    ensures CaughtUp(s)
  {
  }

  /** With one more entry than the peer has acknowledged the request is due, and will reach its end. */
  lemma CommandMakesDue(s: Link, s1: Link, data: seq<byte>, now: nat)
    requires CaughtUp(s) && AtEnd(s) && s1 == s.(leader := AppendCommand(s.leader, 0, data))
    ensures SendDue(s1.leader, s1.p, now) && WillMatch(s1) && Goal(s1) == |s1.leader.log|
    ensures MatchOf(s1) <= |s1.leader.log|
  {
  }
}
