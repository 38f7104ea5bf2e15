/** Whether an acknowledged write is the client's write. The leader queues a write under the index at
    which it appended it and answers when that index has been applied, without asking what stands
    there by then; the queue survives the loss of leadership. */
module Acknowledged {
  import opened Messages
  import opened Log
  import opened Protocol
  import opened Commit
  import opened Cluster
  import opened Clocks
  import opened History
  import opened Completeness
  import opened Preserve
  import opened Safety
  import opened Elections
  import opened CatchUp
  import opened Exchanges
  import opened Copying
  import opened Progress
  import opened Durable
  import opened Waiting
  import opened Routes

  /** At moment `x` leader `a` takes a command. */
  ghost predicate Taken(cfg: Config, acts: seq<Action>, x: nat, a: nat, data: seq<byte>)
    requires x < |acts| && a in cfg
  {
    acts[x] == Command(a, data) && NodeAt(cfg, acts, x, a).role == Leader
  }

  /** The entry it appends. */
  ghost function Written(cfg: Config, acts: seq<Action>, x: nat, a: nat, data: seq<byte>): Entry
    requires x < |acts| && a in cfg
  {
    Entry(NodeAt(cfg, acts, x, a).currentTerm, 0, data)
  }

  ghost function Slot(cfg: Config, acts: seq<Action>, x: nat, a: nat): nat
    requires x < |acts| && a in cfg
  {
    |NodeAt(cfg, acts, x, a).log|
  }

  lemma JustAppended(cfg: Config, acts: seq<Action>, x: nat, a: nat, data: seq<byte>)
    requires x < |acts| && a in cfg && Taken(cfg, acts, x, a, data)
    ensures NodeAt(cfg, acts, x + 1, a) == AppendCommand(NodeAt(cfg, acts, x, a), 0, data)
  {
    hide AppStep;
    RunStep(cfg, acts, x);
  }

  /** What stands at the write's index, on any server at any moment, is the client's command exactly
      when it is an entry of the term in which the leader took it. */
  lemma SlotIsCommandIff(cfg: Config, acts: seq<Action>, x: nat, a: nat, data: seq<byte>, j: nat, b: nat)
    requires ValidConfig(cfg) && x < |acts| && j <= |acts| && a in cfg && b in cfg && Taken(cfg, acts, x, a, data)
    requires Slot(cfg, acts, x, a) < |NodeAt(cfg, acts, j, b).log|
    ensures var e, slot := NodeAt(cfg, acts, j, b).log[Slot(cfg, acts, x, a)], Written(cfg, acts, x, a, data);
            e == slot <==> e.term == slot.term
  {
    hide ValidConfig, Run, NodeAt;
    JustAppended(cfg, acts, x, a, data);
    var slot := Slot(cfg, acts, x, a);
    if NodeAt(cfg, acts, j, b).log[slot].term == NodeAt(cfg, acts, x, a).currentTerm {
      LogMatching(cfg, acts, x + 1, j, a, b, slot);
    }
  }

  // --- What the process answers ---------------------------------------------------------------

  /** What TRequestProcessor keeps for its writers: the queue of waiting writes, the answers of applied
      commands, the moments of the writes that were answered, and whether an assertion has failed. */
  datatype Desk = Desk(queue: seq<Item>, answers: seq<Answer>, answered: set<nat>, failed: bool)

  /** A write taken at moment `x` waits for its index; its client is known by that moment. */
  function WriteItem(x: nat, index: nat, data: seq<byte>): Item { Item(index, 0, Request(WRITE, 0, data), x) }

  /** ProcessWaiting on the plain queue (Processor.RequestProcessor.DrainWaiting). */
  function Drained(d: Desk, applied: nat): Desk {
    if !Ready(d.queue, applied) then d
    else if WriteServed(d.queue, d.answers)
    then Desk([], From(d.answers, Last(d.queue).index + 1), d.answered + {Last(d.queue).client}, d.failed)
    else d.(failed := true)
  }

  /** Action number |acts| at the desk of `a`: a leader queues its writes, ProcessCommitted keeps the answers
      of what it applies and ProcessWaiting follows, a new process starts empty. */
  function OnDesk(cfg: Config, acts: seq<Action>, act: Action, a: nat, d: Desk): Desk
    requires a in cfg
  {
    var s := Run(cfg, acts).servers[a];
    if act.Restart? && act.id == a then Desk([], [], d.answered, false)
    else if d.failed then d
    else if act.Command? && act.id == a && s.node.role == Leader
    then d.(queue := d.queue + [WriteItem(|acts|, |s.node.log| + 1, act.data)])
    else if act.Commit? && act.id == a && s.app.lastApplied <= s.node.vol.commitIndex <= |s.node.log|
    then Drained(d.(answers := d.answers + AnswersFor(s.node.log, s.app.lastApplied, s.node.vol.commitIndex)),
                 s.node.vol.commitIndex)
    else d
  }

  function DeskAfter(cfg: Config, acts: seq<Action>, a: nat): Desk
    requires a in cfg
  {
    if acts == [] then Desk([], [], {}, false)
    else OnDesk(cfg, acts[..|acts| - 1], acts[|acts| - 1], a, DeskAfter(cfg, acts[..|acts| - 1], a))
  }

  /** By moment `j` the write taken at moment `x` has been answered, with no failing assertion before
      the answer leaves. */
  ghost predicate Acknowledged(cfg: Config, acts: seq<Action>, x: nat, j: nat, a: nat)
    requires x < j <= |acts| && a in cfg
  {
    x in DeskAfter(cfg, acts[..j], a).answered
  }

  /** The answer says the write was done, but its entry is not where it was written. */
  ghost predicate LostWrite(cfg: Config, acts: seq<Action>, x: nat, j: nat, a: nat, data: seq<byte>)
    requires x < j <= |acts| && a in cfg
  {
    var slot, log := Slot(cfg, acts, x, a), NodeAt(cfg, acts, j, a).log;
    && Taken(cfg, acts, x, a, data) && Acknowledged(cfg, acts, x, j, a)
    && !(slot < |log| && log[slot] == Written(cfg, acts, x, a, data))
  }

  /** In no run in which clocks behave is a write acknowledged that was lost. */
  ghost predicate WritesAreReal(cfg: Config) {
    forall acts: seq<Action>, x: nat, j: nat, a: nat, data: seq<byte>
      | Steady(acts) && x < j <= |acts| && a in cfg :: !LostWrite(cfg, acts, x, j, a, data)
  }

  // --- Clusters of one or two -----------------------------------------------------------------

  /** In such a cluster every server votes in every election, so the winner has what any server holds of
      an earlier leader's log. */
  lemma {:induction false} EveryWinnerHas(cfg: Config, h: History, s: nat, t: nat, k: nat, u: nat)
    requires HistoryOk(cfg, h) && cfg != map[] && |cfg| <= 2 && s in cfg
    requires Won(h, t) && LogTerm(LogOf(h, t), k) == t && Acked(h, s, t, k) && Won(h, u) && t < u
    ensures Agree(LogOf(h, t), h.elections[u].init, k)
    decreases u
  {
    hide HistoryOk, Acked;
    forall w: nat | t < w < u && Won(h, w) ensures Agree(LogOf(h, t), h.elections[w].init, k) {
      EveryWinnerHas(cfg, h, s, t, k, w);
    }
    EveryoneVotes(cfg, h, u, s);
    VoterBrings(cfg, h, s, t, k, u);
  }

  lemma EveryoneVotes(cfg: Config, h: History, u: nat, s: nat)
    requires HistoryOk(cfg, h) && Won(h, u) && |cfg| <= 2 && s in cfg
    ensures s in h.elections[u].quorum
  {
    assert ElectionOk(cfg, h, u);
    hide HistoryOk;
    var quorum := h.elections[u].quorum;
    if s !in quorum {
      assert quorum <= cfg.Keys - {s};
      SubsetSize(quorum, cfg.Keys - {s});
    }
  }

  lemma LeaderHolds(cfg: Config, h: History, id: nat, n: Node)
    requires NodeOk(cfg, h, id, n) && n.role == Leader
    ensures Won(h, n.currentTerm) && LogOf(h, n.currentTerm) == n.log && Acked(h, id, n.currentTerm, |n.log|)
  {
  }

  lemma HeldOrLost(cfg: Config, h: History, id: nat, n: Node, t: nat, k: nat)
    requires NodeOk(cfg, h, id, n) && Acked(h, id, t, k)
    ensures Won(h, t) && (Agree(LogOf(h, t), n.log, k) || Lost(h, t, k, n.currentTerm + 1))
  {
    assert Retained(h, t, k, n.log, n.currentTerm + 1);
  }

  lemma AckStays(h: History, h': History, s: nat, t: nat, k: nat)
    requires Grows(h, h') && Won(h, t) && Acked(h, s, t, k) && k <= |LogOf(h, t)|
    ensures Won(h', t) && Acked(h', s, t, k) && Agree(LogOf(h, t), LogOf(h', t), k)
  {
    assert ElectionGrows(h.elections[t], h'.elections[t]);
  }

  /** What such a server once acknowledged it holds, in any later state. */
  lemma StillHeld(cfg: Config, h: History, id: nat, n: Node, t: nat, k: nat)
    requires HistoryOk(cfg, h) && cfg != map[] && |cfg| <= 2 && id in cfg
    requires NodeOk(cfg, h, id, n) && Acked(h, id, t, k) && Won(h, t) && LogTerm(LogOf(h, t), k) == t
    ensures Agree(LogOf(h, t), n.log, k)
  {
    hide HistoryOk, NodeOk, Acked;
    HeldOrLost(cfg, h, id, n, t, k);
    if !Agree(LogOf(h, t), n.log, k) {
      var u: nat :| t < u < n.currentTerm + 1 && Won(h, u) && !Agree(LogOf(h, t), h.elections[u].init, k);
      EveryWinnerHas(cfg, h, id, t, k, u);
    }
  }

  /** In a cluster of one or two servers a command that was taken stays in the log that took it, at all
      times and through restarts, committed or not. */
  lemma SmallClusterKeeps(cfg: Config, acts: seq<Action>, x: nat, j: nat, a: nat, data: seq<byte>)
    requires ValidConfig(cfg) && |cfg| <= 2 && x < j <= |acts| && a in cfg && Taken(cfg, acts, x, a, data)
    ensures Slot(cfg, acts, x, a) < |NodeAt(cfg, acts, j, a).log|
    ensures NodeAt(cfg, acts, j, a).log[Slot(cfg, acts, x, a)] == Written(cfg, acts, x, a, data)
  {
    hide Inv, Grows, Run, HistoryOk, NodeOk, NodeAt, Acked, ValidConfig;
    var h, h', last := TwoMoments(cfg, acts, x + 1, j);
    NodeOkAt(cfg, acts, x + 1, a, h);
    NodeOkAt(cfg, acts, j, a, h');
    JustAppended(cfg, acts, x, a, data);
    var n := NodeAt(cfg, acts, x + 1, a);
    var t, k := n.currentTerm, |n.log|;
    LeaderHolds(cfg, h, a, n);
    AckStays(h, h', a, t, k);
    assert LogOf(h', t)[k - 1] == n.log[k - 1];
    StillHeld(cfg, h', a, NodeAt(cfg, acts, j, a), t, k);
  }

  // --- Three servers and more -----------------------------------------------------------------

  /** The action does not concern the desk of `a`. */
  predicate Elsewhere(act: Action, a: nat) { Timed(act) || act.Read? || act.id != a }

  /** Nor do these, and the application of `a` stays as it is. */
  lemma {:induction false} DeskUntouched(cfg: Config, acts: seq<Action>, acts': seq<Action>, a: nat)
    requires a in cfg && acts <= acts' && forall x | |acts| <= x < |acts'| :: Elsewhere(acts'[x], a)
    ensures DeskAfter(cfg, acts', a) == DeskAfter(cfg, acts, a)
    ensures Run(cfg, acts').servers[a].app == Run(cfg, acts).servers[a].app
    decreases |acts'|
  {
    hide Run, Next;
    if |acts'| == |acts| {
      assert acts' == acts;
    } else {
      var before, act := acts'[..|acts'| - 1], acts'[|acts'| - 1];
      DeskUntouched(cfg, acts, before, a);
      assert acts' == before + [act];
      RunSnoc(cfg, before, act);
      SameApp(cfg, Run(cfg, before), act, a);
    }
  }

  lemma SameApp(cfg: Config, c: Cluster, act: Action, a: nat)
    requires a in c.servers && Elsewhere(act, a)
    ensures a in Next(cfg, c, act).servers && Next(cfg, c, act).servers[a].app == c.servers[a].app
  {
    hide NodeStep;
  }

  /** Every other server, without its first. */
  lemma RestOfPeers(cfg: Config, a: nat) returns (d: nat, q: seq<nat>)
    requires ValidConfig(cfg) && a in cfg && |cfg| >= 3
    ensures Quorum(cfg, a, cfg[a]) && Quorum(cfg, d, q) && d in cfg[a] && d != a && a !in q
    ensures forall p | p in q :: p in cfg[a]
  {
    AllPeersUp(cfg, a);
    PeerCount(cfg, a);
    d, q := cfg[a][0], cfg[a][1..];
    PeerCount(cfg, d);
    assert ValidPeers(cfg, a);
    DistinctTail(cfg[a]);
  }

  /** `a` wins from the start. */
  lemma FirstLeader(cfg: Config, a: nat) returns (acts: seq<Action>)
    requires a in cfg && Quorum(cfg, a, cfg[a])
    ensures Unfolds([], acts)
    ensures var c := Run(cfg, acts);
            var n := c.servers[a].node;
            && n.role == Leader && |n.log| == 1 && n.log[0].term == n.currentTerm
            && forall p | p in cfg[a] :: p in cfg && Joined(c.servers[p].node, n.currentTerm) && c.servers[p].node.log == []
  {
    hide Run, ValidConfig, Distinct, MinVotes, Unfolds, UpToDate;
    StartingQuorum(cfg, a, cfg[a]);
    acts := WinElection(cfg, [], a, cfg[a]);
    EmptyLogs(cfg);
  }

  lemma EmptyLogs(cfg: Config)
    ensures forall s | s in cfg :: Run(cfg, []).servers[s].node.log == []
  {
  }

  /** `d` leads `a` and has committed a log of two entries, both other than those of `a`. */
  ghost predicate Overtaken(cfg: Config, c: Cluster, a: nat, d: nat) {
    && Leads(cfg, c, d, a)
    && |c.servers[a].node.log| == 2 && c.servers[a].node.log[1].data == []
    && var m := c.servers[d].node;
       |m.log| == 2 == m.vol.commitIndex && m.log[1].data == [1] && m.log[1].flags == 0
       && m.log[0] != c.servers[a].node.log[0]
  }

  /** `a` takes a write, alone; then `d` wins the next election without it and commits a command. */
  lemma SecondLeader(cfg: Config, won: seq<Action>, a: nat, d: nat, q: seq<nat>)
    returns (led: seq<Action>, acts: seq<Action>)
    requires a in cfg && Quorum(cfg, d, q) && d in cfg[a] && d != a && a !in q && forall p | p in q :: p in cfg[a]
    requires var c := Run(cfg, won);
             var n := c.servers[a].node;
             && n.role == Leader && |n.log| == 1 && n.log[0].term == n.currentTerm
             && forall p | p in cfg[a] :: p in cfg && Joined(c.servers[p].node, n.currentTerm) && c.servers[p].node.log == []
    ensures Unfolds(won + [Command(a, [])], led) && Unfolds(led + [Command(d, [1])], acts)
    ensures Overtaken(cfg, Run(cfg, acts), a, d)
  {
    hide Run, Next, ValidConfig, Distinct, MinVotes, Unfolds;
    var taken := won + [Command(a, [])];
    var c := Run(cfg, taken);
    RunSnoc(cfg, won, Command(a, []));
    NextDoes(cfg, Run(cfg, won), Command(a, []));
    led := WinElection(cfg, taken, d, q);
    ElectedLeads(cfg, c, Run(cfg, led), d, q);
    acts := CommitCommand(cfg, led, d, q, [1]);
    OnlyTrans(Run(cfg, taken), Run(cfg, led), Run(cfg, acts), d, q);
  }

  lemma NotCaughtUp(s: Link, k: nat)
    requires 1 <= k <= |s.leader.log| && k <= |s.follower.log| && s.leader.log[k - 1] != s.follower.log[k - 1]
    requires |s.leader.log| == k
    ensures !CaughtUp(s)
  {
  }

  lemma UpToDateEntry(s: Link, k: nat)
    requires CaughtUp(s) && 1 <= k <= |s.leader.log|
    ensures k <= |s.follower.log| && s.follower.log[k - 1] == s.leader.log[k - 1]
  {
  }

  lemma LeaderKept(n: Node, n': Node, p: nat)
    requires SameButView(n, n', p)
    ensures n'.log == n.log && n'.vol.commitIndex >= n.vol.commitIndex
  {
  }

  /** `d` brings `a` up to date and tells it how much is committed. */
  lemma Overwritten(cfg: Config, acts: seq<Action>, a: nat, d: nat) returns (acts': seq<Action>)
    requires ValidConfig(cfg) && Overtaken(cfg, Run(cfg, acts), a, d)
    ensures Unfolds(acts, acts') && a in cfg
    ensures var n, n' := Run(cfg, acts).servers[a].node, Run(cfg, acts').servers[a].node;
            && n'.vol.commitIndex >= 2 && |n'.log| >= 2 && n'.log[1].data == [1] && n'.log[1].flags == 0
            && n.log != [] && n'.log[0] != n.log[0]
  {
    hide Run, ValidConfig, CaughtUp, AtEnd, Sound, OnlySent, ExchangeWith, SameButView, Leads, Only, Unfolds;
    LeadsOther(cfg, Run(cfg, acts), d, a);
    var m := Run(cfg, acts).servers[d].node;
    NotCaughtUp(LinkOf(cfg, Run(cfg, acts), d, a), 2);
    var caught := CatchUpInRun(cfg, acts, d, a);
    LeaderKept(m, Run(cfg, caught).servers[d].node, a);
    LinkIsSound(cfg, caught, d, a);
    LeaderInRange(cfg, caught, d) by { LeadsOther(cfg, Run(cfg, caught), d, a); }
    var sender, seqno, now;
    acts', sender, seqno, now := OneExchange(cfg, caught, d, a);
    FollowerCommits(LinkOf(cfg, Run(cfg, caught), d, a), sender, seqno, Now(now));
    UpToDateEntry(LinkOf(cfg, Run(cfg, acts'), d, a), 1);
    UpToDateEntry(LinkOf(cfg, Run(cfg, acts'), d, a), 2);
    UnfoldsTrans(acts, caught, acts');
  }

  /** The run: `a` wins and takes a write, `d` wins and commits another command, `a` hears of it and applies. */
  ghost predicate Story(won: seq<Action>, led: seq<Action>, told: seq<Action>, a: nat, d: nat) {
    Unfolds([], won) && Unfolds(won + [Command(a, [])], led) && Unfolds(led + [Command(d, [1])], told)
  }

  /** In it `a` takes this write only, and is asked for and restarted nothing. */
  ghost predicate OnlyWrite(acts: seq<Action>, x: nat, a: nat) {
    forall y | 0 <= y < |acts| && y != x ::
      !(acts[y].Command? && acts[y].id == a) && acts[y] != Read(a) && acts[y] != Restart(a)
  }

  lemma StorySteady(won: seq<Action>, led: seq<Action>, told: seq<Action>, a: nat, d: nat)
    requires Story(won, led, told, a, d)
    ensures Steady(told) && Steady(told + [Commit(a)])
  {
    SteadySnoc(won, Command(a, []));
    SteadySnoc(led, Command(d, [1]));
    SteadySnoc(told, Commit(a));
    assert Steady([]);
  }

  /** What happens before and after the write is no concern of the desk of `a`. */
  lemma StoryElsewhere(won: seq<Action>, led: seq<Action>, told: seq<Action>, a: nat, d: nat)
    requires Story(won, led, told, a, d) && a != d
    ensures won + [Command(a, [])] <= told
    ensures forall y | 0 <= y < |told| && y != |won| :: Elsewhere(told[y], a) && !told[y].Read?
  {
    hide Steady;
    var one, two := won + [Command(a, [])], led + [Command(d, [1])];
    forall y | 0 <= y < |told| && y != |won| ensures Elsewhere(told[y], a) && !told[y].Read? {
      if y < |won| {
        assert told[y] == two[y] == led[y] == one[y] == won[y];
      } else if y < |led| {
        assert told[y] == two[y] == led[y];
      } else if y == |led| {
        assert told[y] == two[y];
      }
    }
  }

  lemma StoryOnlyWrite(won: seq<Action>, told: seq<Action>, a: nat)
    requires won + [Command(a, [])] <= told
    requires forall y | 0 <= y < |told| && y != |won| :: Elsewhere(told[y], a) && !told[y].Read?
    ensures var acts := told + [Commit(a)];
            acts[..|won|] == won && acts[|won|] == Command(a, []) && OnlyWrite(acts, |won|, a)
  {
    var acts, one := told + [Commit(a)], won + [Command(a, [])];
    assert acts[|won|] == told[|won|] == one[|won|];
    assert acts[..|won|] == one[..|won|] == won;
    forall y | 0 <= y < |acts| && y != |won|
      ensures !(acts[y].Command? && acts[y].id == a) && acts[y] != Read(a) && acts[y] != Restart(a)
    {
      if y < |told| { assert acts[y] == told[y]; }
    }
  }

  /** Before it applies anything, the write waits alone at the desk of `a`. */
  lemma StoryQueue(cfg: Config, won: seq<Action>, told: seq<Action>, a: nat)
    requires a in cfg && won + [Command(a, [])] <= told
    requires forall y | 0 <= y < |told| && y != |won| :: Elsewhere(told[y], a)
    requires Run(cfg, won).servers[a].node.role == Leader && |Run(cfg, won).servers[a].node.log| == 1
    ensures DeskAfter(cfg, told, a) == Desk([WriteItem(|won|, 2, [])], [], {}, false)
    ensures Run(cfg, told).servers[a].app == App(0, [])
  {
    hide Run, Elsewhere;
    var taken := won + [Command(a, [])];
    forall y | 0 <= y < |won| ensures Elsewhere(won[y], a) { assert told[y] == taken[y] == won[y]; }
    DeskUntouched(cfg, [], won, a);
    assert taken[..|taken| - 1] == won;
    DeskUntouched(cfg, taken, told, a);
    RunSnoc(cfg, won, Command(a, []));
    AppAtStart(cfg, a);
    SameAppCommand(cfg, Run(cfg, won), a);
  }

  /** When it applies the entry at its index, it answers the write. */
  lemma StoryDesk(cfg: Config, told: seq<Action>, a: nat, x: nat)
    requires a in cfg && DeskAfter(cfg, told, a) == Desk([WriteItem(x, 2, [])], [], {}, false)
    requires Run(cfg, told).servers[a].app == App(0, [])
    requires var n := Run(cfg, told).servers[a].node;
             2 <= n.vol.commitIndex <= |n.log| && n.log[1].flags == 0
    ensures DeskAfter(cfg, told + [Commit(a)], a).answered == {x} && !DeskAfter(cfg, told + [Commit(a)], a).failed
  {
    hide Run, Drained;
    var s := Run(cfg, told).servers[a];
    var acts := told + [Commit(a)];
    assert acts[..|acts| - 1] == told;
    var answers := AnswersFor(s.node.log, 0, s.node.vol.commitIndex);
    assert [] + answers == answers;
    WriteDrained(s.node.log, s.node.vol.commitIndex, x);
  }

  lemma WriteDrained(log: seq<Entry>, applied: nat, x: nat)
    requires 2 <= applied <= |log| && log[1].flags == 0
    ensures var d := Drained(Desk([WriteItem(x, 2, [])], AnswersFor(log, 0, applied), {}, false), applied);
            d.answered == {x} && !d.failed
  {
    hide AnswersFor;
    AnswerIffCommand(log, 0, applied, 2);
    var answers := AnswersFor(log, 0, applied);
    var i :| 0 <= i < |answers| && answers[i] == Answer(2);
    assert Kept(answers, 2);
  }

  lemma AppAtStart(cfg: Config, a: nat)
    requires a in cfg
    ensures Run(cfg, []).servers[a].app == App(0, [])
  {
  }

  lemma SameAppCommand(cfg: Config, c: Cluster, a: nat)
    requires a in c.servers
    ensures a in Next(cfg, c, Command(a, [])).servers
    ensures Next(cfg, c, Command(a, [])).servers[a].app == c.servers[a].app
  {
    hide NodeStep;
  }

  /** From `n` to `n'` the log of a server was replaced, and what replaced it is committed. */
  ghost predicate Replaced(n: Node, n': Node) {
    && 2 <= n'.vol.commitIndex <= |n'.log| && n'.log[1].data == [1] && n'.log[1].flags == 0
    && n.log != [] && n'.log[0] != n.log[0]
  }

  /** Such a run exists, up to the application: `cut` is when `d` has committed its command. */
  lemma TellStory(cfg: Config)
    returns (won: seq<Action>, led: seq<Action>, cut: seq<Action>, told: seq<Action>, a: nat, d: nat)
    requires ValidConfig(cfg) && |cfg| >= 3
    ensures Story(won, led, told, a, d) && a in cfg && a != d && cut <= told
    ensures Run(cfg, won).servers[a].node.role == Leader && |Run(cfg, won).servers[a].node.log| == 1
    ensures Replaced(Run(cfg, cut).servers[a].node, Run(cfg, told).servers[a].node)
  {
    hide Run, ValidConfig, Steady, Unfolds, Leads, Quorum, Joined;
    a :| a in cfg;
    var q;
    d, q := RestOfPeers(cfg, a);
    won := FirstLeader(cfg, a);
    led, cut := SecondLeader(cfg, won, a, d, q);
    told := Overwritten(cfg, cut, a, d);
    UnfoldsTrans(led + [Command(d, [1])], cut, told);
    assert cut <= told by { UnfoldsExtends(cut, told); }
    InLog(cfg, told, a);
  }

  lemma UnfoldsExtends(acts: seq<Action>, acts': seq<Action>)
    requires Unfolds(acts, acts')
    ensures acts <= acts'
  {
  }

  /** In every cluster of three or more servers some run acknowledges a write that was lost, and no
      clock goes back in it: the leader is cut off after taking it, the others commit another command
      at its index, and the leader, back as a follower, applies that command and answers. It is the
      only request the leader ever had, so nothing else waits in its queue. */
  lemma LossRun(cfg: Config) returns (acts: seq<Action>, x: nat, a: nat)
    requires ValidConfig(cfg) && |cfg| >= 3
    ensures Steady(acts) && x < |acts| && a in cfg && OnlyWrite(acts, x, a) && LostWrite(cfg, acts, x, |acts|, a, [])
    ensures !DeskAfter(cfg, acts, a).failed
  {
    hide Run, ValidConfig, DeskAfter, Steady, Unfolds, OnlyWrite, Elsewhere, Story;
    var won, led, cut, told, d;
    won, led, cut, told, a, d := TellStory(cfg);
    StorySteady(won, led, told, a, d);
    StoryElsewhere(won, led, told, a, d);
    StoryOnlyWrite(won, told, a);
    StoryQueue(cfg, won, told, a);
    x := |won|;
    StoryDesk(cfg, told, a, x);
    acts := told + [Commit(a)];
    WasLost(cfg, won, told, a);
  }

  lemma InLog(cfg: Config, acts: seq<Action>, a: nat)
    requires ValidConfig(cfg) && a in cfg
    ensures var n := Run(cfg, acts).servers[a].node; n.vol.commitIndex <= |n.log|
  {
    hide Run, NodeAt, ValidConfig;
    EndOfRun(cfg, acts, a);
    CommittedNeverRemoved(cfg, acts, |acts|, |acts|, a);
  }

  lemma WasLost(cfg: Config, won: seq<Action>, told: seq<Action>, a: nat)
    requires ValidConfig(cfg) && a in cfg && |won| < |told|
    requires var acts := told + [Commit(a)];
             && acts[..|won|] == won && acts[|won|] == Command(a, [])
             && DeskAfter(cfg, acts, a).answered == {|won|}
    requires Run(cfg, won).servers[a].node.role == Leader && |Run(cfg, won).servers[a].node.log| == 1
    requires var n := Run(cfg, told).servers[a].node; |n.log| >= 2 && n.log[1].data == [1]
    ensures LostWrite(cfg, told + [Commit(a)], |won|, |told| + 1, a, [])
  {
    hide Run, ValidConfig, DeskAfter, NodeAt, Taken, Slot;
    var acts := told + [Commit(a)];
    LastNode(cfg, told, a);
    LeaderMoment(cfg, acts, won, a);
    AnsweredAtEnd(cfg, acts, |won|, a);
    hide Acknowledged;
  }

  lemma AnsweredAtEnd(cfg: Config, acts: seq<Action>, x: nat, a: nat)
    requires a in cfg && x < |acts| && x in DeskAfter(cfg, acts, a).answered
    ensures Acknowledged(cfg, acts, x, |acts|, a)
  {
    hide DeskAfter;
    assert acts[..|acts|] == acts;
  }

  lemma LeaderMoment(cfg: Config, acts: seq<Action>, won: seq<Action>, a: nat)
    requires a in cfg && |won| < |acts| && acts[..|won|] == won && acts[|won|] == Command(a, [])
    requires Run(cfg, won).servers[a].node.role == Leader && |Run(cfg, won).servers[a].node.log| == 1
    ensures Taken(cfg, acts, |won|, a, []) && Slot(cfg, acts, |won|, a) == 1
  {
    hide Run, NodeAt;
    EndOfRun(cfg, won, a);
    SameMoment(cfg, acts, won, |won|, a);
  }

  lemma LastNode(cfg: Config, told: seq<Action>, a: nat)
    requires a in cfg
    ensures var acts := told + [Commit(a)]; NodeAt(cfg, acts, |acts|, a) == Run(cfg, told).servers[a].node
  {
    hide Run, Next, NodeAt;
    CommitStep(cfg, Run(cfg, told), a);
    RunSnoc(cfg, told, Commit(a));
    EndOfRun(cfg, told + [Commit(a)], a);
  }

  lemma SameMoment(cfg: Config, acts: seq<Action>, before: seq<Action>, i: nat, a: nat)
    requires a in cfg && i <= |before| && before <= acts
    ensures NodeAt(cfg, acts, i, a) == NodeAt(cfg, before, i, a)
  {
    assert acts[..i] == before[..i];
  }

  /** An acknowledged write is the client's write, in every run in which clocks behave, exactly in clusters
      of one or two servers; there it is whatever the clocks do (SmallClusterKeeps). */
  lemma WritesAreRealIff(cfg: Config)
    requires ValidConfig(cfg)
    ensures WritesAreReal(cfg) <==> |cfg| <= 2
  {
    hide ValidConfig, Run, Steady, Acknowledged, DeskAfter, OnlyWrite;
    if |cfg| <= 2 {
      forall acts: seq<Action>, x: nat, j: nat, a: nat, data: seq<byte> | Steady(acts) && x < j <= |acts| && a in cfg
        ensures !LostWrite(cfg, acts, x, j, a, data)
      {
        if Taken(cfg, acts, x, a, data) { SmallClusterKeeps(cfg, acts, x, j, a, data); }
      }
    } else {
      var acts, x, a := LossRun(cfg);
      assert LostWrite(cfg, acts, x, |acts|, a, []);
    }
  }
}
