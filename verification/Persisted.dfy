/** The log of a server in a run of the cluster, as operations on its disk. TDiskState loses an entry
    that is appended to an emptied log in a session that has used the entries file (DiskRuns); here is
    when the protocol asks for that. */
module Persisted {
  import opened Messages
  import opened Log
  import opened Protocol
  import opened Cluster
  import opened History
  import opened Preserve
  import opened PreserveElection
  import opened Clocks
  import opened Safety
  import opened Durable
  import opened Elections
  import opened Acknowledged
  import opened LogOps
  import D = Disk
  import R = DiskRuns

  // --- A server in a run ----------------------------------------------------------------------

  /** A request whose payload the server runs its loop over. */
  predicate Places(n: Node, act: Action) {
    && act.Deliver? && act.m.Append? && act.m.term >= n.currentTerm
    && Matches(n.log, act.m.prevLogIndex, act.m.prevLogTerm)
  }

  /** The changes of the log of `a` in one action. */
  function StepOps(cfg: Config, c: Cluster, act: Action, a: nat): seq<R.Op>
    requires a in cfg && a in c.servers
  {
    if Target(act) != a then []
    else
      var n, log' := c.servers[a].node, NodeStep(cfg, c, act).node.log;
      if Places(n, act) && act.m in c.net then ReplayOps(n.log, act.m.prevLogIndex, act.m.entries)
      else if |log'| > |n.log| then [R.Append(log'[|log'| - 1])]
      else []
  }

  /** Any other action appends one entry or none. */
  lemma OtherSteps(cfg: Config, c: Cluster, act: Action)
    requires Target(act) in cfg && Target(act) in c.servers
    ensures var n, log' := c.servers[Target(act)].node, NodeStep(cfg, c, act).node.log;
            if Places(n, act) && act.m in c.net then log' == Replay(n.log, act.m.prevLogIndex, act.m.entries)
            else log' == n.log || exists e :: log' == n.log + [e]
  {
    hide Process, ProcessTimeout, ApproveRead, Replay, Matches, LogTerm;
    var id := Target(act);
    var n := c.servers[id].node;
    match act
    case Deliver(m, t) => ProcessLog(id, cfg[id], n, m, t);
    case Timeout(_, t) => TimeoutForward(id, cfg[id], n, t);
    case _ =>
  }

  lemma StepOpsStep(cfg: Config, c: Cluster, act: Action, a: nat, k: nat)
    requires a in cfg && c.servers.Keys == cfg.Keys
    requires Agree(c.servers[a].node.log, Next(cfg, c, act).servers[a].node.log, k)
    ensures var log, ops := c.servers[a].node.log, StepOps(cfg, c, act, a);
            LogFrom(log, ops) == Next(cfg, c, act).servers[a].node.log && KeepsFirst(log, ops, k)
  {
    hide NodeStep, AppStep, Replay, ReplayOps, Matches;
    var n := c.servers[a].node;
    if Target(act) == a {
      OtherSteps(cfg, c, act);
      var log' := NodeStep(cfg, c, act).node.log;
      if Places(n, act) && act.m in c.net {
        ReplayOpsReplay(n.log, act.m.prevLogIndex, act.m.entries, k);
      } else if |log'| > |n.log| {
        var e :| log' == n.log + [e];
        AppendOne(n.log, e);
      }
    }
  }

  /** The changes of the log of `a` in a whole run. */
  function RunOps(cfg: Config, acts: seq<Action>, a: nat): seq<R.Op>
    requires a in cfg
  {
    if acts == [] then []
    else
      var before := acts[..|acts| - 1];
      RunOps(cfg, before, a) + StepOps(cfg, Run(cfg, before), acts[|acts| - 1], a)
  }

  lemma {:induction false} RunOpsLog(cfg: Config, acts: seq<Action>, a: nat)
    requires a in cfg
    ensures LogFrom([], RunOps(cfg, acts, a)) == Run(cfg, acts).servers[a].node.log
  {
    if acts != [] {
      hide StepOps, LogFrom, Next;
      var before, act := acts[..|acts| - 1], acts[|acts| - 1];
      RunOpsLog(cfg, before, a);
      StepOpsStep(cfg, Run(cfg, before), act, a, 0);
      LogFromConcat([], RunOps(cfg, before, a), StepOps(cfg, Run(cfg, before), act, a));
    }
  }

  /** From moment `i` on the changes never touch what was committed then. */
  lemma {:induction false} RunOpsKeep(cfg: Config, acts: seq<Action>, a: nat, i: nat)
    requires ValidConfig(cfg) && a in cfg && i <= |acts|
    ensures var from, ops := RunOps(cfg, acts[..i], a), RunOps(cfg, acts, a);
            && from <= ops
            && forall k | |from| <= k <= |ops| ::
                 Agree(NodeAt(cfg, acts, i, a).log, LogFrom([], ops[..k]), NodeAt(cfg, acts, i, a).vol.commitIndex)
    decreases |acts|
  {
    hide ValidConfig, Run, StepOps, LogFrom, NodeAt;
    var c, log := NodeAt(cfg, acts, i, a).vol.commitIndex, NodeAt(cfg, acts, i, a).log;
    var from, ops := RunOps(cfg, acts[..i], a), RunOps(cfg, acts, a);
    CommittedNeverRemoved(cfg, acts, i, |acts|, a);
    EndOfRun(cfg, acts, a);
    RunOpsLog(cfg, acts, a);
    assert ops[..|ops|] == ops;
    if i == |acts| {
      assert acts[..i] == acts;
    } else {
      var before, act := acts[..|acts| - 1], acts[|acts| - 1];
      assert acts[..i] == before[..i];
      SameMoment(cfg, acts, before, i, a);
      RunOpsKeep(cfg, before, a, i);
      forall k | |from| <= k <= |ops| ensures Agree(log, LogFrom([], ops[..k]), c) {
        if k <= |RunOps(cfg, before, a)| {
          assert ops[..k] == RunOps(cfg, before, a)[..k];
        } else {
          LastOpsKeep(cfg, acts, a, i, k);
        }
      }
    }
  }

  /** The same within the last action. */
  lemma LastOpsKeep(cfg: Config, acts: seq<Action>, a: nat, i: nat, k: nat)
    requires ValidConfig(cfg) && a in cfg && i < |acts|
    requires |RunOps(cfg, acts[..|acts| - 1], a)| < k <= |RunOps(cfg, acts, a)|
    ensures var n := NodeAt(cfg, acts, i, a); Agree(n.log, LogFrom([], RunOps(cfg, acts, a)[..k]), n.vol.commitIndex)
  {
    hide ValidConfig, Run, StepOps, LogFrom, NodeAt, Next;
    var n := |acts| - 1;
    var c, log := NodeAt(cfg, acts, i, a).vol.commitIndex, NodeAt(cfg, acts, i, a).log;
    var before, act := acts[..n], acts[n];
    var done, step := RunOps(cfg, before, a), StepOps(cfg, Run(cfg, before), act, a);
    CommittedNeverRemoved(cfg, acts, i, n, a);
    CommittedNeverRemoved(cfg, acts, i, n + 1, a);
    EndOfRun(cfg, acts, a);
    EndOfRun(cfg, before, a);
    SameMoment(cfg, acts, before, n, a);
    RunSnoc(cfg, before, act);
    assert acts == before + [act];
    RunOpsLog(cfg, before, a);
    StepOpsStep(cfg, Run(cfg, before), act, a, c);
    assert RunOps(cfg, acts, a)[..k] == done + step[..k - |done|];
    LogFromConcat([], done, step[..k - |done|]);
    assert Agree(Run(cfg, before).servers[a].node.log, LogFrom(Run(cfg, before).servers[a].node.log, step[..k - |done|]), c);
  }

  // --- What the disk goes through -------------------------------------------------------------

  /** The disk of `a` may have gone through `ops` in the run: its log changed as the run has it, with
      reads, votes and reopenings anywhere in between. */
  ghost predicate Undergone(cfg: Config, acts: seq<Action>, a: nat, ops: seq<R.Op>)
    requires a in cfg
  {
    Changes(ops) == RunOps(cfg, acts, a)
  }

  /** Once an entry is committed it is never touched on the disk again, not even for a moment in the
      middle of a request. */
  lemma CommittedStaysOnDisk(cfg: Config, acts: seq<Action>, a: nat, i: nat, ops: seq<R.Op>, y: nat)
    requires ValidConfig(cfg) && a in cfg && i <= |acts| && Undergone(cfg, acts, a, ops)
    requires y <= |ops| && |Changes(ops[..y])| >= |RunOps(cfg, acts[..i], a)|
    ensures Agree(NodeAt(cfg, acts, i, a).log, R.LogAfter(ops[..y]), NodeAt(cfg, acts, i, a).vol.commitIndex)
  {
    hide ValidConfig, Run, NodeAt, LogFrom;
    RunOpsKeep(cfg, acts, a, i);
    MomentOf(cfg, acts, a, ops, y);
  }

  /** A server that has committed anything never meets the fault from then on, restarts included: the
      disk holds its log, provided that it did when the first entry was committed. */
  lemma DiskHoldsLog(cfg: Config, acts: seq<Action>, a: nat, i: nat, ops: seq<R.Op>, z: nat, k: int)
    requires ValidConfig(cfg) && a in cfg && i <= |acts| && Undergone(cfg, acts, a, ops) && R.SmallRun(ops)
    requires NodeAt(cfg, acts, i, a).vol.commitIndex >= 1
    requires z <= |ops| && |Changes(ops[..z])| >= |RunOps(cfg, acts[..i], a)| && R.Careful(ops[..z])
    ensures R.Careful(ops)
    ensures var d, log := R.DiskAfter(ops), Run(cfg, acts).servers[a].node.log;
            && d.lastLogIndex == |log|
            && D.Get(d, k) == (if 1 <= k <= |log| then D.Found(log[k - 1], D.Start(log, k)) else D.Missing)
  {
    hide ValidConfig, Run, NodeAt, R.SmallRun, D.Get, R.LogAfter, R.DiskAfter, R.CarefulAt;
    forall y | 0 <= y < |ops| ensures R.CarefulAt(ops, y) {
      if y < z {
        CarefulBefore(ops, z, y);
      } else {
        assert ops[..y][..z] == ops[..z];
        ChangesPrefix(ops[..y], z);
        CommittedStaysOnDisk(cfg, acts, a, i, ops, y);
        NotEmpty(ops, y);
      }
    }
    R.DiskRefinesLog(ops, k);
    LogAfterIs(ops);
    ChangesChange([], ops);
    RunOpsLog(cfg, acts, a);
  }

  lemma {:induction false} RunEndsInAppend(cfg: Config, acts: seq<Action>, a: nat)
    requires a in cfg
    ensures EndsInAppend(RunOps(cfg, acts, a))
  {
    hide Run, NodeStep, ReplayOps, Places;
    if acts != [] {
      var c, act := Run(cfg, acts[..|acts| - 1]), acts[|acts| - 1];
      RunEndsInAppend(cfg, acts[..|acts| - 1], a);
      StepEndsInAppend(cfg, c, act, a);
      var step := StepOps(cfg, c, act, a);
      assert step == [] ==> RunOps(cfg, acts, a) == RunOps(cfg, acts[..|acts| - 1], a);
    }
  }

  lemma StepEndsInAppend(cfg: Config, c: Cluster, act: Action, a: nat)
    requires a in cfg && a in c.servers
    ensures EndsInAppend(StepOps(cfg, c, act, a))
  {
    hide NodeStep, ReplayOps, Matches;
    var n := c.servers[a].node;
    if Target(act) == a && Places(n, act) { ReplayEndsInAppend(n.log, act.m.prevLogIndex, act.m.entries); }
  }

  /** The cached last term, which a removal leaves stale, is right at every moment of a run: the loop
      removes only to append. A candidate that asks for votes over a disk says the right last term. */
  lemma CachedTermRight(cfg: Config, acts: seq<Action>, a: nat, ops: seq<R.Op>)
    requires a in cfg && Undergone(cfg, acts, a, ops) && R.Careful(ops) && R.SmallRun(ops)
    ensures R.DiskAfter(ops).lastLogTerm == LastTerm(Run(cfg, acts).servers[a].node.log)
  {
    hide Run, R.Careful, R.SmallRun, RunOps, Changes;
    RunEndsInAppend(cfg, acts, a);
    R.CachedIs(ops);
    CachedRight(ops);
    LogAfterIs(ops);
    ChangesChange([], ops);
    RunOpsLog(cfg, acts, a);
  }

  // --- Before the first commit ----------------------------------------------------------------

  lemma {:induction false} RunOnlyChanges(cfg: Config, acts: seq<Action>, a: nat)
    requires a in cfg
    ensures OnlyChanges(RunOps(cfg, acts, a))
  {
    hide Run, NodeStep, ReplayOps, Places;
    if acts != [] {
      var c, act := Run(cfg, acts[..|acts| - 1]), acts[|acts| - 1];
      RunOnlyChanges(cfg, acts[..|acts| - 1], a);
      StepOnlyChanges(cfg, c, act, a);
    }
  }

  lemma StepOnlyChanges(cfg: Config, c: Cluster, act: Action, a: nat)
    requires a in cfg && a in c.servers
    ensures OnlyChanges(StepOps(cfg, c, act, a))
  {
    hide NodeStep, ReplayOps, Matches;
    var n := c.servers[a].node;
    if Target(act) == a && Places(n, act) { ReplayOnlyChanges(n.log, act.m.prevLogIndex, act.m.entries); }
  }

  /** Before its first commit a server can meet the fault: in every cluster of three or more servers some
      run has a server append to its emptied log in a session that has used the file. It had taken
      entries of a leader that nobody else heard of. */
  lemma CarelessRun(cfg: Config) returns (acts: seq<Action>, a: nat)
    requires ValidConfig(cfg) && |cfg| >= 3
    ensures Steady(acts) && a in cfg && Undergone(cfg, acts, a, RunOps(cfg, acts, a)) && !R.Careful(RunOps(cfg, acts, a))
  {
    hide ValidConfig, Run, Steady, Story, R.Careful, R.LogAfter, OnlyChanges, Changes, NodeAt, RunOps;
    var won, led, cut, d;
    won, led, cut, acts, a, d := TellStory(cfg);
    StorySteady(won, led, acts, a, d);
    var ops, all := RunOps(cfg, cut, a), RunOps(cfg, acts, a);
    RunOpsKeep(cfg, acts, a, |cut|);
    assert acts[..|cut|] == cut;
    RunOnlyChanges(cfg, acts, a);
    AllChanges(all);
    RunOpsLog(cfg, cut, a);
    RunOpsLog(cfg, acts, a);
    LogAfterIs(ops);
    LogAfterIs(all);
    assert all == ops + all[|ops|..];
    if R.Careful(all) { FirstStays(ops, all[|ops|..]); }
  }

  // --- Clusters of one or two -----------------------------------------------------------------

  lemma EmptyStep(cfg: Config, c: Cluster, act: Action, a: nat)
    requires a in cfg && c.servers.Keys == cfg.Keys && c.servers[a].node.log == []
    ensures NeverEmptied([], StepOps(cfg, c, act, a))
  {
    hide NodeStep, ReplayOps, LogFrom;
    var n, ops := c.servers[a].node, StepOps(cfg, c, act, a);
    if Target(act) == a && Places(n, act) && act.m in c.net { ReplayOnEmpty(act.m.entries); }
    assert OnlyAppends(ops);
    forall j, k | 0 <= j <= k <= |ops| && LogFrom([], ops[..j]) != [] ensures LogFrom([], ops[..k]) != [] {
      AppendsGrow([], ops, j);
      AppendsGrow([], ops, k);
    }
  }

  /** In such a cluster every later winner starts with the first entry of every earlier leader: that
      leader voted for it. */
  lemma WinnersShareFirst(cfg: Config, h: History, t: nat, u: nat)
    requires HistoryOk(cfg, h) && cfg != map[] && |cfg| <= 2 && Won(h, t) && Won(h, u) && t <= u
    ensures Agree(LogOf(h, t), LogOf(h, u), 1)
  {
    assert ElectionOk(cfg, h, t) && ElectionOk(cfg, h, u);
    hide HistoryOk;
    if t < u {
      var e := h.elections[t];
      EveryWinnerHas(cfg, h, e.leader, t, |e.init| + 1, u);
    }
  }

  lemma SharesFirst(cfg: Config, h: History, log: seq<Entry>, u: nat)
    requires HistoryOk(cfg, h) && cfg != map[] && |cfg| <= 2
    requires LogOk(h, log) && log != [] && log[0].term <= u && Won(h, u)
    ensures Agree(log, LogOf(h, u), 1)
  {
    assert EntryOk(h, log, 0);
    hide HistoryOk, LogOk;
    WinnersShareFirst(cfg, h, log[0].term, u);
  }

  /** So no request ever replaces the first entry of a server. */
  lemma StepKeepsFirst(cfg: Config, c: Cluster, h: History, act: Action)
    requires ValidConfig(cfg) && |cfg| <= 2 && Inv(cfg, c, h) && Target(act) in cfg
    requires c.servers[Target(act)].node.log != []
    ensures Agree(c.servers[Target(act)].node.log, NodeStep(cfg, c, act).node.log, 1)
  {
    hide Inv, ValidConfig, HistoryOk, NodeStep, Replay, LogOk, Matches, Before, MessageOk;
    BeforeStep(cfg, c, h, act);
    var n := c.servers[Target(act)].node;
    OtherSteps(cfg, c, act);
    if Places(n, act) && act.m in c.net {
      FirstEntryOld(cfg, h, Target(act), n, act.m);
      FirstPlaced(cfg, h, n.log, act.m);
    }
  }

  lemma FirstEntryOld(cfg: Config, h: History, id: nat, n: Node, m: Message)
    requires Before(cfg, h, id, n) && n.log != [] && m.Append? && m.term >= n.currentTerm && MessageOk(cfg, h, m)
    ensures HistoryOk(cfg, h) && cfg != map[] && LogOk(h, n.log) && n.log[0].term <= m.term && AppendOk(cfg, h, m)
  {
  }

  lemma FirstPlaced(cfg: Config, h: History, log: seq<Entry>, m: Message)
    requires HistoryOk(cfg, h) && cfg != map[] && |cfg| <= 2 && LogOk(h, log) && log != []
    requires m.Append? && AppendOk(cfg, h, m) && Matches(log, m.prevLogIndex, m.prevLogTerm) && log[0].term <= m.term
    ensures Agree(log, Replay(log, m.prevLogIndex, m.entries), 1)
  {
    hide HistoryOk, LogOk, Replay, Matches;
    assert Won(h, m.term);
    ReplayAsLeader(cfg, h, log, m);
    SharesFirst(cfg, h, log, m.term);
  }

  lemma {:induction false} RunNeverEmptied(cfg: Config, acts: seq<Action>, hs: seq<History>, a: nat, i: nat)
    requires ValidConfig(cfg) && |cfg| <= 2 && a in cfg && i <= |acts| && Explains(cfg, acts, hs)
    ensures NeverEmptied([], RunOps(cfg, acts[..i], a))
  {
    hide ValidConfig, StepOps, LogFrom, Run, Next, NodeStep, Explains, NeverEmptied, Inv, Grows;
    if i == 0 {
      assert NeverEmptied([], []) by { EmptyNeverEmptied(); }
      assert acts[..0] == [];
    } else {
      var before, act := acts[..i - 1], acts[i - 1];
      assert acts[..i][..i - 1] == before;
      RunNeverEmptied(cfg, acts, hs, a, i - 1);
      RunOpsLog(cfg, before, a);
      MomentsOf(cfg, acts, hs);
      TwoStepsOf(cfg, acts, hs, i - 1);
      StepNeverEmptied(cfg, Run(cfg, before), hs[i - 1], act, a);
      NeverEmptiedConcat([], RunOps(cfg, before, a), StepOps(cfg, Run(cfg, before), act, a));
    }
  }

  lemma StepNeverEmptied(cfg: Config, c: Cluster, h: History, act: Action, a: nat)
    requires ValidConfig(cfg) && |cfg| <= 2 && a in cfg && Inv(cfg, c, h) && c.servers.Keys == cfg.Keys
    ensures NeverEmptied(c.servers[a].node.log, StepOps(cfg, c, act, a))
  {
    hide ValidConfig, Inv, NodeStep, AppStep, ReplayOps, LogFrom;
    var log, ops := c.servers[a].node.log, StepOps(cfg, c, act, a);
    if log == [] {
      EmptyStep(cfg, c, act, a);
    } else {
      if Target(act) == a { StepKeepsFirst(cfg, c, h, act); }
      hide StepOps;
      StepOpsStep(cfg, c, act, a, 1);
      forall k | 0 <= k <= |ops| ensures LogFrom(log, ops[..k]) != [] { assert Agree(log, LogFrom(log, ops[..k]), 1); }
    }
  }

  /** In a cluster of one or two servers no log is ever emptied, so no disk ever meets the fault. */
  lemma SmallClusterCareful(cfg: Config, acts: seq<Action>, a: nat, ops: seq<R.Op>)
    requires ValidConfig(cfg) && |cfg| <= 2 && a in cfg && Undergone(cfg, acts, a, ops)
    ensures R.Careful(ops)
  {
    hide ValidConfig, R.Touched, R.LogAfter, Changes, LogFrom, RunOps, Explains;
    var hs := RunHistory(cfg, acts);
    RunNeverEmptied(cfg, acts, hs, a, |acts|);
    assert acts[..|acts|] == acts;
    forall y | 0 <= y < |ops| ensures R.CarefulAt(ops, y) {
      if R.Touched(ops[..y]) {
        var x := TouchedHeld(ops[..y]);
        assert ops[..y][..x] == ops[..x];
        MomentOf(cfg, acts, a, ops, x);
        MomentOf(cfg, acts, a, ops, y);
        ChangesPrefix(ops[..y], x);
      }
    }
  }

  lemma MomentOf(cfg: Config, acts: seq<Action>, a: nat, ops: seq<R.Op>, y: nat)
    requires a in cfg && Undergone(cfg, acts, a, ops) && y <= |ops|
    ensures |Changes(ops[..y])| <= |RunOps(cfg, acts, a)|
    ensures R.LogAfter(ops[..y]) == LogFrom([], RunOps(cfg, acts, a)[..|Changes(ops[..y])|])
  {
    hide LogFrom, RunOps;
    ChangesPrefix(ops, y);
    LogAfterIs(ops[..y]);
    ChangesChange([], ops[..y]);
    assert Changes(ops[..y]) == RunOps(cfg, acts, a)[..|Changes(ops[..y])|];
  }

  /** No run in which clocks behave takes the disk of a server to the fault. */
  ghost predicate DisksAreCareful(cfg: Config) {
    forall acts: seq<Action>, a: nat, ops: seq<R.Op> | Steady(acts) && a in cfg && Undergone(cfg, acts, a, ops) ::
      R.Careful(ops)
  }

  /** That is so exactly in clusters of one or two servers. */
  lemma DisksAreCarefulIff(cfg: Config)
    requires ValidConfig(cfg)
    ensures DisksAreCareful(cfg) <==> |cfg| <= 2
  {
    hide ValidConfig, Steady, Undergone, R.Careful;
    if |cfg| <= 2 {
      forall acts: seq<Action>, a: nat, ops: seq<R.Op> | Steady(acts) && a in cfg && Undergone(cfg, acts, a, ops)
        ensures R.Careful(ops)
      {
        SmallClusterCareful(cfg, acts, a, ops);
      }
    } else {
      var acts, a := CarelessRun(cfg);
      assert Undergone(cfg, acts, a, RunOps(cfg, acts, a));
    }
  }
}
