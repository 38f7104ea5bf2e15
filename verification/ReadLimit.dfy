/** Consistent reads are confirmed by a single reply. They are answered in every configuration, and
    they are up to date in exactly the clusters of at most four servers: in every larger one there is
    a run in which a deposed leader answers a read without a command that was committed and applied
    before the read was accepted. */
module ReadLimit {
  import opened Messages
  import opened Log
  import opened Protocol
  import opened Commit
  import opened Cluster
  import opened Clocks
  import opened Preserve
  import opened Gate
  import opened Elections
  import opened CatchUp
  import opened Exchanges
  import opened Copying
  import opened Progress

  /** The read of `a` was answered without something `b` had applied when it was accepted. */
  ghost predicate StaleAnswer(cfg: Config, acts: seq<Action>, i: nat, j: nat, a: nat, k: nat, b: nat)
    requires k <= i <= j <= |acts| && a in cfg && b in cfg
  {
    && Answered(cfg, acts, i, j, a)
    && !(ServerAt(cfg, acts, k, b).app.applied <= ServerAt(cfg, acts, j, a).app.applied)
  }

  /** No run in which clocks behave answers a consistent read from a stale state. */
  ghost predicate ReadsAreFresh(cfg: Config) {
    forall acts: seq<Action>, i: nat, j: nat, a: nat, k: nat, b: nat
      | Steady(acts) && k <= i <= j <= |acts| && a in cfg && b in cfg :: !StaleAnswer(cfg, acts, i, j, a, k, b)
  }

  // --- Confirming a read ----------------------------------------------------------------------

  /** A leader that has committed its whole log, which ends in its own term. */
  ghost predicate AllCommitted(n: Node) {
    n.role == Leader && n.log != [] && LastTerm(n.log) == n.currentTerm && n.vol.commitIndex == |n.log|
  }

  /** A reply from a follower that has everything moves CommitSeqno up to its counter. */
  lemma ReplyConfirms(s: Link, sender: Node, seqno: nat, k: nat)
    requires Distinct(s.peers) && s.a !in s.peers && AllCommitted(s.leader) && OnlySent(s.leader, sender)
    requires forall q | q in s.peers :: Get(s.leader.vol.matchIndex, q) <= |s.leader.log|
    requires k <= |s.leader.log|
    ensures VolAfter(s, sender, seqno, k).commitIndex == |s.leader.log| && VolAfter(s, sender, seqno, k).commitSeqno >= seqno
  {
    var last := |s.leader.log|;
    var v := OnReply(sender.vol, Appended(s.p, s.a, s.leader.currentTerm, seqno, k, true));
    var q := QuorumIndex(s.peers, v.matchIndex, last);
    assert q <= last by {
      hide QuorumIndex, Distinct;
      QuorumIndexIsLargest(s.a, s.peers, v.matchIndex, last);
      NobodyHoldsMore(s.a, s.peers, v.matchIndex, last, q);
    }
    hide QuorumIndex, Distinct;
  }

  /** A read, its request to `b` and the reply of `b`: the read is confirmed. */
  lemma ConfirmRead(cfg: Config, acts: seq<Action>, a: nat, b: nat) returns (acts': seq<Action>)
    requires ValidConfig(cfg) && Leads(cfg, Run(cfg, acts), a, b) && CaughtUp(LinkOf(cfg, Run(cfg, acts), a, b))
    requires AllCommitted(Run(cfg, acts).servers[a].node)
    ensures Unfolds(acts + [Read(a)], acts')
    ensures var n, n' := Run(cfg, acts).servers[a].node, Run(cfg, acts').servers[a].node;
            n'.log == n.log && n'.vol.commitIndex == |n.log| && n'.vol.commitSeqno >= n.seqno
  {
    hide ValidConfig, Run, Sound, CaughtUp, ExchangeWith, OnlySent, VolAfter, Distinct, Only, Unfolds;
    var s := LinkOf(cfg, Run(cfg, acts), a, b);
    LeaderInRange(cfg, acts, a);
    PeersDistinct(cfg, a);
    LinkIsSound(cfg, acts, a, b);
    var sender, seqno, now;
    acts', sender, seqno, now := ReadExchange(cfg, acts, a, b);
    ExchangeWithStep(s, sender, seqno, Now(now), Now(now));
    var k := LastReply(s, sender, seqno, Now(now));
    ReplyConfirms(s, sender, seqno, k);
  }

  /** `acts` is `before`, then a read accepted by `a`, then nothing but deliveries and timeouts. */
  ghost predicate OneRead(before: seq<Action>, acts: seq<Action>, a: nat) {
    Unfolds(before + [Read(a)], acts)
  }

  /** The read at `i` is the only one of the run, and nobody restarts. */
  ghost predicate OnlyRead(acts: seq<Action>, i: nat) {
    forall x | 0 <= x < |acts| && x != i :: !acts[x].Read? && !acts[x].Restart?
  }

  lemma OneReadDone(before: seq<Action>, acts: seq<Action>, a: nat)
    requires OneRead(before, acts, a)
    ensures var acts' := acts + [Commit(a)];
            && |before| < |acts'| && acts'[..|before|] == before && acts'[|before|] == Read(a)
            && (forall x | |before| <= x < |acts'| :: acts'[x] != Restart(a))
            && (Steady(before) ==> Steady(acts')) && (NoReads(before) ==> OnlyRead(acts', |before|))
  {
    SteadySnoc(before, Read(a));
    SteadySnoc(acts, Commit(a));
    hide Steady;
    var acts' := acts + [Commit(a)];
    assert (before + [Read(a)])[..|before|] == before;
    assert acts'[|before|] == (before + [Read(a)])[|before|];
    forall x | |before| <= x < |acts'| ensures acts'[x] != Restart(a) {
      if |before| < x < |acts| { assert acts'[x] == acts[x]; }
    }
    forall x | 0 <= x < |acts'| && x != |before| && NoReads(before) ensures !acts'[x].Read? && !acts'[x].Restart? {
      if x < |before| { assert acts'[..|before|][x] == before[x]; } else if x < |acts| { assert acts'[x] == acts[x]; }
    }
  }

  /** After ProcessCommitted a confirmed read is answered. */
  lemma AnswerAfter(cfg: Config, before: seq<Action>, acts: seq<Action>, a: nat)
    requires ValidConfig(cfg) && a in cfg && OneRead(before, acts, a)
    requires AllCommitted(Run(cfg, before).servers[a].node)
    requires var n, n' := Run(cfg, before).servers[a].node, Run(cfg, acts).servers[a].node;
             n'.log == n.log && n'.vol.commitIndex == |n.log| && n'.vol.commitSeqno >= n.seqno
    ensures var acts' := acts + [Commit(a)];
            && |before| < |acts'| && acts'[..|before|] == before && acts'[|before|] == Read(a)
            && (Steady(before) ==> Steady(acts')) && (NoReads(before) ==> OnlyRead(acts', |before|))
            && Answered(cfg, acts', |before|, |acts'|, a)
            && ServerAt(cfg, acts', |acts'|, a).app.applied == NonStub(Run(cfg, before).servers[a].node.log)
  {
    hide ValidConfig, Run, NonStub, Steady, OneRead, NoReads, OnlyRead;
    var acts' := acts + [Commit(a)];
    CommitApplies(cfg, acts, a);
    EndOfRun(cfg, acts', a);
    OneReadDone(before, acts, a);
  }

  /** A leader without peers never sends anything. */
  lemma {:induction false} NoPings(cfg: Config, acts: seq<Action>, i: nat, a: nat)
    requires a in cfg && cfg[a] == [] && i <= |acts|
    ensures NodeAt(cfg, acts, i, a).seqno == 0
  {
    assert acts[..0] == [];
    if i > 0 {
      NoPings(cfg, acts, i - 1, a);
      RunStep(cfg, acts, i - 1);
      if Target(acts[i - 1]) == a { SilentStep(cfg, Run(cfg, acts[..i - 1]), acts[i - 1], a); }
    }
  }

  lemma SilentStep(cfg: Config, c: Cluster, act: Action, a: nat)
    requires a in cfg && cfg[a] == [] && Target(act) == a && a in c.servers && c.servers[a].node.seqno == 0
    ensures NodeStep(cfg, c, act).node.seqno == 0
  {
    hide CommitAdvance, Replay;
  }

  /** A leader without peers takes a read without sending anything. */
  lemma QuietRead(cfg: Config, acts: seq<Action>, a: nat)
    requires a in cfg && cfg[a] == []
    ensures Run(cfg, acts + [Read(a)]).servers[a].node == Run(cfg, acts).servers[a].node
  {
    hide Run, Next, NodeStep, AppStep;
    RunSnoc(cfg, acts, Read(a));
    NextDoes(cfg, Run(cfg, acts), Read(a));
    ReadAlone(cfg, Run(cfg, acts), a);
  }

  lemma ReadAlone(cfg: Config, c: Cluster, a: nat)
    requires a in cfg && a in c.servers && cfg[a] == []
    ensures NodeStep(cfg, c, Read(a)).node == c.servers[a].node
  {
  }

  /** Consistent reads are answered: in every configuration, whoever leads and whatever commands it
      was given, some run accepts a read after them and answers it from a state that has them all. */
  lemma ReadIsAnswered(cfg: Config, a: nat, cmds: seq<seq<byte>>) returns (acts: seq<Action>, i: nat, t: nat)
    requires ValidConfig(cfg) && a in cfg
    ensures Steady(acts) && i < |acts| && acts[i] == Read(a) && OnlyRead(acts, i) && Answered(cfg, acts, i, |acts|, a)
    ensures ServerAt(cfg, acts, |acts|, a).app.applied == Entries(t, cmds)
  {
    hide ValidConfig, Run, NonStub, CaughtUp, Leads, Answered, Quorum, Entries, LogWith, Steady, Unfolds,
         NoReads, OnlyRead;
    AllPeersUp(cfg, a);
    var peers := cfg[a];
    var before := AnyQuorumCommits(cfg, a, peers, cmds);
    i := |before|;
    t := Run(cfg, before).servers[a].node.currentTerm;
    LogWithEnds(t, cmds);
    CommandsOnly(t, cmds);
    if peers == [] {
      EndOfRun(cfg, before, a);
      NoPings(cfg, before, |before|, a);
      acts := before + [Read(a)];
      UnfoldsRefl(acts);
      QuietRead(cfg, before, a);
    } else {
      assert Leads(cfg, Run(cfg, before), a, peers[0]);
      acts := ConfirmRead(cfg, before, a, peers[0]);
    }
    AnswerAfter(cfg, before, acts, a);
    acts := acts + [Commit(a)];
  }

  // --- The limit ------------------------------------------------------------------------------

  lemma LastApplied(log: seq<Entry>)
    requires log != [] && log[|log| - 1].flags != STUB
    ensures NonStub(log) != []
  {
  }

  /** First `a` leads, with everyone up; then the servers other than `a` and `b` find a leader `d` of
      their own and commit and apply a command. */
  lemma TwoLeaders(cfg: Config, a: nat) returns (acts: seq<Action>, b: nat, d: nat)
    requires ValidConfig(cfg) && a in cfg && |cfg| >= 5
    ensures Steady(acts) && NoReads(acts) && b in cfg && d in cfg
    ensures Leads(cfg, Run(cfg, acts), a, b) && CaughtUp(LinkOf(cfg, Run(cfg, acts), a, b))
    ensures AllCommitted(Run(cfg, acts).servers[a].node) && NonStub(Run(cfg, acts).servers[a].node.log) == []
    ensures Run(cfg, acts).servers[d].app.applied != []
  {
    hide Run, ValidConfig, CaughtUp, NonStub, Distinct, Steady, NoReads, OneCommand;
    PeerCount(cfg, a);
    AllPeersUp(cfg, a);
    var peers := cfg[a];
    var first := AnyQuorumCommits(cfg, a, peers, []);
    var c := Run(cfg, first);
    LogWithEnds(c.servers[a].node.currentTerm, []);
    CommandsOnly(c.servers[a].node.currentTerm, []);
    b := peers[0];
    assert Leads(cfg, c, a, b);
    var q := peers[1..];
    DistinctTail(peers);
    acts, d := AnyStateCommits(cfg, first, q, []);
    CommandNoReads(first, acts, d, []);
    LastApplied(Run(cfg, acts).servers[d].node.log);
    assert a !in q && b !in q;
    SameLink(cfg, c, Run(cfg, acts), a, b);
  }

  lemma CommandNoReads(acts: seq<Action>, acts': seq<Action>, a: nat, data: seq<byte>)
    requires Steady(acts) && NoReads(acts) && OneCommand(acts, acts', a, data)
    ensures Steady(acts') && NoReads(acts')
  {
    hide Steady;
    forall x | 0 <= x < |acts'| ensures !acts'[x].Read? && !acts'[x].Restart? {
      if x < |acts| { assert acts'[x] == acts[x]; }
    }
  }

  lemma SameLink(cfg: Config, c: Cluster, c': Cluster, a: nat, b: nat)
    requires Leads(cfg, c, a, b) && c'.servers.Keys == cfg.Keys
    requires c'.servers[a] == c.servers[a] && c'.servers[b] == c.servers[b]
    ensures Leads(cfg, c', a, b) && LinkOf(cfg, c', a, b) == LinkOf(cfg, c, a, b)
  {
  }

  /** In a cluster of five or more servers some run answers a read from a stale state, and no clock goes
      back in it. */
  lemma StaleRun(cfg: Config) returns (acts: seq<Action>, i: nat, a: nat, d: nat)
    requires ValidConfig(cfg) && |cfg| >= 5
    ensures Steady(acts) && i < |acts| && acts[i] == Read(a) && OnlyRead(acts, i)
    ensures a in cfg && d in cfg && StaleAnswer(cfg, acts, i, |acts|, a, i, d)
  {
    hide ValidConfig, Run, NonStub, CaughtUp, Leads, Answered, Steady, Unfolds, NoReads, OnlyRead;
    a :| a in cfg;
    var before, b, later := TwoLeaders(cfg, a);
    var read := ConfirmRead(cfg, before, a, b);
    AnswerAfter(cfg, before, read, a);
    acts := read + [Commit(a)];
    i, d := |before|, later;
  }

  /** Consistent reads are fresh, in every run in which clocks behave, exactly in clusters of at most four
      servers; there they are fresh whatever the clocks do (Gate.ReadSeesEverythingApplied). */
  lemma ReadsAreFreshIff(cfg: Config)
    requires ValidConfig(cfg)
    ensures ReadsAreFresh(cfg) <==> |cfg| <= 4
  {
    hide ValidConfig, Answered, Run, Steady;
    if |cfg| <= 4 {
      forall acts: seq<Action>, i: nat, j: nat, a: nat, k: nat, b: nat
        | Steady(acts) && k <= i <= j <= |acts| && a in cfg && b in cfg
        ensures !StaleAnswer(cfg, acts, i, j, a, k, b)
      {
        if StaleAnswer(cfg, acts, i, j, a, k, b) { ReadSeesEverythingApplied(cfg, acts, i, j, a, k, b); }
      }
    } else {
      var acts, i, a, d := StaleRun(cfg);
      assert StaleAnswer(cfg, acts, i, |acts|, a, i, d);
    }
  }
}
