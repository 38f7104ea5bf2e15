/** What holds in every run of a cluster, for every configuration and every sequence of actions:
    deliveries in any order and number, timeouts, client commands, reads, applications of
    committed entries and restarts. Most statements relate two moments `i` and `j` of the run. */
module Safety {
  import opened Messages
  import opened Log
  import opened Protocol
  import opened Cluster
  import opened History
  import opened Stable
  import opened Completeness
  import opened Preserve
  import opened PreserveElection

  /** A history for every moment of a run. */
  ghost predicate Explains(cfg: Config, acts: seq<Action>, hs: seq<History>) {
    && |hs| == |acts| + 1
    && (forall i | 0 <= i <= |acts| :: Inv(cfg, Run(cfg, acts[..i]), hs[i]))
    && (forall i, j | 0 <= i <= j <= |acts| :: Grows(hs[i], hs[j]))
  }

  /** Every run has a history that explains each of its moments and only grows. */
  lemma {:induction false} RunHistory(cfg: Config, acts: seq<Action>) returns (hs: seq<History>)
    requires ValidConfig(cfg)
    ensures Explains(cfg, acts, hs)
  {
    hide Explains, Inv, Grows, Run, Next, ValidConfig;
    if acts == [] {
      hs := [NoHistory()];
      ExplainStart(cfg);
    } else {
      var n := |acts| - 1;
      var before := RunHistory(cfg, acts[..n]);
      LastExplained(cfg, acts[..n], before);
      var h := NextKeeps(cfg, Run(cfg, acts[..n]), before[n], acts[n]);
      RunLast(cfg, acts);
      hs := before + [h];
      OneMoreMoment(cfg, acts, before, h);
    }
  }

  lemma RunLast(cfg: Config, acts: seq<Action>)
    requires acts != []
    ensures Run(cfg, acts) == Next(cfg, Run(cfg, acts[..|acts| - 1]), acts[|acts| - 1])
  {
    hide Next;
  }

  lemma ExplainStart(cfg: Config)
    requires ValidConfig(cfg)
    ensures Explains(cfg, [], [NoHistory()])
  {
    hide Inv, Grows, Start, ValidConfig;
    var none: seq<Action> := [];
    StartOk(cfg);
    GrowsRefl(NoHistory());
    assert none[..0] == none;
    assert Run(cfg, none) == Start(cfg);
  }

  lemma LastExplained(cfg: Config, acts: seq<Action>, hs: seq<History>)
    requires Explains(cfg, acts, hs)
    ensures |hs| == |acts| + 1 && Inv(cfg, Run(cfg, acts), hs[|acts|])
  {
    assert acts[..|acts|] == acts;
  }

  lemma OneMoreMoment(cfg: Config, acts: seq<Action>, before: seq<History>, h: History)
    requires acts != [] && Explains(cfg, acts[..|acts| - 1], before)
    requires Inv(cfg, Run(cfg, acts), h) && Grows(before[|acts| - 1], h)
    ensures Explains(cfg, acts, before + [h])
  {
    hide Inv, Grows, Run;
    var n := |acts| - 1;
    var hs := before + [h];
    GrowsRefl(h);
    forall i | 0 <= i <= |acts| ensures Inv(cfg, Run(cfg, acts[..i]), hs[i]) {
      if i <= n {
        assert acts[..i] == acts[..n][..i];
      } else {
        assert acts[..i] == acts;
      }
    }
    forall i | 0 <= i <= n ensures Grows(hs[i], h) { GrowsTrans(before[i], before[n], h); }
  }

  lemma GrowsRefl(h: History)
    ensures Grows(h, h)
  {
    forall t: nat | Won(h, t) ensures ElectionGrows(h.elections[t], h.elections[t]) {}
  }

  /** The history at the end of a run, seen from moment `i`. */
  lemma HistoryFrom(cfg: Config, acts: seq<Action>, i: nat) returns (h: History, last: History)
    requires ValidConfig(cfg) && i <= |acts|
    ensures Inv(cfg, Run(cfg, acts[..i]), h) && Grows(h, last) && HistoryOk(cfg, last)
  {
    var hs := RunHistory(cfg, acts);
    h, last := hs[i], hs[|acts|];
  }

  /** Two moments of a run under one final history. */
  lemma TwoMoments(cfg: Config, acts: seq<Action>, i: nat, j: nat)
    returns (h: History, h': History, last: History)
    requires ValidConfig(cfg) && i <= |acts| && j <= |acts|
    ensures Inv(cfg, Run(cfg, acts[..i]), h) && Inv(cfg, Run(cfg, acts[..j]), h')
    ensures Grows(h, last) && Grows(h', last) && HistoryOk(cfg, last) && (i <= j ==> Grows(h, h'))
  {
    hide Grows;
    var hs := RunHistory(cfg, acts);
    h, h', last := hs[i], hs[j], hs[|acts|];
  }

  lemma NodeOkAt(cfg: Config, acts: seq<Action>, i: nat, id: nat, h: History)
    requires i <= |acts| && id in cfg && Inv(cfg, Run(cfg, acts[..i]), h)
    ensures HistoryOk(cfg, h) && NodeOk(cfg, h, id, NodeAt(cfg, acts, i, id))
  {
  }

  // --- State machine safety -------------------------------------------------------------------

  /** State Machine Safety (section 5.4.3): what one server has committed at one moment and what
      another has committed at any other moment never differ. */
  lemma StateMachineSafety(cfg: Config, acts: seq<Action>, i: nat, j: nat, a: nat, b: nat, k: nat)
    requires ValidConfig(cfg) && i <= |acts| && j <= |acts| && a in cfg && b in cfg
    requires 1 <= k <= NodeAt(cfg, acts, i, a).vol.commitIndex
    requires k <= NodeAt(cfg, acts, j, b).vol.commitIndex
    ensures k <= |NodeAt(cfg, acts, i, a).log| && k <= |NodeAt(cfg, acts, j, b).log|
    ensures NodeAt(cfg, acts, i, a).log[k - 1] == NodeAt(cfg, acts, j, b).log[k - 1]
  {
    hide HistoryOk, Grows, Inv, CommitOk, NodeOk, NodeAt, ValidConfig;
    var h, h', last := TwoMoments(cfg, acts, i, j);
    var x, y := NodeAt(cfg, acts, i, a), NodeAt(cfg, acts, j, b);
    CommitStands(cfg, acts, i, a, h, last);
    CommitStands(cfg, acts, j, b, h', last);
    CommitPrefixesAgree(cfg, last, x.vol.commitIndex, x.log, x.currentTerm,
                        y.vol.commitIndex, y.log, y.currentTerm, k - 1);
  }

  /** What was committed at a moment is committed for good. */
  lemma CommitStands(cfg: Config, acts: seq<Action>, i: nat, a: nat, h: History, last: History)
    requires ValidConfig(cfg) && i <= |acts| && a in cfg && Inv(cfg, Run(cfg, acts[..i]), h) && Grows(h, last)
    ensures var n := NodeAt(cfg, acts, i, a);
            CommitOk(cfg, last, n.vol.commitIndex, n.log, n.currentTerm) && n.vol.commitIndex <= |n.log| && cfg != map[]
  {
    hide HistoryOk, Grows, Inv, LogOk, KeepsAcks, Run;
    var n := NodeAt(cfg, acts, i, a);
    NodeOkAt(cfg, acts, i, a, h);
    StableCommitOk(cfg, h, last, n.vol.commitIndex, n.log, n.currentTerm);
  }

  /** Leader Completeness (section 5.4): whoever leads a later term, at whatever moment, has
      everything that was committed in an earlier term, also in clusters of even size. */
  lemma LeaderHasCommitted(cfg: Config, acts: seq<Action>, i: nat, j: nat, a: nat, b: nat)
    requires ValidConfig(cfg) && i <= |acts| && j <= |acts| && a in cfg && b in cfg
    requires NodeAt(cfg, acts, j, b).role == Leader
    requires NodeAt(cfg, acts, j, b).currentTerm > NodeAt(cfg, acts, i, a).currentTerm
    ensures Agree(NodeAt(cfg, acts, i, a).log, NodeAt(cfg, acts, j, b).log, NodeAt(cfg, acts, i, a).vol.commitIndex)
  {
    hide HistoryOk, Grows, Inv, CommitOk, NodeOk, NodeAt, ValidConfig;
    var h, h', last := TwoMoments(cfg, acts, i, j);
    var x, y := NodeAt(cfg, acts, i, a), NodeAt(cfg, acts, j, b);
    CommitStands(cfg, acts, i, a, h, last);
    NodeOkAt(cfg, acts, j, b, h');
    LeaderFacts(cfg, h', b, y);
    CommitInInit(cfg, h', last, x.vol.commitIndex, x.log, x.currentTerm, y.currentTerm);
  }

  lemma InitKept(cfg: Config, h: History, last: History, u: nat)
    requires HistoryOk(cfg, h) && Grows(h, last) && Won(h, u)
    ensures Won(last, u) && last.elections[u].init == h.elections[u].init
    ensures Agree(h.elections[u].init, LogOf(h, u), |h.elections[u].init|)
  {
    assert ElectionGrows(h.elections[u], last.elections[u]);
    assert ElectionOk(cfg, h, u);
  }

  lemma CommitInInit(cfg: Config, h: History, last: History, c: nat, log: seq<Entry>, bound: nat, u: nat)
    requires cfg != map[] && HistoryOk(cfg, h) && HistoryOk(cfg, last) && Grows(h, last) && Won(h, u) && bound < u
    requires CommitOk(cfg, last, c, log, bound)
    ensures Agree(log, LogOf(h, u), c)
  {
    if c != 0 {
      var t: nat, k: nat :| Committed(cfg, last, t, k) && t <= bound && c <= k && Agree(log, LogOf(last, t), c);
      hide HistoryOk, Grows, Committed;
      InitKept(cfg, h, last, u);
      LeaderCompleteness(cfg, last, t, k, u);
      var init := h.elections[u].init;
      assert forall x | 0 <= x < c :: log[x] == LogOf(last, t)[x] == init[x] == LogOf(h, u)[x];
    }
  }

  // --- Elections ------------------------------------------------------------------------------

  /** Election Safety (section 5.2): over a whole run a term has at most one leader. */
  lemma ElectionSafety(cfg: Config, acts: seq<Action>, i: nat, j: nat, a: nat, b: nat)
    requires ValidConfig(cfg) && i <= |acts| && j <= |acts| && a in cfg && b in cfg
    requires NodeAt(cfg, acts, i, a).role == Leader && NodeAt(cfg, acts, j, b).role == Leader
    requires NodeAt(cfg, acts, i, a).currentTerm == NodeAt(cfg, acts, j, b).currentTerm
    ensures a == b
  {
    hide HistoryOk, Inv, LogOk, KeepsAcks, CommitOk, Run;
    var h, h', last := TwoMoments(cfg, acts, i, j);
    NodeOkAt(cfg, acts, i, a, h);
    NodeOkAt(cfg, acts, j, b, h');
    var t := NodeAt(cfg, acts, i, a).currentTerm;
    assert ElectionGrows(h.elections[t], last.elections[t]) && ElectionGrows(h'.elections[t], last.elections[t]);
  }

  /** The server behind a counted vote has reached the term, and while it stays there its vote is the
      candidate's. */
  lemma VoterKnown(cfg: Config, acts: seq<Action>, i: nat, a: nat, p: nat)
    requires ValidConfig(cfg) && i <= |acts| && a in cfg
    requires NodeAt(cfg, acts, i, a).role == Candidate && p in NodeAt(cfg, acts, i, a).vol.votes
    ensures p in cfg && p != a
    ensures NodeAt(cfg, acts, i, p).currentTerm >= NodeAt(cfg, acts, i, a).currentTerm
    ensures NodeAt(cfg, acts, i, p).currentTerm == NodeAt(cfg, acts, i, a).currentTerm ==>
              NodeAt(cfg, acts, i, p).votedFor == a
  {
    hide HistoryOk, Inv, LogOk, KeepsAcks, CommitOk, Run, Grows;
    var h, last := HistoryFrom(cfg, acts, i);
    NodeOkAt(cfg, acts, i, a, h);
    NodeOkAt(cfg, acts, i, p, h);
    assert Voted(h, p, NodeAt(cfg, acts, i, a).currentTerm);
  }

  // --- Logs -----------------------------------------------------------------------------------

  /** Log Matching (section 5.3): logs with the same term at the same index, taken from any
      servers at any moments, agree on everything up to it. */
  lemma LogMatching(cfg: Config, acts: seq<Action>, i: nat, j: nat, a: nat, b: nat, x: nat)
    requires ValidConfig(cfg) && i <= |acts| && j <= |acts| && a in cfg && b in cfg
    requires x < |NodeAt(cfg, acts, i, a).log| && x < |NodeAt(cfg, acts, j, b).log|
    requires NodeAt(cfg, acts, i, a).log[x].term == NodeAt(cfg, acts, j, b).log[x].term
    ensures Agree(NodeAt(cfg, acts, i, a).log, NodeAt(cfg, acts, j, b).log, x + 1)
  {
    hide HistoryOk, Inv, LogOk, KeepsAcks, CommitOk, Run, Grows;
    var h, h', last := TwoMoments(cfg, acts, i, j);
    NodeOkAt(cfg, acts, i, a, h);
    NodeOkAt(cfg, acts, j, b, h');
    StableLog(h, last, NodeAt(cfg, acts, i, a).log);
    StableLog(h', last, NodeAt(cfg, acts, j, b).log);
    LogsMatch(last, NodeAt(cfg, acts, i, a).log, NodeAt(cfg, acts, j, b).log, x);
  }

  /** An AppendEntries request in flight is a slice of the log of its term's leader, whenever
      that leader is looked at from then on, and its header tells its payload. */
  lemma RequestIsLeaderSlice(cfg: Config, acts: seq<Action>, i: nat, j: nat, b: nat, m: Message)
    requires ValidConfig(cfg) && i <= j <= |acts| && b in cfg
    requires m.Append? && m in Run(cfg, acts[..i]).net
    requires NodeAt(cfg, acts, j, b).role == Leader && NodeAt(cfg, acts, j, b).currentTerm == m.term
    ensures var log := NodeAt(cfg, acts, j, b).log;
            && m.src == m.leaderId == b && m.nentries == |m.entries|
            && m.prevLogIndex + |m.entries| <= |log|
            && m.entries == log[m.prevLogIndex..m.prevLogIndex + |m.entries|]
            && m.prevLogTerm == LogTerm(log, m.prevLogIndex)
            && m.leaderCommit <= m.prevLogIndex + |m.entries|
  {
    hide HistoryOk, LogOk, KeepsAcks, CommitOk, Run, Grows, NodeOk;
    var h, h', last := TwoMoments(cfg, acts, i, j);
    NodeOkAt(cfg, acts, j, b, h');
    assert MessageOk(cfg, h, m);
    StableMessage(cfg, h, h', m);
    LeaderFacts(cfg, h', b, NodeAt(cfg, acts, j, b));
  }

  lemma LeaderFacts(cfg: Config, h: History, id: nat, n: Node)
    requires NodeOk(cfg, h, id, n) && n.role == Leader
    ensures Won(h, n.currentTerm) && h.elections[n.currentTerm].leader == id && n.log == LogOf(h, n.currentTerm)
  {
  }

  /** Leader Append-Only (section 5.3): during a term its leader's log only grows. */
  lemma LeaderAppendOnly(cfg: Config, acts: seq<Action>, i: nat, j: nat, a: nat)
    requires ValidConfig(cfg) && i <= j <= |acts| && a in cfg
    requires NodeAt(cfg, acts, i, a).role == Leader && NodeAt(cfg, acts, j, a).role == Leader
    requires NodeAt(cfg, acts, i, a).currentTerm == NodeAt(cfg, acts, j, a).currentTerm
    ensures Agree(NodeAt(cfg, acts, i, a).log, NodeAt(cfg, acts, j, a).log, |NodeAt(cfg, acts, i, a).log|)
  {
    hide HistoryOk, Inv, LogOk, KeepsAcks, CommitOk, Run, NodeOk;
    var h, h', last := TwoMoments(cfg, acts, i, j);
    NodeOkAt(cfg, acts, i, a, h);
    NodeOkAt(cfg, acts, j, a, h');
    LeaderFacts(cfg, h, a, NodeAt(cfg, acts, i, a));
    LeaderFacts(cfg, h', a, NodeAt(cfg, acts, j, a));
    var t := NodeAt(cfg, acts, i, a).currentTerm;
    assert ElectionGrows(h.elections[t], h'.elections[t]);
  }

  // --- A leader's view of a follower ----------------------------------------------------------

  /** The indices a leader keeps for a peer are in range, so a request to it can always be built,
      a peer of the same term holds the leader's entries up to MatchIndex, and of a peer that has not
      reached the term the leader knows nothing. */
  lemma LeaderViewSound(cfg: Config, acts: seq<Action>, i: nat, a: nat, p: nat)
    requires ValidConfig(cfg) && i <= |acts| && a in cfg && p in cfg && p != a
    requires NodeAt(cfg, acts, i, a).role == Leader
    ensures var n, f := NodeAt(cfg, acts, i, a), NodeAt(cfg, acts, i, p);
            && 1 <= Get(n.vol.nextIndex, p) <= |n.log| + 1
            && Get(n.vol.matchIndex, p) <= |n.log|
            && n.vol.commitIndex <= |n.log|
            && (f.currentTerm == n.currentTerm ==> Agree(n.log, f.log, Get(n.vol.matchIndex, p)))
            && (f.currentTerm < n.currentTerm ==> Get(n.vol.matchIndex, p) == 0)
  {
    hide HistoryOk, Inv, LogOk, Run, Grows;
    var h, last := HistoryFrom(cfg, acts, i);
    NodeOkAt(cfg, acts, i, a, h);
    NodeOkAt(cfg, acts, i, p, h);
    var n, f := NodeAt(cfg, acts, i, a), NodeAt(cfg, acts, i, p);
    assert PeerViewOk(h, n, p);
    var k := Get(n.vol.matchIndex, p);
    if k != 0 {
      AckBound(cfg, h, p, n.currentTerm, k);
      if f.currentTerm == n.currentTerm {
        assert Retained(h, n.currentTerm, k, f.log, f.currentTerm + 1);
      }
    }
  }

  // --- Deadlines ------------------------------------------------------------------------------

  /** Exactly the leaders have no election deadline. */
  lemma DeadlineIffNotLeader(cfg: Config, acts: seq<Action>, i: nat, a: nat)
    requires ValidConfig(cfg) && i <= |acts| && a in cfg
    ensures NodeAt(cfg, acts, i, a).vol.electionDue == Never <==> NodeAt(cfg, acts, i, a).role == Leader
  {
    hide HistoryOk, Inv, LogOk, KeepsAcks, CommitOk, Run, Grows;
    var h, last := HistoryFrom(cfg, acts, i);
    NodeOkAt(cfg, acts, i, a, h);
  }
}
