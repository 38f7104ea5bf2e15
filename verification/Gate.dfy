/** The gate of the queue of consistent reads as the server uses it: it compares two numbers and
    looks neither at the role nor at the term. It is right all the same, because a leader's
    CommitSeqno moves only together with a commit index of its own term. */
module Gate {
  import opened Messages
  import opened Log
  import opened Protocol
  import opened Commit
  import opened Cluster
  import opened History
  import opened Stable
  import opened Completeness
  import opened PreserveElection
  import opened Safety
  import opened Durable
  import opened Reads

  /** A read accepted at moment `i` by leader `a` is answered at moment `j` of the same process, right
      after ProcessCommitted. */
  ghost predicate Answered(cfg: Config, acts: seq<Action>, i: nat, j: nat, a: nat)
    requires i <= j <= |acts| && a in cfg
  {
    var n, s := NodeAt(cfg, acts, i, a), ServerAt(cfg, acts, j, a);
    && n.role == Leader
    && (forall x | i <= x < j :: acts[x] != Restart(a))
    && s.node.vol.commitSeqno >= n.seqno
    && s.app.lastApplied >= |n.log|
    && s.app.lastApplied == s.node.vol.commitIndex
  }

  /** CommitSeqno of a server that keeps running rises only when its leader commits in its own term. */
  lemma SeqnoMovesWithCommit(cfg: Config, c: Cluster, act: Action, s: nat)
    requires Target(act) in cfg && Target(act) in c.servers && s >= 1 && !act.Restart?
    requires NodeStep(cfg, c, act).node.vol.commitSeqno >= s
    ensures var n, n' := c.servers[Target(act)].node, NodeStep(cfg, c, act).node;
            || n.vol.commitSeqno >= s
            || (n'.role == Leader && LogTerm(n'.log, n'.vol.commitIndex) == n'.currentTerm)
  {
    hide Heartbeats, ApproveRead, CandidateTimeout, QuorumIndex, Replay;
    var id := Target(act);
    var n := c.servers[id].node;
    match act
    case Timeout(_, t) =>
      var n1 := Elect(id, cfg[id], n, t.now, t.jitter);
      SendsAreForward(id, cfg[id], n1, t.now);
      CandidateSends(id, cfg[id], n1, t.now);
    case Read(_) => SendsAreForward(id, cfg[id], n, 0);
    case _ =>
  }

  // --- A leader of a later term has committed more than anyone before ---------------------------

  /** When `a` has yet to win term `t`, no history up to then knows an entry of that term. */
  lemma TermStillOpen(cfg: Config, h: History, h': History, a: nat, n: Node, t: nat)
    requires TermOk(h, a, n) && n.currentTerm < t
    requires Grows(h, h') && Won(h', t) && h'.elections[t].leader == a
    ensures !Won(h, t)
  {
  }

  /** The commit index of a leader that lies in its own term is committed by that very term. */
  lemma OwnTermCommit(cfg: Config, h: History, c: nat, log: seq<Entry>, t: nat) returns (k: nat)
    requires HistoryOk(cfg, h) && CommitOk(cfg, h, c, log, t) && 0 < t && LogTerm(log, c) == t
    ensures Committed(cfg, h, t, k) && c <= k
  {
    var u: nat, k': nat :| Committed(cfg, h, u, k') && u <= t && c <= k' && Agree(log, LogOf(h, u), c);
    assert ElectionOk(cfg, h, u);
    assert LogOf(h, u)[c - 1].term == t;
    k := k';
  }

  /** A term committed in and then overtaken by `u` is known to the history that knows `u`. */
  lemma OvertakenTermKnown(cfg: Config, h: History, h': History, t: nat, k: nat, u: nat)
    requires cfg != map[] && HistoryOk(cfg, h) && HistoryOk(cfg, h') && Grows(h, h')
    requires Committed(cfg, h', t, k) && 0 < t < u && Won(h, u)
    ensures Won(h, t)
  {
    assert Won(h', u) && ElectionGrows(h.elections[u], h'.elections[u]);
    LeaderCompleteness(cfg, h', t, k, u);
    hide Grows, Committed;
    assert ElectionOk(cfg, h, u);
    LastOfCommitted(cfg, h', t, k);
    var e := h.elections[u];
    assert e.log[k - 1] == e.init[k - 1];
    assert EntryOk(h, e.log, k - 1);
  }

  lemma LastOfCommitted(cfg: Config, h: History, t: nat, k: nat)
    requires Committed(cfg, h, t, k) && 0 < t
    ensures 1 <= k <= |LogOf(h, t)| && LogOf(h, t)[k - 1].term == t
  {
  }

  /** Everything committed in an earlier term lies below a commit index of the leader's own term. */
  lemma EarlierTermBelow(cfg: Config, h: History, t: nat, k: nat, u: nat, c: nat)
    requires cfg != map[] && HistoryOk(cfg, h) && Committed(cfg, h, t, k) && t < u && Won(h, u)
    requires LogTerm(LogOf(h, u), c) == u && 0 < u
    ensures k < c
  {
    LeaderCompleteness(cfg, h, t, k, u);
    assert ElectionOk(cfg, h, u);
  }

  /** What any server had committed before `a` won its term lies below a commit index of that term. */
  lemma CoversEarlier(cfg: Config, hk: History, hi: History, hx: History, c: nat, log: seq<Entry>, bound: nat,
                      a: nat, n: Node, n': Node)
    requires cfg != map[] && HistoryOk(cfg, hk) && HistoryOk(cfg, hx)
    requires Grows(hk, hi) && Grows(hi, hx) && Grows(hk, hx)
    requires CommitOk(cfg, hk, c, log, bound)
    requires TermOk(hi, a, n) && n.currentTerm < n'.currentTerm
    requires LeaderOk(cfg, hx, a, n') && CommitOk(cfg, hx, n'.vol.commitIndex, n'.log, n'.currentTerm)
    requires LogTerm(n'.log, n'.vol.commitIndex) == n'.currentTerm
    ensures c <= n'.vol.commitIndex
  {
    var t' := n'.currentTerm;
    TermStillOpen(cfg, hi, hx, a, n, t');
    if c != 0 {
      var t: nat, k: nat :| Committed(cfg, hk, t, k) && t <= bound && c <= k && Agree(log, LogOf(hk, t), c);
      TermPositive(cfg, hk, t);
      StableCommitted(cfg, hk, hx, t, k);
      if t < t' {
        EarlierTermBelow(cfg, hx, t, k, t', n'.vol.commitIndex);
      } else {
        WonStays(hk, hi, t, t');
        if t > t' {
          var k' := OwnTermCommit(cfg, hx, n'.vol.commitIndex, n'.log, t');
          OvertakenTermKnown(cfg, hk, hx, t', k', t);
          WonStays(hk, hi, t', t');
        }
        assert false;
      }
    }
  }

  lemma WonStays(h: History, h': History, t: nat, t': nat)
    requires Grows(h, h') && Won(h, t)
    ensures t == t' ==> Won(h', t')
  {
  }

  lemma LaterTermCovers(cfg: Config, acts: seq<Action>, i: nat, x: nat, a: nat, k: nat, b: nat)
    requires ValidConfig(cfg) && k <= i <= x <= |acts| && a in cfg && b in cfg
    requires var n' := NodeAt(cfg, acts, x, a);
             n'.role == Leader && n'.currentTerm > NodeAt(cfg, acts, i, a).currentTerm
             && LogTerm(n'.log, n'.vol.commitIndex) == n'.currentTerm
    ensures NodeAt(cfg, acts, k, b).vol.commitIndex <= NodeAt(cfg, acts, x, a).vol.commitIndex
  {
    hide Inv, Grows, LogOk, KeepsAcks, CommitOk, Run, HistoryOk, LeaderOk, TermOk, CandidateOk, VotedForOk;
    var hs := RunHistory(cfg, acts);
    NodeOkAt(cfg, acts, k, b, hs[k]);
    NodeOkAt(cfg, acts, i, a, hs[i]);
    NodeOkAt(cfg, acts, x, a, hs[x]);
    var n := NodeAt(cfg, acts, k, b);
    CoversEarlier(cfg, hs[k], hs[i], hs[x], n.vol.commitIndex, n.log, n.currentTerm, a,
                  NodeAt(cfg, acts, i, a), NodeAt(cfg, acts, x, a));
  }

  // --- The gate -------------------------------------------------------------------------------

  /** Everything committed anywhere by moment `i` is below the commit index of `a` at moment `x`. */
  ghost predicate Covered(cfg: Config, acts: seq<Action>, i: nat, x: nat, a: nat)
    requires i <= |acts| && x <= |acts| && a in cfg
  {
    forall k: nat, b: nat | k <= i && b in cfg ::
      NodeAt(cfg, acts, k, b).vol.commitIndex <= NodeAt(cfg, acts, x, a).vol.commitIndex
  }

  /** The read was confirmed in its own term by moment `x`, or a later term of `a` covers it. */
  ghost predicate Safe(cfg: Config, acts: seq<Action>, i: nat, x: nat, a: nat)
    requires i <= x <= |acts| && a in cfg
  {
    Covered(cfg, acts, i, x, a) || exists y :: i <= y <= x && ReadConfirmed(cfg, acts, i, y, a)
  }

  lemma SafeStays(cfg: Config, acts: seq<Action>, i: nat, x: nat, a: nat)
    requires i <= x < |acts| && a in cfg && acts[x] != Restart(a) && Safe(cfg, acts, i, x, a)
    ensures Safe(cfg, acts, i, x + 1, a)
  {
    hide NodeAt, ReadConfirmed;
    if Covered(cfg, acts, i, x, a) { CommitIndexGrows(cfg, acts, x, x + 1, a); }
  }

  lemma SafeStep(cfg: Config, acts: seq<Action>, i: nat, x: nat, a: nat, s: nat)
    requires ValidConfig(cfg) && i <= x < |acts| && a in cfg && acts[x] != Restart(a)
    requires NodeAt(cfg, acts, i, a).role == Leader && NodeAt(cfg, acts, i, a).seqno == s >= 1
    requires NodeAt(cfg, acts, x, a).vol.commitSeqno >= s ==> Safe(cfg, acts, i, x, a)
    ensures NodeAt(cfg, acts, x + 1, a).vol.commitSeqno >= s ==> Safe(cfg, acts, i, x + 1, a)
  {
    hide Safe, NodeStep, AppStep, ValidConfig, Run;
    var n, n' := NodeAt(cfg, acts, x, a), NodeAt(cfg, acts, x + 1, a);
    RunStep(cfg, acts, x);
    if n'.vol.commitSeqno >= s {
      if n.vol.commitSeqno >= s {
        SafeStays(cfg, acts, i, x, a);
      } else {
        SeqnoMovesWithCommit(cfg, Run(cfg, acts[..x]), acts[x], s);
        FreshlySafe(cfg, acts, i, x + 1, a);
      }
    }
  }

  lemma FreshlySafe(cfg: Config, acts: seq<Action>, i: nat, x: nat, a: nat)
    requires ValidConfig(cfg) && i <= x <= |acts| && a in cfg && NodeAt(cfg, acts, i, a).role == Leader
    requires var n' := NodeAt(cfg, acts, x, a);
             n'.role == Leader && LogTerm(n'.log, n'.vol.commitIndex) == n'.currentTerm
             && n'.vol.commitSeqno >= NodeAt(cfg, acts, i, a).seqno
    ensures Safe(cfg, acts, i, x, a)
  {
    hide NodeAt, ValidConfig;
    VotesOncePerTerm(cfg, acts, i, x, a);
    if NodeAt(cfg, acts, x, a).currentTerm == NodeAt(cfg, acts, i, a).currentTerm {
      assert ReadConfirmed(cfg, acts, i, x, a);
    } else {
      forall k: nat, b: nat | k <= i && b in cfg
        ensures NodeAt(cfg, acts, k, b).vol.commitIndex <= NodeAt(cfg, acts, x, a).vol.commitIndex
      {
        LaterTermCovers(cfg, acts, i, x, a, k, b);
      }
    }
  }

  lemma {:induction false} SafeRun(cfg: Config, acts: seq<Action>, i: nat, j: nat, a: nat)
    requires ValidConfig(cfg) && i <= j <= |acts| && a in cfg && |cfg| >= 2
    requires NodeAt(cfg, acts, i, a).role == Leader
    requires forall x | i <= x < j :: acts[x] != Restart(a)
    ensures NodeAt(cfg, acts, j, a).vol.commitSeqno >= NodeAt(cfg, acts, i, a).seqno ==> Safe(cfg, acts, i, j, a)
    decreases j
  {
    hide NodeAt, Safe, ValidConfig, Run, NodeOk, HistoryOk, Grows, MessageOk;
    WitnessStart(cfg, acts, i, a);
    if i == j {
      var h, last := HistoryFrom(cfg, acts, i);
      NodeOkAt(cfg, acts, i, a, h);
      CounterAhead(cfg, h, a, NodeAt(cfg, acts, i, a));
    } else {
      SafeRun(cfg, acts, i, j - 1, a);
      SafeStep(cfg, acts, i, j - 1, a, NodeAt(cfg, acts, i, a).seqno);
    }
  }

  lemma AnsweredFromEnough(cfg: Config, acts: seq<Action>, i: nat, j: nat, a: nat, k: nat, b: nat)
    requires ValidConfig(cfg) && k <= i <= j <= |acts| && a in cfg && b in cfg && |cfg| <= 4
    requires Answered(cfg, acts, i, j, a)
    ensures NodeAt(cfg, acts, k, b).vol.commitIndex <= ServerAt(cfg, acts, j, a).app.lastApplied
  {
    hide ValidConfig, Run, ReadConfirmed;
    if |cfg| == 1 {
      OnlyServer(cfg, a, b);
      CommittedNeverRemoved(cfg, acts, k, i, a);
    } else {
      SafeRun(cfg, acts, i, j, a);
      if Covered(cfg, acts, i, j, a) {
        assert NodeAt(cfg, acts, k, b).vol.commitIndex <= NodeAt(cfg, acts, j, a).vol.commitIndex;
      } else {
        var y :| i <= y <= j && ReadConfirmed(cfg, acts, i, y, a);
        ReadCoversCommitted(cfg, acts, i, y, a, k, b);
      }
    }
  }

  /** Consistent read, in clusters of at most four servers: the state from which it is answered
      contains every command that any server's application had received when it was accepted,
      whatever terms have passed in between. */
  lemma ReadSeesEverythingApplied(cfg: Config, acts: seq<Action>, i: nat, j: nat, a: nat, k: nat, b: nat)
    requires ValidConfig(cfg) && k <= i <= j <= |acts| && a in cfg && b in cfg && |cfg| <= 4
    requires Answered(cfg, acts, i, j, a)
    ensures ServerAt(cfg, acts, k, b).app.applied <= ServerAt(cfg, acts, j, a).app.applied
  {
    hide ValidConfig, Run, ReadConfirmed;
    AnsweredFromEnough(cfg, acts, i, j, a, k, b);
    AppliedExactly(cfg, acts, k, b);
    ReplicasAgree(cfg, acts, k, j, b, a);
  }

  lemma OnlyServer(cfg: Config, a: nat, b: nat)
    requires a in cfg && b in cfg && |cfg| == 1
    ensures a == b
  {
    if a != b {
      assert {a, b} <= cfg.Keys;
      SubsetSize({a, b}, cfg.Keys);
    }
  }
}
