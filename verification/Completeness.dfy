/** Leader Completeness and what follows from it for a single history: Log Matching, agreement of
    committed prefixes, uniqueness of the winner of a term. */
module Completeness {
  import opened Messages
  import opened Log
  import opened Protocol
  import opened Commit
  import opened Cluster
  import opened History

  lemma TermPositive(cfg: Config, h: History, t: nat)
    requires HistoryOk(cfg, h) && Won(h, t)
    ensures 0 < t
  {
    assert ElectionOk(cfg, h, t);
  }

  /** Log Matching: logs that came from leaders and hold the same term at the same index agree on
      everything up to it. */
  lemma LogsMatch(h: History, a: seq<Entry>, b: seq<Entry>, i: nat)
    requires LogOk(h, a) && LogOk(h, b) && i < |a| && i < |b| && a[i].term == b[i].term
    ensures Agree(a, b, i + 1)
  {
    assert EntryOk(h, a, i) && EntryOk(h, b, i);
    var l := LogOf(h, a[i].term);
    forall j | 0 <= j < i + 1 ensures a[j] == b[j] { assert a[j] == l[j] == b[j]; }
  }

  /** Terms never decrease along a log that came from leaders. */
  lemma LogAscends(cfg: Config, h: History, log: seq<Entry>)
    requires HistoryOk(cfg, h) && LogOk(h, log)
    ensures TermsAscend(log)
  {
    forall i, j | 0 <= i < j < |log| ensures log[i].term <= log[j].term {
      assert EntryOk(h, log, j);
      var e := h.elections[log[j].term];
      assert ElectionOk(cfg, h, log[j].term);
      assert log[i] == e.log[i];
      if i < |e.init| { assert e.log[i] == e.init[i]; }
    }
  }

  /** A log ending in term `u` contains everything the winner of `u` started with. */
  lemma ContainsInit(cfg: Config, h: History, log: seq<Entry>, u: nat)
    requires HistoryOk(cfg, h) && LogOk(h, log) && log != [] && LastTerm(log) == u
    ensures Won(h, u) && |h.elections[u].init| < |log| && Agree(h.elections[u].init, log, |h.elections[u].init|)
    ensures Agree(log, LogOf(h, u), |log|)
  {
    var last := |log| - 1;
    assert EntryOk(h, log, last);
    var e := h.elections[u];
    assert ElectionOk(cfg, h, u);
    assert log[last] == e.log[last];
    assert forall i | 0 <= i < |e.init| :: e.log[i] == e.init[i] && e.log[i].term < u;
    forall j | 0 <= j < |e.init| ensures e.init[j] == log[j] { assert e.init[j] == e.log[j] == log[j]; }
  }

  /** A log that keeps a committed prefix of term `t` ends in term at least `t`. */
  lemma LastTermAtLeast(cfg: Config, h: History, t: nat, k: nat, log: seq<Entry>)
    requires HistoryOk(cfg, h) && LogOk(h, log) && Won(h, t) && 0 < t
    requires LogTerm(LogOf(h, t), k) == t && Agree(LogOf(h, t), log, k)
    ensures t <= LastTerm(log) && 1 <= k <= |log|
  {
    LogAscends(cfg, h, log);
    assert log[k - 1] == LogOf(h, t)[k - 1];
    assert log[k - 1].term <= log[|log| - 1].term;
  }

  /** A candidate whose log is at least as up to date as one that keeps the committed prefix
      keeps it too, provided every leader in between started with it. */
  lemma UpToDateKeeps(cfg: Config, h: History, t: nat, k: nat, voter: seq<Entry>, cand: seq<Entry>, bound: nat)
    requires HistoryOk(cfg, h) && LogOk(h, voter) && LogOk(h, cand)
    requires Won(h, t) && 0 < t && LogTerm(LogOf(h, t), k) == t && Agree(LogOf(h, t), voter, k)
    requires UpToDate(LastTerm(cand), |cand|, voter) && LastTerm(cand) < bound
    requires forall u: nat | t < u < bound && Won(h, u) :: Agree(LogOf(h, t), h.elections[u].init, k)
    ensures Agree(LogOf(h, t), cand, k)
  {
    LastTermAtLeast(cfg, h, t, k, voter);
    var w := LastTerm(cand);
    ContainsInit(cfg, h, cand, w);
    var l := LogOf(h, t);
    if w == t {
      ContainsInit(cfg, h, voter, t);
      forall j | 0 <= j < k ensures l[j] == cand[j] {}
    } else {
      var init := h.elections[w].init;
      assert Agree(l, init, k);
      forall j | 0 <= j < k ensures l[j] == cand[j] { assert l[j] == init[j] == cand[j]; }
    }
  }

  /** One voter that acknowledged a prefix which ends in its own term brings it to the winner, provided
      every leader in between started with it. */
  lemma VoterBrings(cfg: Config, h: History, s: nat, t: nat, k: nat, u: nat)
    requires HistoryOk(cfg, h) && Won(h, t) && LogTerm(LogOf(h, t), k) == t && Won(h, u) && t < u
    requires s in h.elections[u].quorum && Acked(h, s, t, k)
    requires forall w: nat | t < w < u && Won(h, w) :: Agree(LogOf(h, t), h.elections[w].init, k)
    ensures Agree(LogOf(h, t), h.elections[u].init, k)
  {
    assert ElectionOk(cfg, h, u);
    TermPositive(cfg, h, t);
    var e := h.elections[u];
    assert Voted(h, s, u) && VoteOk(cfg, h, s, u);
    assert Voted(h, e.leader, u) && VoteOk(cfg, h, e.leader, u);
    var voter := h.votes[(s, u)].log;
    assert Retained(h, t, k, voter, u);
    assert LastTerm(e.init) < u;
    UpToDateKeeps(cfg, h, t, k, voter, e.init, u);
  }

  /** Leader Completeness (section 5.4): what a leader committed is in the log with which every
      later leader starts. */
  lemma {:induction false} LeaderCompleteness(cfg: Config, h: History, t: nat, k: nat, u: nat)
    requires cfg != map[] && HistoryOk(cfg, h) && Committed(cfg, h, t, k) && Won(h, u) && t < u
    ensures Agree(LogOf(h, t), h.elections[u].init, k)
    decreases u
  {
    forall w: nat | t < w < u && Won(h, w) ensures Agree(LogOf(h, t), h.elections[w].init, k) {
      LeaderCompleteness(cfg, h, t, k, w);
    }
    assert ElectionOk(cfg, h, u);
    var s := QuorumsMeet(cfg.Keys, h.elections[u].quorum, AckSet(cfg, h, t, k));
    VoterBrings(cfg, h, s, t, k, u);
  }

  /** Committed entries are in the whole log of every leader from that term on. */
  lemma CommittedInLog(cfg: Config, h: History, t: nat, k: nat, u: nat)
    requires cfg != map[] && HistoryOk(cfg, h) && Committed(cfg, h, t, k) && Won(h, u) && t <= u
    ensures Agree(LogOf(h, t), LogOf(h, u), k)
  {
    if t == u {
      assert k <= |LogOf(h, t)|;
    } else {
      LeaderCompleteness(cfg, h, t, k, u);
      assert ElectionOk(cfg, h, u);
      var e := h.elections[u];
      forall j | 0 <= j < k ensures LogOf(h, t)[j] == e.log[j] { assert LogOf(h, t)[j] == e.init[j]; }
    }
  }

  /** A committed prefix of any server agrees with the log of every leader from its term on. */
  lemma CommitPrefixInLog(cfg: Config, h: History, c: nat, log: seq<Entry>, bound: nat, u: nat)
    requires cfg != map[] && HistoryOk(cfg, h) && CommitOk(cfg, h, c, log, bound) && Won(h, u) && bound <= u
    ensures Agree(log, LogOf(h, u), c)
  {
    if c != 0 {
      var t: nat, k: nat :| Committed(cfg, h, t, k) && t <= bound && c <= k && Agree(log, LogOf(h, t), c);
      CommittedInLog(cfg, h, t, k, u);
      forall j | 0 <= j < c ensures log[j] == LogOf(h, u)[j] { assert log[j] == LogOf(h, t)[j]; }
    }
  }

  /** Any two committed prefixes agree on their common part. */
  lemma CommitPrefixesAgree(cfg: Config, h: History, c: nat, log: seq<Entry>, bound: nat,
                            c': nat, log': seq<Entry>, bound': nat, i: nat)
    requires cfg != map[] && HistoryOk(cfg, h)
    requires CommitOk(cfg, h, c, log, bound) && CommitOk(cfg, h, c', log', bound')
    requires i < c && i < c'
    ensures log[i] == log'[i]
  {
    var t: nat, k: nat :| Committed(cfg, h, t, k) && t <= bound && c <= k && Agree(log, LogOf(h, t), c);
    var t': nat, k': nat :| Committed(cfg, h, t', k') && t' <= bound' && c' <= k' && Agree(log', LogOf(h, t'), c');
    if t <= t' {
      CommittedInLog(cfg, h, t, k, t');
    } else {
      CommittedInLog(cfg, h, t', k', t);
    }
    assert log[i] == LogOf(h, t)[i] && log'[i] == LogOf(h, t')[i];
  }

  /** A term has room for one winner: a second vote quorum would share a voter. */
  lemma NoSecondWinner(cfg: Config, h: History, t: nat, cand: nat, quorum: set<nat>)
    requires cfg != map[] && HistoryOk(cfg, h) && quorum <= cfg.Keys && |quorum| >= MinVotes(|cfg| - 1)
    requires forall s | s in quorum :: Voted(h, s, t) && h.votes[(s, t)].cand == cand
    ensures Won(h, t) ==> h.elections[t].leader == cand
  {
    if Won(h, t) {
      assert ElectionOk(cfg, h, t);
      var s := VotesMeet(cfg.Keys, quorum, h.elections[t].quorum);
      assert h.votes[(s, t)].cand == cand;
    }
  }
}
