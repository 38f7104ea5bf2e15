/** What is true of the past stays true when the history grows. */
module Stable {
  import opened Messages
  import opened Log
  import opened Protocol
  import opened Commit
  import opened Cluster
  import opened History

  lemma StableLog(h: History, h': History, log: seq<Entry>)
    requires Grows(h, h') && LogOk(h, log)
    ensures LogOk(h', log)
  {
    forall i | 0 <= i < |log| ensures EntryOk(h', log, i) {
      assert EntryOk(h, log, i);
      var t := log[i].term;
      assert ElectionGrows(h.elections[t], h'.elections[t]);
    }
  }

  lemma StableRetained(h: History, h': History, t: nat, k: nat, log: seq<Entry>, bound: nat)
    requires Grows(h, h') && Retained(h, t, k, log, bound) && k <= |LogOf(h, t)|
    ensures Retained(h', t, k, log, bound)
  {
    assert ElectionGrows(h.elections[t], h'.elections[t]);
    if !Agree(LogOf(h, t), log, k) {
      var u: nat :| t < u < bound && Won(h, u) && !Agree(LogOf(h, t), h.elections[u].init, k);
      assert ElectionGrows(h.elections[u], h'.elections[u]);
      assert Won(h', u) && !Agree(LogOf(h', t), h'.elections[u].init, k);
    }
  }

  /** When `s` acknowledged nothing new, what it kept it still keeps. */
  lemma StableKeepsAcks(cfg: Config, h: History, h': History, s: nat, log: seq<Entry>, bound: nat)
    requires HistoryOk(cfg, h) && Grows(h, h') && KeepsAcks(h, s, log, bound)
    requires forall t: nat, k: nat | Acked(h', s, t, k) && t < bound :: Acked(h, s, t, k)
    ensures KeepsAcks(h', s, log, bound)
  {
    forall t: nat, k: nat | Acked(h', s, t, k) && t < bound ensures Retained(h', t, k, log, bound) {
      assert Acked(h, s, t, k);
      assert AckOk(cfg, h, s, t);
      StableRetained(h, h', t, k, log, bound);
    }
  }

  lemma StableCommitted(cfg: Config, h: History, h': History, t: nat, k: nat)
    requires Grows(h, h') && Committed(cfg, h, t, k) && 0 < t
    ensures Committed(cfg, h', t, k)
  {
    assert ElectionGrows(h.elections[t], h'.elections[t]);
    forall s | s in AckSet(cfg, h, t, k) ensures s in AckSet(cfg, h', t, k) {
      assert Acked(h', s, t, k);
    }
    SubsetSize(AckSet(cfg, h, t, k), AckSet(cfg, h', t, k));
  }

  lemma StableCommitOk(cfg: Config, h: History, h': History, c: nat, log: seq<Entry>, bound: nat)
    requires HistoryOk(cfg, h) && Grows(h, h') && CommitOk(cfg, h, c, log, bound)
    ensures CommitOk(cfg, h', c, log, bound)
  {
    if c != 0 {
      var t: nat, k: nat :| Committed(cfg, h, t, k) && t <= bound && c <= k && Agree(log, LogOf(h, t), c);
      assert ElectionOk(cfg, h, t);
      StableCommitted(cfg, h, h', t, k);
      assert ElectionGrows(h.elections[t], h'.elections[t]);
      assert Agree(log, LogOf(h', t), c);
    }
  }

  /** A server that did not move keeps its relation to the history. */
  lemma StableNode(cfg: Config, h: History, h': History, mover: nat, id: nat, n: Node)
    requires HistoryOk(cfg, h) && Grows(h, h') && OnlyBy(h, h', mover) && id != mover
    requires NodeOk(cfg, h, id, n)
    ensures NodeOk(cfg, h', id, n)
  {
    StableLog(h, h', n.log);
    StableKeepsAcks(cfg, h, h', id, n.log, n.currentTerm + 1);
    StableCommitOk(cfg, h, h', n.vol.commitIndex, n.log, n.currentTerm);
    StableTerm(h, h', mover, id, n);
    if n.role == Candidate { StableCandidate(cfg, h, h', mover, id, n); }
    if n.role == Leader { StableLeader(cfg, h, h', mover, id, n); }
  }

  lemma StableTerm(h: History, h': History, mover: nat, id: nat, n: Node)
    requires Grows(h, h') && OnlyBy(h, h', mover) && id != mover
    requires TermOk(h, id, n) && VotedForOk(h, id, n)
    ensures TermOk(h', id, n) && VotedForOk(h', id, n)
  {
    forall t: nat | Won(h', t) && h'.elections[t].leader == id ensures t <= n.currentTerm {
      assert Won(h, t);
    }
    assert Voted(h', id, n.currentTerm) <==> Voted(h, id, n.currentTerm);
  }

  lemma StableCandidate(cfg: Config, h: History, h': History, mover: nat, id: nat, n: Node)
    requires Grows(h, h') && OnlyBy(h, h', mover) && id != mover && CandidateOk(cfg, h, id, n)
    ensures CandidateOk(cfg, h', id, n)
  {
    assert Won(h', n.currentTerm) && h'.elections[n.currentTerm].leader == id ==> Won(h, n.currentTerm);
    forall p | p in n.vol.votes
      ensures p in cfg && p != id && Voted(h', p, n.currentTerm) && h'.votes[(p, n.currentTerm)].cand == id
    {
      assert Voted(h, p, n.currentTerm);
    }
  }

  lemma StableLeader(cfg: Config, h: History, h': History, mover: nat, id: nat, n: Node)
    requires Grows(h, h') && OnlyBy(h, h', mover) && id != mover && LeaderOk(cfg, h, id, n)
    ensures LeaderOk(cfg, h', id, n)
  {
    var t := n.currentTerm;
    assert Won(h', t) && ElectionGrows(h.elections[t], h'.elections[t]);
    forall p | p in cfg && p != id ensures PeerViewOk(h', n, p) {
      assert PeerViewOk(h, n, p);
    }
  }

  lemma StableMessage(cfg: Config, h: History, h': History, m: Message)
    requires HistoryOk(cfg, h) && Grows(h, h') && MessageOk(cfg, h, m)
    ensures MessageOk(cfg, h', m)
  {
    match m
    case RequestVote(src, _, term, _, _, _) => assert Voted(h', src, term);
    case Vote(src, _, term, granted) => if granted { assert Voted(h', src, term); }
    case Append(_, _, term, _, _, _, _, _, _, _) =>
      assert ElectionGrows(h.elections[term], h'.elections[term]);
      StableCommitOk(cfg, h, h', m.leaderCommit, LogOf(h, term), term);
      StableSlice(cfg, h, h', m);
    case Appended(src, _, term, _, matchIndex, success) =>
      if success { assert ElectionGrows(h.elections[term], h'.elections[term]); }
  }

  lemma StableSlice(cfg: Config, h: History, h': History, m: Message)
    requires m.Append? && AppendOk(cfg, h, m) && Grows(h, h')
    requires CommitOk(cfg, h', m.leaderCommit, LogOf(h, m.term), m.term)
    ensures AppendOk(cfg, h', m)
  {
    var e, e' := h.elections[m.term], h'.elections[m.term];
    assert Won(h', m.term) && ElectionGrows(e, e');
    hide Grows, CommitOk;
    var a, b := m.prevLogIndex, m.prevLogIndex + |m.entries|;
    assert e.log[a..b] == e'.log[a..b];
    CommitOkLonger(cfg, h', m.leaderCommit, e.log, e'.log, m.term);
  }

  /** What is committed of a log is committed of a longer one. */
  lemma CommitOkLonger(cfg: Config, h: History, c: nat, log: seq<Entry>, log': seq<Entry>, bound: nat)
    requires CommitOk(cfg, h, c, log, bound) && Agree(log, log', |log|)
    ensures CommitOk(cfg, h, c, log', bound)
  {
    if c != 0 {
      var t: nat, k: nat :| Committed(cfg, h, t, k) && t <= bound && c <= k && Agree(log, LogOf(h, t), c);
      assert Agree(log', LogOf(h, t), c);
    }
  }

  lemma GrowsTrans(a: History, b: History, c: History)
    requires Grows(a, b) && Grows(b, c)
    ensures Grows(a, c)
  {
    forall t: nat | Won(a, t) ensures Won(c, t) && ElectionGrows(a.elections[t], c.elections[t]) {
      assert ElectionGrows(a.elections[t], b.elections[t]) && ElectionGrows(b.elections[t], c.elections[t]);
    }
    forall s: nat, t: nat | Voted(a, s, t) ensures Voted(c, s, t) && c.votes[(s, t)] == a.votes[(s, t)] {
      assert Voted(b, s, t);
    }
    forall s: nat, t: nat, k: nat | Acked(a, s, t, k) ensures Acked(c, s, t, k) {
      assert Acked(b, s, t, k);
    }
  }

  lemma OnlyByTrans(a: History, b: History, c: History, id: nat)
    requires OnlyBy(a, b, id) && OnlyBy(b, c, id)
    ensures OnlyBy(a, c, id)
  {
    forall t: nat | Won(c, t) && c.elections[t].leader != id
      ensures Won(a, t) && c.elections[t] == a.elections[t]
    {
      assert Won(b, t);
    }
    forall s: nat, t: nat | Voted(c, s, t) && s != id ensures Voted(a, s, t) { assert Voted(b, s, t); }
    forall s: nat, t: nat, k: nat | Acked(c, s, t, k) && s != id ensures Acked(a, s, t, k) { assert Acked(b, s, t, k); }
  }
}
