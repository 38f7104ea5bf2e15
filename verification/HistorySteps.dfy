/** The ways in which a server adds to the history, each of which keeps the history sound. */
module HistorySteps {
  import opened Messages
  import opened Log
  import opened Protocol
  import opened Cluster
  import opened History
  import opened Stable

  /** The guarantee of one step of server `id`. */
  ghost predicate Extends(cfg: Config, h: History, h': History, id: nat) {
    HistoryOk(cfg, h') && Grows(h, h') && OnlyBy(h, h', id)
  }

  lemma ExtendsTrans(cfg: Config, a: History, b: History, c: History, id: nat)
    requires Extends(cfg, a, b, id) && Extends(cfg, b, c, id)
    ensures Extends(cfg, a, c, id)
  {
    GrowsTrans(a, b, c);
    OnlyByTrans(a, b, c, id);
  }

  lemma StableVote(cfg: Config, h: History, h': History, s: nat, t: nat)
    requires HistoryOk(cfg, h) && Grows(h, h') && Voted(h, s, t)
    requires forall u: nat, k: nat | Acked(h', s, u, k) && u < t :: Acked(h, s, u, k)
    ensures VoteOk(cfg, h', s, t)
  {
    assert VoteOk(cfg, h, s, t);
    var v := h.votes[(s, t)];
    assert Voted(h', s, t) && Voted(h', v.cand, t);
    StableLog(h, h', v.log);
    assert Won(h, t) ==> ElectionGrows(h.elections[t], h'.elections[t]);
    if !Won(h, t) || s in h.elections[t].quorum {
      StableKeepsAcks(cfg, h, h', s, v.log, t);
    }
  }

  lemma StableElection(cfg: Config, h: History, h': History, t: nat)
    requires HistoryOk(cfg, h) && Grows(h, h') && Won(h, t)
    requires ElectionShape(cfg, h'.elections[t], t) && LogOk(h', LogOf(h', t))
    ensures ElectionOk(cfg, h', t)
  {
    assert ElectionOk(cfg, h, t);
    var e, e' := h.elections[t], h'.elections[t];
    assert ElectionGrows(e, e');
    forall s | s in e'.quorum ensures Voted(h', s, t) && h'.votes[(s, t)].cand == e'.leader {
      assert Voted(h, s, t);
    }
    assert Voted(h, e.leader, t);
  }

  lemma SameElection(cfg: Config, h: History, h': History, t: nat)
    requires HistoryOk(cfg, h) && Grows(h, h') && Won(h, t) && h'.elections[t] == h.elections[t]
    ensures ElectionOk(cfg, h', t)
  {
    assert ElectionOk(cfg, h, t);
    StableLog(h, h', LogOf(h, t));
    StableElection(cfg, h, h', t);
  }

  // --- A vote ---------------------------------------------------------------------------------

  ghost function AddVote(h: History, id: nat, t: nat, cand: nat, log: seq<Entry>): History {
    h.(votes := h.votes[(id, t) := Ballot(cand, log)])
  }

  lemma AddVoteGrows(h: History, id: nat, t: nat, cand: nat, log: seq<Entry>)
    requires !Voted(h, id, t)
    ensures Grows(h, AddVote(h, id, t, cand, log)) && OnlyBy(h, AddVote(h, id, t, cand, log), id)
  {
  }

  /** The new vote is sound: nothing the voter acknowledged before is missing from its log. */
  lemma NewVoteOk(cfg: Config, h: History, h': History, id: nat, t: nat)
    requires HistoryOk(cfg, h) && Grows(h, h') && h'.elections == h.elections && h'.acks == h.acks
    requires !Voted(h, id, t) && Voted(h', id, t) && id in cfg && h'.votes[(id, t)].cand in cfg
    requires LogOk(h, h'.votes[(id, t)].log) && (!Won(h, t) ==> KeepsAcks(h, id, h'.votes[(id, t)].log, t))
    requires var v := h'.votes[(id, t)];
             v.cand == id
             || (Voted(h, v.cand, t) && h.votes[(v.cand, t)].cand == v.cand
                 && UpToDate(LastTerm(h.votes[(v.cand, t)].log), |h.votes[(v.cand, t)].log|, v.log))
    ensures VoteOk(cfg, h', id, t)
  {
    var v := h'.votes[(id, t)];
    StableLog(h, h', v.log);
    if Won(h, t) {
      assert ElectionOk(cfg, h, t);
      assert id !in h.elections[t].quorum;
    } else {
      StableKeepsAcks(cfg, h, h', id, v.log, t);
    }
  }

  lemma AddVoteKeeps(cfg: Config, h: History, id: nat, t: nat, cand: nat, log: seq<Entry>)
    requires HistoryOk(cfg, h) && id in cfg && cand in cfg && !Voted(h, id, t)
    requires LogOk(h, log) && (!Won(h, t) ==> KeepsAcks(h, id, log, t))
    requires cand == id
             || (Voted(h, cand, t) && h.votes[(cand, t)].cand == cand
                 && UpToDate(LastTerm(h.votes[(cand, t)].log), |h.votes[(cand, t)].log|, log))
    ensures Extends(cfg, h, AddVote(h, id, t, cand, log), id)
  {
    hide ElectionOk, LogOk, KeepsAcks;
    var h' := AddVote(h, id, t, cand, log);
    AddVoteGrows(h, id, t, cand, log);
    forall u: nat | Won(h', u) ensures ElectionOk(cfg, h', u) { SameElection(cfg, h, h', u); }
    NewVoteOk(cfg, h, h', id, t);
    forall s: nat, u: nat | Voted(h', s, u) ensures VoteOk(cfg, h', s, u) {
      if s != id || u != t {
        assert Voted(h, s, u);
        StableVote(cfg, h, h', s, u);
      }
    }
    forall s: nat, u: nat | (s, u) in h'.acks ensures AckOk(cfg, h', s, u) { assert AckOk(cfg, h, s, u); }
  }

  // --- An acknowledgement ---------------------------------------------------------------------

  ghost function AddAck(h: History, id: nat, t: nat, k: nat): History {
    if Acked(h, id, t, k) then h else h.(acks := h.acks[(id, t) := k])
  }

  lemma AddAckGrows(h: History, id: nat, t: nat, k: nat)
    ensures var h' := AddAck(h, id, t, k);
            && Grows(h, h') && OnlyBy(h, h', id) && Acked(h', id, t, k)
            && (forall s: nat, u: nat, j: nat :: Acked(h', s, u, j) ==> Acked(h, s, u, j) || (s == id && u == t && j <= k))
  {
  }

  lemma AddAckKeeps(cfg: Config, h: History, id: nat, t: nat, k: nat)
    requires HistoryOk(cfg, h) && id in cfg && Won(h, t) && k <= |LogOf(h, t)|
    requires forall u: nat | Voted(h, id, u) :: u <= t
    ensures Extends(cfg, h, AddAck(h, id, t, k), id)
  {
    hide ElectionOk, VoteOk, LogOk, KeepsAcks, Grows, OnlyBy;
    var h' := AddAck(h, id, t, k);
    AddAckGrows(h, id, t, k);
    forall u: nat | Won(h', u) ensures ElectionOk(cfg, h', u) { SameElection(cfg, h, h', u); }
    forall s: nat, u: nat | Voted(h', s, u) ensures VoteOk(cfg, h', s, u) {
      assert Voted(h, s, u);
      StableVote(cfg, h, h', s, u);
    }
    forall s: nat, u: nat | (s, u) in h'.acks ensures AckOk(cfg, h', s, u) {
      assert (s, u) in h.acks ==> AckOk(cfg, h, s, u);
    }
  }

  /** A leader acknowledges its own log of term `t` after its election or log entered `h1`. */
  lemma OwnAck(cfg: Config, h: History, h1: History, id: nat, t: nat, k: nat)
    requires Extends(cfg, h, h1, id) && h1.votes == h.votes && h1.acks == h.acks
    requires id in cfg && Won(h1, t) && k <= |LogOf(h1, t)|
    requires forall u: nat | Voted(h, id, u) :: u <= t
    requires forall u: nat | (id, u) in h.acks :: u <= t
    ensures var h' := AddAck(h1, id, t, k);
            && Extends(cfg, h, h', id) && h'.votes == h.votes && h'.elections == h1.elections && Acked(h', id, t, k)
            && (forall u: nat | (id, u) in h'.acks :: u <= t)
            && (forall u: nat, j: nat | Acked(h', id, u, j) :: Acked(h, id, u, j) || u == t)
  {
    hide HistoryOk, Grows, OnlyBy;
    assert forall u: nat :: Voted(h1, id, u) <==> Voted(h, id, u);
    AddAckKeeps(cfg, h1, id, t, k);
    ExtendsTrans(cfg, h, h1, AddAck(h1, id, t, k), id);
    assert forall u: nat, j: nat :: Acked(h1, id, u, j) <==> Acked(h, id, u, j);
    AddAckGrows(h1, id, t, k);
  }

  // --- A won election -------------------------------------------------------------------------

  /** The winner enters with its log and acknowledges that itself. */
  ghost function AddElection(h: History, t: nat, e: Election): History {
    h.(elections := h.elections[t := e], acks := h.acks[(e.leader, t) := |e.log|])
  }

  lemma AddElectionGrows(h: History, t: nat, e: Election)
    requires !Won(h, t) && (e.leader, t) !in h.acks
    ensures var h' := AddElection(h, t, e);
            && Grows(h, h') && OnlyBy(h, h', e.leader) && Acked(h', e.leader, t, |e.log|)
            && (forall s: nat, u: nat, j: nat :: Acked(h', s, u, j) ==> Acked(h, s, u, j) || (s == e.leader && u == t))
  {
  }

  lemma NoAckYet(cfg: Config, h: History, t: nat)
    requires HistoryOk(cfg, h) && !Won(h, t)
    ensures forall s: nat :: (s, t) !in h.acks
  {
    forall s: nat ensures (s, t) !in h.acks { assert (s, t) in h.acks ==> AckOk(cfg, h, s, t); }
  }

  lemma AddElectionKeeps(cfg: Config, h: History, t: nat, e: Election)
    requires HistoryOk(cfg, h) && !Won(h, t) && ElectionShape(cfg, e, t)
    requires LogOk(h, e.init) && |e.log| == |e.init| + 1
    requires forall s | s in e.quorum :: Voted(h, s, t) && h.votes[(s, t)].cand == e.leader
    requires e.init == h.votes[(e.leader, t)].log
    requires forall u: nat | Voted(h, e.leader, u) :: u <= t
    ensures Extends(cfg, h, AddElection(h, t, e), e.leader)
  {
    hide VoteOk, AckOk, LogOk, Acked, Grows, OnlyBy;
    var h' := AddElection(h, t, e);
    NoAckYet(cfg, h, t);
    AddElectionGrows(h, t, e);
    StableLog(h, h', e.init);
    NewLogOk(h', e, t);
    forall u: nat | Won(h', u) ensures ElectionOk(cfg, h', u) {
      if u != t { SameElection(cfg, h, h', u); }
    }
    forall s: nat, u: nat | Voted(h', s, u) ensures VoteOk(cfg, h', s, u) {
      assert Voted(h, s, u);
      StableVote(cfg, h, h', s, u);
    }
    forall s: nat, u: nat | (s, u) in h'.acks ensures AckOk(cfg, h', s, u) {
      NewAckOk(cfg, h, t, e, s, u);
    }
  }

  lemma NewAckOk(cfg: Config, h: History, t: nat, e: Election, s: nat, u: nat)
    requires HistoryOk(cfg, h) && !Won(h, t) && ElectionShape(cfg, e, t)
    requires (s, u) in AddElection(h, t, e).acks
    ensures AckOk(cfg, AddElection(h, t, e), s, u)
  {
    if (s, u) != (e.leader, t) { assert AckOk(cfg, h, s, u); }
  }

  /** The log a winner has built is made of its first log and entries of its own term. */
  lemma NewLogOk(h: History, e: Election, t: nat)
    requires Won(h, t) && h.elections[t] == e && LogOk(h, e.init)
    requires Agree(e.init, e.log, |e.init|) && forall i | |e.init| <= i < |e.log| :: e.log[i].term == t
    ensures LogOk(h, e.log)
  {
    forall i | 0 <= i < |e.log| ensures EntryOk(h, e.log, i) {
      if i < |e.init| {
        assert EntryOk(h, e.init, i);
        assert e.log[i] == e.init[i];
        var l := LogOf(h, e.init[i].term);
        assert forall j | 0 <= j < i + 1 :: e.log[j] == e.init[j] == l[j];
      }
    }
  }

  // --- A leader goes on -----------------------------------------------------------------------

  /** The leader of `t` appends `more` and sends up to message number `seqno`. */
  ghost function Continue(h: History, t: nat, more: seq<Entry>, seqno: nat): History
    requires Won(h, t)
  {
    h.(elections := h.elections[t := h.elections[t].(log := LogOf(h, t) + more, seqno := seqno)])
  }

  lemma ContinueGrows(h: History, t: nat, more: seq<Entry>, seqno: nat)
    requires Won(h, t) && seqno >= h.elections[t].seqno
    ensures Grows(h, Continue(h, t, more, seqno)) && OnlyBy(h, Continue(h, t, more, seqno), h.elections[t].leader)
  {
    var h' := Continue(h, t, more, seqno);
    forall u: nat | Won(h, u) ensures ElectionGrows(h.elections[u], h'.elections[u]) {}
  }

  lemma VoterLog(cfg: Config, h: History, s: nat, t: nat)
    requires HistoryOk(cfg, h) && Voted(h, s, t)
    ensures LogOk(h, h.votes[(s, t)].log)
  {
    assert VoteOk(cfg, h, s, t);
  }

  /** The election of `t` after the leader went on. */
  lemma ContinueElection(cfg: Config, h: History, t: nat, more: seq<Entry>, seqno: nat)
    requires HistoryOk(cfg, h) && Won(h, t) && seqno >= h.elections[t].seqno
    requires forall e | e in more :: e.term == t
    ensures var h' := Continue(h, t, more, seqno);
            && Grows(h, h') && OnlyBy(h, h', h.elections[t].leader)
            && ElectionShape(cfg, h'.elections[t], t) && LogOk(h, h.elections[t].init)
  {
    ContinueGrows(h, t, more, seqno);
    hide Grows, OnlyBy, LogOk, VoteOk;
    var h' := Continue(h, t, more, seqno);
    var e, e' := h.elections[t], h'.elections[t];
    assert ElectionOk(cfg, h, t);
    assert Voted(h, e.leader, t) && LogOk(h, h.votes[(e.leader, t)].log) by { VoterLog(cfg, h, e.leader, t); }
    hide HistoryOk, LogOk;
    assert forall i | |e.log| <= i < |e'.log| :: e'.log[i] in more;
    assert forall i | 0 <= i < |e.init| :: e.init[i] == e.log[i] == e'.log[i];
  }

  lemma ContinueKeeps(cfg: Config, h: History, t: nat, more: seq<Entry>, seqno: nat)
    requires HistoryOk(cfg, h) && Won(h, t) && seqno >= h.elections[t].seqno
    requires forall e | e in more :: e.term == t
    ensures Extends(cfg, h, Continue(h, t, more, seqno), h.elections[t].leader)
  {
    var h' := Continue(h, t, more, seqno);
    ContinueElection(cfg, h, t, more, seqno);
    StableLog(h, h', h.elections[t].init);
    NewLogOk(h', h'.elections[t], t);
    forall u: nat | Won(h', u) ensures ElectionOk(cfg, h', u) {
      if u == t { StableElection(cfg, h, h', t); } else { SameElection(cfg, h, h', u); }
    }
    SameVotersAndAcks(cfg, h, h');
  }

  /** A history that grows in elections only. */
  lemma SameVotersAndAcks(cfg: Config, h: History, h': History)
    requires HistoryOk(cfg, h) && Grows(h, h') && h'.votes == h.votes && h'.acks == h.acks
    ensures forall s: nat, u: nat | Voted(h', s, u) :: VoteOk(cfg, h', s, u)
    ensures forall s: nat, u: nat | (s, u) in h'.acks :: AckOk(cfg, h', s, u)
  {
    forall s: nat, u: nat | Voted(h', s, u) ensures VoteOk(cfg, h', s, u) {
      assert Voted(h, s, u);
      StableVote(cfg, h, h', s, u);
    }
    forall s: nat, u: nat | (s, u) in h'.acks ensures AckOk(cfg, h', s, u) {
      assert AckOk(cfg, h, s, u);
      assert ElectionGrows(h.elections[u], h'.elections[u]);
    }
  }
}
