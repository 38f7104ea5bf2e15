/** The steps of a leader: taking replies and sending requests. */
module PreserveLeader {
  import opened Messages
  import opened Log
  import opened Protocol
  import opened Commit
  import opened Cluster
  import opened History
  import opened Stable
  import opened HistorySteps
  import opened Preserve

  // --- Replies to the leader ------------------------------------------------------------------

  lemma LeaderElection(cfg: Config, h: History, id: nat, n: Node)
    requires NodeOk(cfg, h, id, n) && n.role == Leader
    ensures Won(h, n.currentTerm) && h.elections[n.currentTerm].leader == id
    ensures h.elections[n.currentTerm].log == n.log && h.elections[n.currentTerm].seqno == n.seqno
  {
  }

  lemma LeaderViews(cfg: Config, h: History, id: nat, n: Node)
    requires NodeOk(cfg, h, id, n) && n.role == Leader
    ensures forall p | p in cfg && p != id :: PeerViewOk(h, n, p)
  {
  }

  /** The parts of a leader that a reply does not touch. */
  ghost predicate SameLeader(n: Node, n': Node) {
    && n'.currentTerm == n.currentTerm && n'.votedFor == n.votedFor && n'.log == n.log
    && n'.seqno == n.seqno && n'.role == n.role && n'.vol.electionDue == n.vol.electionDue
  }

  lemma ReplyAcked(cfg: Config, h: History, m: Message)
    requires HistoryOk(cfg, h) && m.Appended? && m.success && MessageOk(cfg, h, m)
    ensures Won(h, m.term) && Acked(h, m.src, m.term, m.matchIndex) && m.matchIndex <= |LogOf(h, m.term)|
  {
    AckBound(cfg, h, m.src, m.term, m.matchIndex);
  }

  lemma ReplyView(cfg: Config, h: History, id: nat, n: Node, m: Message, n': Node)
    requires Before(cfg, h, id, n) && n.role == Leader && m.Appended? && MessageOk(cfg, h, m) && m.dst == id
    requires m.term == n.currentTerm && SameLeader(n, n')
    requires n'.vol.nextIndex == OnReply(n.vol, m).nextIndex && n'.vol.matchIndex == OnReply(n.vol, m).matchIndex
    ensures forall p | p in cfg && p != id :: PeerViewOk(h, n', p)
  {
    if m.success { ReplyAcked(cfg, h, m); }
    LeaderElection(cfg, h, id, n);
    LeaderViews(cfg, h, id, n);
    hide HistoryOk, NodeOk, ValidConfig, ValidPeers, PeerViewOk, OnReply, MessageOk;
    forall p | p in cfg && p != id ensures PeerViewOk(h, n', p) { OneView(h, n, m, n', p); }
  }

  /** The view of one peer after a reply. */
  lemma OneView(h: History, n: Node, m: Message, n': Node, p: nat)
    requires PeerViewOk(h, n, p) && m.Appended? && m.term == n.currentTerm && SameLeader(n, n')
    requires m.success ==> m.matchIndex <= |n.log| && Acked(h, m.src, n.currentTerm, m.matchIndex)
    requires n'.vol.nextIndex == OnReply(n.vol, m).nextIndex && n'.vol.matchIndex == OnReply(n.vol, m).matchIndex
    ensures PeerViewOk(h, n', p)
  {
  }

  /** What CommitAdvance commits, a commit quorum has acknowledged. */
  lemma AdvanceCommits(cfg: Config, h: History, id: nat, n: Node, v: Volatile, seqno: nat)
    requires Before(cfg, h, id, n) && n.role == Leader
    requires forall p | p in cfg && p != id ::
               Get(v.matchIndex, p) == 0 || Acked(h, p, n.currentTerm, Get(v.matchIndex, p))
    requires v.commitIndex == n.vol.commitIndex
    ensures CommitOk(cfg, h, CommitAdvance(v, cfg[id], n.currentTerm, n.log, seqno).commitIndex, n.log, n.currentTerm)
  {
    hide HistoryOk, LogOk, KeepsAcks;
    var t := n.currentTerm;
    var q := QuorumIndex(cfg[id], v.matchIndex, |n.log|);
    if CommitAdvance(v, cfg[id], t, n.log, seqno).commitIndex != n.vol.commitIndex {
      PeerCount(cfg, id);
      QuorumIndexIsLargest(id, cfg[id], v.matchIndex, |n.log|);
      HoldersAcked(cfg, h, id, n, v.matchIndex, q);
      assert Committed(cfg, h, t, q);
    }
  }

  lemma HoldersAcked(cfg: Config, h: History, id: nat, n: Node, matched: map<nat, nat>, q: nat)
    requires ValidConfig(cfg) && id in cfg && ValidPeers(cfg, id) && q != 0
    requires Acked(h, id, n.currentTerm, |n.log|)
    requires forall p | p in cfg && p != id :: Get(matched, p) == 0 || Acked(h, p, n.currentTerm, Get(matched, p))
    ensures |Holders(id, cfg[id], matched, |n.log|, q)| <= |AckSet(cfg, h, n.currentTerm, q)|
  {
    var holders := Holders(id, cfg[id], matched, |n.log|, q);
    forall s | s in holders ensures s in AckSet(cfg, h, n.currentTerm, q) {
      if s != id { assert Acked(h, s, n.currentTerm, Get(matched, s)); }
    }
    SubsetSize(holders, AckSet(cfg, h, n.currentTerm, q));
  }

  /** A leader whose log, term and counter stay, with sound views of its peers. */
  lemma LeaderStays(cfg: Config, h: History, id: nat, n: Node, n': Node)
    requires NodeOk(cfg, h, id, n) && n.role == Leader && SameLeader(n, n')
    requires CommitOk(cfg, h, n'.vol.commitIndex, n.log, n.currentTerm)
    requires n'.vol.commitSeqno == 0 || n'.vol.commitSeqno < n.seqno
    requires forall p | p in cfg && p != id :: PeerViewOk(h, n', p)
    ensures NodeOk(cfg, h, id, n')
  {
  }

  lemma OnAppendedShape(peers: seq<nat>, n: Node, m: Message)
    requires m.Appended? && m.term == n.currentTerm
    ensures var r, v := OnAppended(peers, n, m), OnReply(n.vol, m);
            && r.sent == [] && SameLeader(n, r.node)
            && r.node.vol.nextIndex == v.nextIndex && r.node.vol.matchIndex == v.matchIndex
            && v.commitIndex == n.vol.commitIndex
            && r.node.vol.commitIndex == (if m.success then CommitAdvance(v, peers, n.currentTerm, n.log, m.seqno).commitIndex
                                          else n.vol.commitIndex)
            && (r.node.vol.commitSeqno == n.vol.commitSeqno
                || (m.success && r.node.vol.commitSeqno == Max(n.vol.commitSeqno, m.seqno)))
  {
    hide QuorumIndex;
  }

  lemma AckedView(h: History, n: Node, p: nat)
    requires PeerViewOk(h, n, p)
    ensures Get(n.vol.matchIndex, p) == 0 || Acked(h, p, n.currentTerm, Get(n.vol.matchIndex, p))
  {
  }

  lemma LeaderCounts(cfg: Config, h: History, id: nat, n: Node)
    requires NodeOk(cfg, h, id, n) && n.role == Leader
    ensures n.vol.commitSeqno == 0 || n.vol.commitSeqno < n.seqno
    ensures n.seqno == h.elections[n.currentTerm].seqno
    ensures CommitOk(cfg, h, n.vol.commitIndex, n.log, n.currentTerm)
  {
  }

  lemma ReplyCommits(cfg: Config, h: History, id: nat, n: Node, m: Message)
    requires Before(cfg, h, id, n) && n.role == Leader && m.Appended? && MessageOk(cfg, h, m) && m.dst == id
    requires m.term == n.currentTerm && m.success
    ensures CommitOk(cfg, h, CommitAdvance(OnReply(n.vol, m), cfg[id], n.currentTerm, n.log, m.seqno).commitIndex,
                     n.log, n.currentTerm)
  {
    hide HistoryOk, NodeOk, CommitOk, CommitAdvance, PeerViewOk, ValidConfig, ValidPeers, Acked, MessageOk;
    var v := OnReply(n.vol, m);
    ReplyView(cfg, h, id, n, m, n.(vol := v));
    forall p | p in cfg && p != id
      ensures Get(v.matchIndex, p) == 0 || Acked(h, p, n.currentTerm, Get(v.matchIndex, p))
    {
      AckedView(h, n.(vol := v), p);
    }
    AdvanceCommits(cfg, h, id, n, v, m.seqno);
  }

  lemma ReplyKeeps(cfg: Config, h: History, id: nat, n: Node, m: Message)
    requires Before(cfg, h, id, n) && n.role == Leader && m.Appended? && MessageOk(cfg, h, m) && m.dst == id
    ensures Keeps(cfg, h, h, id, OnAppended(cfg[id], n, m))
  {
    SameHistory(cfg, h, id);
    hide HistoryOk, NodeOk, CommitOk, Extends, CommitAdvance, PeerViewOk, ValidConfig, ValidPeers, MessageOk, OnReply;
    if m.term == n.currentTerm {
      var n' := OnAppended(cfg[id], n, m).node;
      OnAppendedShape(cfg[id], n, m);
      hide OnAppended;
      LeaderCounts(cfg, h, id, n);
      if m.success {
        ReplyCommits(cfg, h, id, n, m);
        ReplyNumbered(cfg, h, m);
      }
      ReplyView(cfg, h, id, n, m, n');
      LeaderStays(cfg, h, id, n, n');
    }
  }

  lemma ReplyNumbered(cfg: Config, h: History, m: Message)
    requires m.Appended? && m.success && MessageOk(cfg, h, m)
    ensures Won(h, m.term) && m.seqno < h.elections[m.term].seqno
  {
  }

  // --- Sending --------------------------------------------------------------------------------

  /** `m` is the request `n` would build for its destination, up to the message counter. */
  ghost predicate IsRequest(id: nat, peers: seq<nat>, n: Node, m: Message, bound: nat) {
    m.Append? && m.dst in peers && n.seqno <= m.seqno < bound && m == RequestTo(id, n, m.dst, m.seqno)
  }

  /** Timers and the counter do not show in a request. */
  lemma SameRequest(id: nat, peers: seq<nat>, n: Node, s: Node, p: nat)
    requires OnlySent(n, s) && p in peers
    ensures IsRequest(id, peers, n, CreateAppendEntries(id, s, p), s.seqno + 1)
  {
  }

  lemma HeartbeatRequest(id: nat, peers: seq<nat>, n: Node, s: Node, p: nat, now: nat)
    requires OnlySent(n, s) && p in peers
    ensures var r := HeartbeatTo(id, s, p, now);
            OnlySent(n, r.node) && s.seqno <= r.node.seqno
            && forall m | m in r.sent :: IsRequest(id, peers, n, m, r.node.seqno)
  {
    var s' := s.(vol := s.vol.(heartbeatDue := s.vol.heartbeatDue[p := At(now + ELECTION / 2)],
                               rpcDue := s.vol.rpcDue[p := At(now + RPC)]));
    SameRequest(id, peers, n, s', p);
  }

  /** Requests to some peers are requests to more peers, with a larger counter. */
  lemma WidenRequests(id: nat, peers: seq<nat>, peers': seq<nat>, n: Node, sent: seq<Message>, bound: nat, bound': nat)
    requires forall m | m in sent :: IsRequest(id, peers, n, m, bound)
    requires bound <= bound' && forall p | p in peers :: p in peers'
    ensures forall m | m in sent :: IsRequest(id, peers', n, m, bound')
  {
    forall m | m in sent ensures IsRequest(id, peers', n, m, bound') { assert IsRequest(id, peers, n, m, bound); }
  }

  lemma {:induction false} HeartbeatRequests(id: nat, peers: seq<nat>, n: Node, now: nat)
    ensures var r := Heartbeats(id, peers, n, now);
            OnlySent(n, r.node) && forall m | m in r.sent :: IsRequest(id, peers, n, m, r.node.seqno)
  {
    hide IsRequest, HeartbeatTo;
    if peers != [] {
      var before := Heartbeats(id, peers[..|peers| - 1], n, now);
      HeartbeatRequests(id, peers[..|peers| - 1], n, now);
      var p := peers[|peers| - 1];
      HeartbeatRequest(id, peers, n, before.node, p, now);
      var last := HeartbeatTo(id, before.node, p, now);
      WidenRequests(id, peers[..|peers| - 1], peers, n, before.sent, before.node.seqno, last.node.seqno);
    }
  }

  lemma {:induction false} ReadRequests(id: nat, peers: seq<nat>, n: Node)
    ensures var r := ApproveRead(id, peers, n);
            OnlySent(n, r.node) && r.node.seqno == n.seqno + |peers|
            && forall m | m in r.sent :: IsRequest(id, peers, n, m, r.node.seqno)
  {
    hide IsRequest;
    if peers != [] {
      var before := ApproveRead(id, peers[..|peers| - 1], n);
      ReadRequests(id, peers[..|peers| - 1], n);
      var p := peers[|peers| - 1];
      SameRequest(id, peers, n, before.node, p);
      WidenRequests(id, peers[..|peers| - 1], peers, n, before.sent, before.node.seqno, before.node.seqno + 1);
    }
  }

  /** The requests of a leader are slices of its log. */
  lemma RequestShape(id: nat, peers: seq<nat>, n: Node, m: Message, bound: nat)
    requires IsRequest(id, peers, n, m, bound) && NextInRange(n, m.dst)
    ensures m.Append? && m.dst in peers && m.seqno < bound
    ensures m.src == id && m.term == n.currentTerm && m.leaderId == id
            && m.nentries == |m.entries| && m.prevLogIndex + |m.entries| <= |n.log|
            && m.entries == n.log[m.prevLogIndex..m.prevLogIndex + |m.entries|]
            && m.prevLogTerm == LogTerm(n.log, m.prevLogIndex)
            && m.leaderCommit <= m.prevLogIndex + |m.entries| && m.leaderCommit <= n.vol.commitIndex
  {
  }

  /** Sent by a leader whose term's log is its own and whose counter has passed it, a request is
      in order. */
  lemma RequestOk(cfg: Config, h: History, id: nat, n: Node, m: Message)
    requires ValidConfig(cfg) && id in cfg && ValidPeers(cfg, id)
    requires Won(h, n.currentTerm) && h.elections[n.currentTerm].leader == id && LogOf(h, n.currentTerm) == n.log
    requires CommitOk(cfg, h, n.vol.commitIndex, n.log, n.currentTerm)
    requires IsRequest(id, cfg[id], n, m, h.elections[n.currentTerm].seqno) && NextInRange(n, m.dst)
    ensures MessageOk(cfg, h, m)
  {
    hide CommitOk, IsRequest, LogTerm, NextInRange;
    RequestShape(id, cfg[id], n, m, h.elections[n.currentTerm].seqno);
    TransferCommitDown(cfg, h, n.vol.commitIndex, n.log, n.currentTerm, m.leaderCommit);
  }

  lemma TransferCommitDown(cfg: Config, h: History, c: nat, log: seq<Entry>, bound: nat, c': nat)
    requires CommitOk(cfg, h, c, log, bound) && c' <= c
    ensures CommitOk(cfg, h, c', log, bound)
  {
    TransferCommit(cfg, h, c, log, bound, c', log, bound);
  }

  lemma OwnLogAcked(cfg: Config, h: History, id: nat, n: Node)
    requires NodeOk(cfg, h, id, n) && n.role == Leader
    ensures Acked(h, id, n.currentTerm, |n.log|) && forall u: nat | (id, u) in h.acks :: u <= n.currentTerm
  {
  }

  lemma SameAcks(h: History, t: nat, more: seq<Entry>, seqno: nat, id: nat, k: nat)
    requires Won(h, t) && Acked(h, id, t, k)
    ensures Acked(Continue(h, t, more, seqno), id, t, k) && Continue(h, t, more, seqno).acks == h.acks
  {
  }

  /** The history of a leader that only sends. */
  lemma SendHistory(cfg: Config, h: History, id: nat, n: Node, seqno: nat)
    requires Before(cfg, h, id, n) && n.role == Leader && n.seqno <= seqno
    ensures var h' := Continue(h, n.currentTerm, [], seqno);
            && Extends(cfg, h, h', id) && LogOf(h', n.currentTerm) == n.log
            && Acked(h', id, n.currentTerm, |n.log|)
            && CommitOk(cfg, h', n.vol.commitIndex, n.log, n.currentTerm)
            && (forall u: nat | (id, u) in h'.acks :: u <= n.currentTerm)
  {
    hide HistoryOk, NodeOk, CommitOk, OnlyBy, Grows, ValidPeers, ValidConfig, Acked;
    LeaderElection(cfg, h, id, n);
    LeaderCounts(cfg, h, id, n);
    OwnLogAcked(cfg, h, id, n);
    assert n.log + [] == n.log;
    ContinueKeeps(cfg, h, n.currentTerm, [], seqno);
    SameAcks(h, n.currentTerm, [], seqno, id, |n.log|);
    StableCommitOk(cfg, h, Continue(h, n.currentTerm, [], seqno), n.vol.commitIndex, n.log, n.currentTerm);
  }

  /** A leader sends requests and moves its message counter on. */
  lemma SendKeeps(cfg: Config, h: History, id: nat, n: Node, r: Step) returns (h': History)
    requires Before(cfg, h, id, n) && n.role == Leader && OnlySent(n, r.node)
    requires forall m | m in r.sent :: IsRequest(id, cfg[id], n, m, r.node.seqno)
    ensures Keeps(cfg, h, h', id, r)
  {
    hide HistoryOk, LogOk, KeepsAcks, CommitOk, Grows, OnlyBy, RequestTo;
    SendHistory(cfg, h, id, n, r.node.seqno);
    h' := Continue(h, n.currentTerm, [], r.node.seqno);
    LeaderMovesOn(cfg, h, h', id, n, r.node, 0);
    forall m | m in r.sent ensures MessageOk(cfg, h', m) {
      assert PeerViewOk(h, n, m.dst);
      RequestOk(cfg, h', id, n, m);
    }
  }

  lemma TermsMoveOn(cfg: Config, h: History, h': History, id: nat, n: Node, n': Node)
    requires TermOk(h, id, n) && HistoryOk(cfg, h') && Grows(h, h') && h'.votes == h.votes
    requires Won(h', n.currentTerm) && n'.log == LogOf(h', n.currentTerm) && n'.currentTerm == n.currentTerm
    requires forall u: nat | Won(h', u) :: Won(h, u)
    requires forall t: nat | (id, t) in h'.acks :: t <= n.currentTerm
    ensures TermOk(h', id, n')
  {
    hide HistoryOk, Grows;
    OwnTerms(cfg, h', n.currentTerm);
    forall u: nat | Won(h', u) && h'.elections[u].leader == id ensures u <= n.currentTerm { SameWinner(h, h', u); }
    assert forall u: nat :: Voted(h', id, u) <==> Voted(h, id, u);
  }

  lemma SameWinner(h: History, h': History, t: nat)
    requires Grows(h, h') && Won(h, t)
    ensures Won(h', t) && h'.elections[t].leader == h.elections[t].leader
  {
    assert ElectionGrows(h.elections[t], h'.elections[t]);
  }

  lemma WinnersLog(cfg: Config, h: History, t: nat)
    requires HistoryOk(cfg, h) && Won(h, t)
    ensures LogOk(h, LogOf(h, t))
  {
    assert ElectionOk(cfg, h, t);
  }

  lemma ViewMovesOn(h: History, h': History, n: Node, n': Node, p: nat)
    requires PeerViewOk(h, n, p) && Grows(h, h') && |n'.log| >= |n.log| && n'.currentTerm == n.currentTerm
    requires n'.vol.nextIndex == n.vol.nextIndex && n'.vol.matchIndex == n.vol.matchIndex
    ensures PeerViewOk(h', n', p)
  {
  }

  /** The leader's own record and the history move together: `more` entries were appended. */
  lemma LeaderMovesOn(cfg: Config, h: History, h': History, id: nat, n: Node, n': Node, more: nat)
    requires Before(cfg, h, id, n) && n.role == Leader && Extends(cfg, h, h', id)
    requires Won(h', n.currentTerm) && h'.elections[n.currentTerm].leader == id
    requires n'.log == LogOf(h', n.currentTerm) && n'.seqno == h'.elections[n.currentTerm].seqno
    requires |n'.log| == |n.log| + more && Agree(n.log, n'.log, |n.log|)
    requires n'.seqno >= n.seqno && n'.currentTerm == n.currentTerm && n'.votedFor == n.votedFor && n'.role == Leader
    requires n'.vol == n.vol.(heartbeatDue := n'.vol.heartbeatDue, rpcDue := n'.vol.rpcDue)
    requires Acked(h', id, n.currentTerm, |n'.log|)
    requires h'.votes == h.votes && forall u: nat | Won(h', u) :: Won(h, u)
    requires forall t: nat | (id, t) in h'.acks :: t <= n.currentTerm
    requires forall u: nat, k: nat | Acked(h', id, u, k) :: Acked(h, id, u, k) || u == n.currentTerm
    ensures NodeOk(cfg, h', id, n')
  {
    hide HistoryOk, Grows, OnlyBy, LogOk, KeepsAcks, CommitOk, TermOk, PeerViewOk, Agree, ValidConfig, ValidPeers,
         CandidateOk, Acked;
    var t := n.currentTerm;
    LeaderCounts(cfg, h, id, n);
    LeaderViews(cfg, h, id, n);
    TermsMoveOn(cfg, h, h', id, n, n');
    WinnersLog(cfg, h', t);
    assert CommitOk(cfg, h', n.vol.commitIndex, n'.log, t) by {
      StableCommitOk(cfg, h, h', n.vol.commitIndex, n.log, t);
      CommitOkLonger(cfg, h', n.vol.commitIndex, n.log, n'.log, t);
    }
    assert KeepsAcks(h', id, n'.log, t + 1) by { LeaderKeepsAcks(cfg, h, h', id, n, n'.log); }
    forall p | p in cfg && p != id ensures PeerViewOk(h', n', p) { ViewMovesOn(h, h', n, n', p); }
  }

  lemma OwnTerms(cfg: Config, h: History, t: nat)
    requires HistoryOk(cfg, h) && Won(h, t)
    ensures forall i | 0 <= i < |LogOf(h, t)| :: LogOf(h, t)[i].term <= t
  {
    assert ElectionOk(cfg, h, t);
    var e := h.elections[t];
    forall i | 0 <= i < |e.log| ensures e.log[i].term <= t {
      if i < |e.init| { assert e.log[i] == e.init[i]; }
    }
  }

  lemma LeaderKeepsAcks(cfg: Config, h: History, h': History, id: nat, n: Node, log': seq<Entry>)
    requires Before(cfg, h, id, n) && Extends(cfg, h, h', id)
    requires Won(h', n.currentTerm) && log' == LogOf(h', n.currentTerm)
    requires |log'| >= |n.log| && Agree(n.log, log', |n.log|)
    requires forall u: nat, k: nat | Acked(h', id, u, k) :: Acked(h, id, u, k) || u == n.currentTerm
    ensures KeepsAcks(h', id, log', n.currentTerm + 1)
  {
    hide HistoryOk, NodeOk, Grows, OnlyBy, Retained, Acked, Agree, ValidPeers, ValidConfig;
    var t := n.currentTerm;
    forall u: nat, k: nat | Acked(h', id, u, k) && u < t + 1 ensures Retained(h', u, k, log', t + 1) {
      if u == t {
        AckBound(cfg, h', id, u, k);
        OwnRetained(h', t, k, t + 1);
      } else {
        AckBound(cfg, h, id, u, k);
        assert Retained(h, u, k, n.log, t + 1) by { AckRetained(cfg, h, id, n, u, k); }
        RetainLonger(h, u, k, n.log, log', t + 1);
        StableRetained(h, h', u, k, log', t + 1);
      }
    }
  }

  lemma OwnRetained(h: History, t: nat, k: nat, bound: nat)
    requires Won(h, t) && k <= |LogOf(h, t)|
    ensures Retained(h, t, k, LogOf(h, t), bound)
  {
  }

  lemma AckRetained(cfg: Config, h: History, id: nat, n: Node, t: nat, k: nat)
    requires NodeOk(cfg, h, id, n) && Acked(h, id, t, k) && t <= n.currentTerm
    ensures Retained(h, t, k, n.log, n.currentTerm + 1)
  {
  }

  lemma RetainLonger(h: History, t: nat, k: nat, log: seq<Entry>, log': seq<Entry>, bound: nat)
    requires Retained(h, t, k, log, bound) && Agree(log, log', |log|)
    ensures Retained(h, t, k, log', bound)
  {
    if Agree(LogOf(h, t), log, k) {
      assert forall j | 0 <= j < k :: LogOf(h, t)[j] == log[j] == log'[j];
    }
  }
}
