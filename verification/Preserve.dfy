/** Every step of a server keeps its relation to the history and sends only messages the history
    accounts for. Each lemma names the history after the step. */
module Preserve {
  import opened Messages
  import opened Log
  import opened Protocol
  import opened Commit
  import opened Cluster
  import opened History
  import opened Stable
  import opened Completeness
  import opened HistorySteps

  ghost predicate SentOk(cfg: Config, h: History, sent: seq<Message>) {
    forall m | m in sent :: MessageOk(cfg, h, m)
  }

  ghost predicate Keeps(cfg: Config, h: History, h': History, id: nat, r: Step) {
    Extends(cfg, h, h', id) && NodeOk(cfg, h', id, r.node) && SentOk(cfg, h', r.sent)
  }

  /** What a step may rely on. */
  ghost predicate Before(cfg: Config, h: History, id: nat, n: Node) {
    ValidConfig(cfg) && HistoryOk(cfg, h) && id in cfg && ValidPeers(cfg, id) && NodeOk(cfg, h, id, n)
  }

  // --- Small facts ----------------------------------------------------------------------------

  lemma WidenKeepsAcks(h: History, s: nat, log: seq<Entry>, bound: nat, bound': nat)
    requires KeepsAcks(h, s, log, bound) && bound <= bound'
    requires forall t: nat | (s, t) in h.acks :: t < bound
    ensures KeepsAcks(h, s, log, bound')
  {
    forall t: nat, k: nat | Acked(h, s, t, k) && t < bound' ensures Retained(h, t, k, log, bound') {
      assert Retained(h, t, k, log, bound);
    }
  }

  /** A term nobody won yet cannot be the one that lost anything. */
  lemma NarrowKeepsAcks(h: History, s: nat, log: seq<Entry>, t: nat)
    requires KeepsAcks(h, s, log, t + 1) && !Won(h, t)
    ensures KeepsAcks(h, s, log, t)
  {
    forall u: nat, k: nat | Acked(h, s, u, k) && u < t ensures Retained(h, u, k, log, t) {
      assert Retained(h, u, k, log, t + 1);
    }
  }

  lemma TransferCommit(cfg: Config, h: History, c: nat, log: seq<Entry>, bound: nat,
                       c': nat, log': seq<Entry>, bound': nat)
    requires CommitOk(cfg, h, c, log, bound) && c' <= c && Agree(log, log', c') && bound <= bound'
    ensures CommitOk(cfg, h, c', log', bound')
  {
    if c' != 0 {
      var t: nat, k: nat :| Committed(cfg, h, t, k) && t <= bound && c <= k && Agree(log, LogOf(h, t), c);
      assert Agree(log', LogOf(h, t), c');
    }
  }

  lemma CommitInLog(cfg: Config, h: History, k: nat, log: seq<Entry>, bound: nat)
    requires CommitOk(cfg, h, k, log, bound)
    ensures k <= |log|
  {
  }

  lemma PrefixOk(h: History, log: seq<Entry>, k: nat)
    requires LogOk(h, log) && k <= |log|
    ensures LogOk(h, log[..k])
  {
    forall i | 0 <= i < k ensures EntryOk(h, log[..k], i) { assert EntryOk(h, log, i); }
  }

  lemma PeerCount(cfg: Config, id: nat)
    requires ValidConfig(cfg) && id in cfg
    ensures |cfg[id]| == |cfg| - 1 && id !in cfg[id] && Distinct(cfg[id])
  {
    assert ValidPeers(cfg, id);
    DistinctSize(cfg[id]);
    var all := Members(cfg[id]);
    assert cfg.Keys == all + {id} && id !in all;
    assert |all + {id}| == |all| + 1;
  }

  /** Timers other than the election deadline play no role. */
  ghost predicate SameButTimers(n: Node, n': Node) {
    n' == n.(vol := n.vol.(heartbeatDue := n'.vol.heartbeatDue, rpcDue := n'.vol.rpcDue))
  }

  lemma IgnoreTimers(cfg: Config, h: History, id: nat, n: Node, n': Node)
    requires NodeOk(cfg, h, id, n) && SameButTimers(n, n')
    ensures NodeOk(cfg, h, id, n')
  {
    if n.role == Leader {
      forall p | p in cfg && p != id ensures PeerViewOk(h, n', p) { assert PeerViewOk(h, n, p); }
    }
  }

  lemma SameHistory(cfg: Config, h: History, id: nat)
    requires HistoryOk(cfg, h)
    ensures Extends(cfg, h, h, id)
  {
    forall t: nat | Won(h, t) ensures ElectionGrows(h.elections[t], h.elections[t]) {}
  }

  /** A follower is tied to the history by its persistent state and commit index alone. */
  lemma FollowerOk(cfg: Config, h: History, id: nat, n: Node, n': Node)
    requires NodeOk(cfg, h, id, n)
    requires n'.currentTerm == n.currentTerm && n'.votedFor == n.votedFor && n'.log == n.log
    requires n'.vol.commitIndex <= n.vol.commitIndex && n'.role == Follower && n'.vol.electionDue != Never
    ensures NodeOk(cfg, h, id, n')
  {
    TransferCommit(cfg, h, n.vol.commitIndex, n.log, n.currentTerm, n'.vol.commitIndex, n.log, n.currentTerm);
  }

  // --- Observing a term, restarting -----------------------------------------------------------

  lemma ObserveTerms(h: History, id: nat, n: Node, n': Node)
    requires TermOk(h, id, n) && n'.currentTerm > n.currentTerm && n'.log == n.log && n'.votedFor == 0
    ensures TermOk(h, id, n') && VotedForOk(h, id, n') && forall t: nat | (id, t) in h.acks :: t < n.currentTerm + 1
  {
  }

  lemma ObserveKeeps(cfg: Config, h: History, id: nat, n: Node, term: nat, now: nat, jitter: nat)
    requires Before(cfg, h, id, n)
    ensures Before(cfg, h, id, Observe(n, term, now, jitter))
  {
    hide HistoryOk, LogOk, KeepsAcks, CommitOk, ValidConfig, ValidPeers, TermOk;
    if term > n.currentTerm {
      var n' := Observe(n, term, now, jitter);
      ObserveTerms(h, id, n, n');
      CommitInLog(cfg, h, n.vol.commitIndex, n.log, n.currentTerm);
      WidenKeepsAcks(h, id, n.log, n.currentTerm + 1, term + 1);
      TransferCommit(cfg, h, n.vol.commitIndex, n.log, n.currentTerm, n.vol.commitIndex, n.log, term);
    }
  }

  lemma RestartKeeps(cfg: Config, h: History, id: nat, n: Node)
    requires Before(cfg, h, id, n)
    ensures NodeOk(cfg, h, id, Boot(cfg[id], n.currentTerm, n.votedFor, n.log))
  {
    FollowerOk(cfg, h, id, n, Boot(cfg[id], n.currentTerm, n.votedFor, n.log));
  }

  // --- Voting ---------------------------------------------------------------------------------

  /** A server adds its own vote to the history. */
  lemma VoteKeepsNode(cfg: Config, h: History, h': History, id: nat, n: Node, n': Node, cand: nat)
    requires HistoryOk(cfg, h) && NodeOk(cfg, h, id, n) && n.votedFor == 0 && cand != 0 && n.role == Follower
    requires Grows(h, h') && h' == AddVote(h, id, n.currentTerm, cand, n.log)
    requires n'.vol.electionDue != Never
    requires n' == n.(votedFor := cand, vol := n.vol.(electionDue := n'.vol.electionDue))
    ensures NodeOk(cfg, h', id, n')
  {
    StableLog(h, h', n.log);
    StableKeepsAcks(cfg, h, h', id, n.log, n.currentTerm + 1);
    StableCommitOk(cfg, h, h', n.vol.commitIndex, n.log, n.currentTerm);
    forall t: nat | Voted(h', id, t) ensures t <= n.currentTerm {
      assert t != n.currentTerm ==> Voted(h, id, t);
    }
    forall t: nat | Won(h', t) && h'.elections[t].leader == id ensures t <= n.currentTerm { assert Won(h, t); }
  }

  lemma RequestVoteKeeps(cfg: Config, h: History, id: nat, n: Node, m: Message, now: nat, jitter: nat)
    returns (h': History)
    requires Before(cfg, h, id, n) && m.RequestVote? && MessageOk(cfg, h, m) && m.dst == id && m.term <= n.currentTerm
    ensures Keeps(cfg, h, h', id, OnRequestVote(id, n, m, now, jitter))
  {
    var r := OnRequestVote(id, n, m, now, jitter);
    SameHistory(cfg, h, id);
    h' := h;
    if m.term == n.currentTerm && Accepts(n, m) {
      assert n.role == Follower;
      if n.votedFor == 0 {
        if !Won(h, m.term) { NarrowKeepsAcks(h, id, n.log, m.term); }
        AddVoteKeeps(cfg, h, id, m.term, m.src, n.log);
        h' := AddVote(h, id, m.term, m.src, n.log);
        VoteKeepsNode(cfg, h, h', id, n, r.node, m.src);
      } else {
        FollowerOk(cfg, h, id, n, r.node);
      }
      assert Voted(h', id, m.term);
    }
  }

  lemma VoteReplyKeeps(cfg: Config, h: History, id: nat, n: Node, m: Message)
    requires Before(cfg, h, id, n) && m.Vote? && MessageOk(cfg, h, m) && m.dst == id && n.role == Candidate
    ensures Keeps(cfg, h, h, id, OnVote(n, m))
  {
    SameHistory(cfg, h, id);
    VoterCounted(cfg, h, id, n, m);
    hide HistoryOk, Extends, LogOk, KeepsAcks, CommitOk, CandidateOk, TermOk, VotedForOk, LeaderOk;
    assert NodeOk(cfg, h, id, n);
  }

  lemma VoterCounted(cfg: Config, h: History, id: nat, n: Node, m: Message)
    requires CandidateOk(cfg, h, id, n) && m.Vote? && MessageOk(cfg, h, m) && m.dst == id
    ensures CandidateOk(cfg, h, id, OnVote(n, m).node)
  {
  }

  lemma AckBound(cfg: Config, h: History, s: nat, t: nat, k: nat)
    requires HistoryOk(cfg, h) && Acked(h, s, t, k)
    ensures s in cfg && Won(h, t) && k <= |LogOf(h, t)|
  {
    assert AckOk(cfg, h, s, t);
  }

  // --- Appending at a follower ----------------------------------------------------------------

  lemma MatchesLeader(cfg: Config, h: History, log: seq<Entry>, m: Message)
    requires HistoryOk(cfg, h) && LogOk(h, log) && m.Append? && AppendOk(cfg, h, m)
    requires Matches(log, m.prevLogIndex, m.prevLogTerm)
    ensures Agree(log, LogOf(h, m.term), m.prevLogIndex)
  {
    assert ElectionOk(cfg, h, m.term);
    if m.prevLogIndex != 0 {
      LogsMatch(h, log, LogOf(h, m.term), m.prevLogIndex - 1);
    }
  }

  lemma EntriesHaveTerms(cfg: Config, h: History, m: Message)
    requires HistoryOk(cfg, h) && m.Append? && AppendOk(cfg, h, m)
    ensures forall e | e in m.entries :: e.term != 0
    ensures forall i | 0 <= i < |LogOf(h, m.term)| :: LogOf(h, m.term)[i].term <= m.term
  {
    var leader := LogOf(h, m.term);
    assert ElectionOk(cfg, h, m.term);
    forall e | e in m.entries ensures e.term != 0 {
      var i :| 0 <= i < |m.entries| && m.entries[i] == e;
      assert EntryOk(h, leader, m.prevLogIndex + i);
      TermPositive(cfg, h, e.term);
    }
    var init := h.elections[m.term].init;
    forall i | 0 <= i < |leader| ensures leader[i].term <= m.term {
      if i < |init| { assert leader[i] == init[i]; }
    }
  }

  lemma LeaderPrefixes(cfg: Config, h: History, log: seq<Entry>, m: Message)
    requires HistoryOk(cfg, h) && LogOk(h, log) && m.Append? && AppendOk(cfg, h, m)
    ensures forall i | 0 <= i < |log| && i < |LogOf(h, m.term)| && log[i].term == LogOf(h, m.term)[i].term ::
              Agree(log, LogOf(h, m.term), i + 1)
  {
    assert ElectionOk(cfg, h, m.term);
    var leader := LogOf(h, m.term);
    forall i | 0 <= i < |log| && i < |leader| && log[i].term == leader[i].term ensures Agree(log, leader, i + 1) {
      LogsMatch(h, log, leader, i);
    }
  }

  /** The follower's log after a request it can place. */
  lemma ReplayAsLeader(cfg: Config, h: History, log: seq<Entry>, m: Message)
    requires HistoryOk(cfg, h) && LogOk(h, log) && m.Append? && AppendOk(cfg, h, m)
    requires Matches(log, m.prevLogIndex, m.prevLogTerm)
    ensures var log' := Replay(log, m.prevLogIndex, m.entries);
            var upTo := m.prevLogIndex + |m.entries|;
            && Agree(log', LogOf(h, m.term), upTo)
            && (log' == log || log' == LogOf(h, m.term)[..upTo])
            && forall k: nat {:trigger Agree(log, LogOf(h, m.term), k)} |
                 Agree(log, LogOf(h, m.term), k) :: Agree(log, log', k)
  {
    var leader := LogOf(h, m.term);
    MatchesLeader(cfg, h, log, m);
    EntriesHaveTerms(cfg, h, m);
    LeaderPrefixes(cfg, h, log, m);
    ReplaySlice(log, leader, m.prevLogIndex, m.entries);
  }

  lemma ReplayLogOk(cfg: Config, h: History, log: seq<Entry>, m: Message)
    requires HistoryOk(cfg, h) && LogOk(h, log) && m.Append? && AppendOk(cfg, h, m)
    requires Matches(log, m.prevLogIndex, m.prevLogTerm)
    ensures LogOk(h, Replay(log, m.prevLogIndex, m.entries))
    ensures (forall i | 0 <= i < |log| :: log[i].term <= m.term) ==>
            forall i | 0 <= i < |Replay(log, m.prevLogIndex, m.entries)| ::
              Replay(log, m.prevLogIndex, m.entries)[i].term <= m.term
  {
    ReplayAsLeader(cfg, h, log, m);
    EntriesHaveTerms(cfg, h, m);
    assert ElectionOk(cfg, h, m.term);
    hide Replay, HistoryOk, LogOk;
    PrefixOk(h, LogOf(h, m.term), m.prevLogIndex + |m.entries|);
  }

  /** What the follower acknowledged before, it keeps, or the sender of the request lacked it. */
  lemma ReplayKeepsAck(cfg: Config, h: History, log: seq<Entry>, log': seq<Entry>, t: nat, k: nat, term: nat)
    requires HistoryOk(cfg, h) && Won(h, term) && t <= term
    requires Retained(h, t, k, log, term + 1)
    requires forall j: nat {:trigger Agree(log, LogOf(h, term), j)} |
               Agree(log, LogOf(h, term), j) :: Agree(log, log', j)
    ensures Retained(h, t, k, log', term + 1)
  {
    var leader := LogOf(h, term);
    if Agree(LogOf(h, t), log, k) {
      if t == term {
        assert Agree(log, leader, k);
      } else if Agree(LogOf(h, t), h.elections[term].init, k) {
        assert ElectionOk(cfg, h, term);
        var init := h.elections[term].init;
        assert forall j | 0 <= j < k :: log[j] == LogOf(h, t)[j] == init[j] == leader[j];
        assert Agree(log, leader, k);
      } else {
        assert Lost(h, t, k, term + 1);
      }
    }
  }

  lemma AppendKeepsLog(cfg: Config, h: History, id: nat, n: Node, m: Message) returns (h': History)
    requires Before(cfg, h, id, n) && m.Append? && MessageOk(cfg, h, m) && m.dst == id && m.term == n.currentTerm
    requires Matches(n.log, m.prevLogIndex, m.prevLogTerm)
    ensures Extends(cfg, h, h', id) && h'.elections == h.elections && h'.votes == h.votes
    ensures Acked(h', id, m.term, m.prevLogIndex + |m.entries|)
    ensures (forall t: nat | (id, t) in h'.acks :: t <= m.term)
    ensures var log' := Replay(n.log, m.prevLogIndex, m.entries);
            LogOk(h', log') && KeepsAcks(h', id, log', m.term + 1)
  {
    hide HistoryOk, Grows, OnlyBy, LogOk, Replay, CommitOk, Matches, CandidateOk, LeaderOk;
    var upTo := m.prevLogIndex + |m.entries|;
    var log' := Replay(n.log, m.prevLogIndex, m.entries);
    ReplayAsLeader(cfg, h, n.log, m);
    ReplayLogOk(cfg, h, n.log, m);
    AddAckKeeps(cfg, h, id, m.term, upTo);
    AddAckGrows(h, id, m.term, upTo);
    h' := AddAck(h, id, m.term, upTo);
    StableLog(h, h', log');
    hide Retained;
    forall t: nat, k: nat | Acked(h', id, t, k) && t < m.term + 1 ensures Retained(h', t, k, log', m.term + 1) {
      if Acked(h, id, t, k) {
        AckBound(cfg, h, id, t, k);
        ReplayKeepsAck(cfg, h, n.log, log', t, k, m.term);
        StableRetained(h, h', t, k, log', m.term + 1);
      } else {
        RetainedPrefix(h', t, k, log', m.term + 1, upTo);
      }
    }
  }

  lemma RetainedPrefix(h: History, t: nat, k: nat, log: seq<Entry>, bound: nat, upTo: nat)
    requires Won(h, t) && Agree(log, LogOf(h, t), upTo) && k <= upTo
    ensures Retained(h, t, k, log, bound)
  {
  }

  lemma AppendKeepsCommit(cfg: Config, h: History, id: nat, n: Node, m: Message)
    requires Before(cfg, h, id, n) && m.Append? && MessageOk(cfg, h, m) && m.dst == id && m.term == n.currentTerm
    requires Matches(n.log, m.prevLogIndex, m.prevLogTerm)
    ensures var log' := Replay(n.log, m.prevLogIndex, m.entries);
            && CommitOk(cfg, h, Max(n.vol.commitIndex, m.leaderCommit), log', m.term)
            && Agree(n.log, log', n.vol.commitIndex)
  {
    hide HistoryOk, LogOk, KeepsAcks;
    var log' := Replay(n.log, m.prevLogIndex, m.entries);
    var leader := LogOf(h, m.term);
    ReplayAsLeader(cfg, h, n.log, m);
    CommitPrefixInLog(cfg, h, n.vol.commitIndex, n.log, n.currentTerm, m.term);
    if n.vol.commitIndex < m.leaderCommit {
      assert Agree(leader, log', m.leaderCommit);
      TransferCommit(cfg, h, m.leaderCommit, leader, m.term, m.leaderCommit, log', m.term);
    } else {
      TransferCommit(cfg, h, n.vol.commitIndex, n.log, m.term, n.vol.commitIndex, log', m.term);
    }
  }

  lemma AppendKeepsNode(cfg: Config, h: History, h': History, id: nat, n: Node, m: Message, n': Node)
    requires NodeOk(cfg, h, id, n) && HistoryOk(cfg, h) && m.Append? && AppendOk(cfg, h, m) && m.term == n.currentTerm
    requires Matches(n.log, m.prevLogIndex, m.prevLogTerm)
    requires h'.elections == h.elections && h'.votes == h.votes
    requires forall t: nat | (id, t) in h'.acks :: t <= m.term
    requires n'.log == Replay(n.log, m.prevLogIndex, m.entries) && n'.currentTerm == n.currentTerm
    requires n'.votedFor == n.votedFor && n'.role == Follower && n'.vol.electionDue != Never
    requires LogOk(h', n'.log) && KeepsAcks(h', id, n'.log, m.term + 1)
    requires CommitOk(cfg, h', n'.vol.commitIndex, n'.log, m.term)
    ensures NodeOk(cfg, h', id, n')
  {
    ReplayLogOk(cfg, h, n.log, m);
    assert forall t: nat :: Voted(h', id, t) <==> Voted(h, id, t);
    assert forall t: nat :: Won(h', t) <==> Won(h, t);
  }

  /** What OnAppend does to a server of the request's term. */
  lemma OnAppendPlaces(id: nat, n: Node, m: Message, now: nat, jitter: nat)
    requires m.Append? && m.term == n.currentTerm && Matches(n.log, m.prevLogIndex, m.prevLogTerm)
    ensures var r := OnAppend(id, n, m, now, jitter);
            && r.node.log == Replay(n.log, m.prevLogIndex, m.entries)
            && r.node.currentTerm == n.currentTerm && r.node.votedFor == n.votedFor
            && r.node.role == Follower && r.node.vol.electionDue != Never
            && r.node.vol.commitIndex == Max(n.vol.commitIndex, m.leaderCommit)
            && r.sent == [Appended(id, m.src, m.term, m.seqno, m.prevLogIndex + |m.entries|, true)]
  {
  }

  lemma OnAppendRejects(id: nat, n: Node, m: Message, now: nat, jitter: nat)
    requires m.Append? && m.term <= n.currentTerm
    requires m.term == n.currentTerm ==> !Matches(n.log, m.prevLogIndex, m.prevLogTerm)
    ensures var r := OnAppend(id, n, m, now, jitter);
            && r.node.log == n.log && r.node.currentTerm == n.currentTerm && r.node.votedFor == n.votedFor
            && r.node.vol.commitIndex == n.vol.commitIndex
            && (if m.term < n.currentTerm then r.node == n
                else r.node.role == Follower && r.node.vol.electionDue != Never)
            && r.sent == [Appended(id, m.src, n.currentTerm, m.seqno, 0, false)]
  {
  }

  lemma PlacedKeeps(cfg: Config, h: History, id: nat, n: Node, m: Message, r: Step) returns (h': History)
    requires Before(cfg, h, id, n) && m.Append? && MessageOk(cfg, h, m) && m.dst == id && m.term == n.currentTerm
    requires Matches(n.log, m.prevLogIndex, m.prevLogTerm)
    requires r.node.log == Replay(n.log, m.prevLogIndex, m.entries)
    requires r.node.currentTerm == n.currentTerm && r.node.votedFor == n.votedFor
    requires r.node.role == Follower && r.node.vol.electionDue != Never
    requires r.node.vol.commitIndex == Max(n.vol.commitIndex, m.leaderCommit)
    requires r.sent == [Appended(id, m.src, m.term, m.seqno, m.prevLogIndex + |m.entries|, true)]
    ensures Keeps(cfg, h, h', id, r)
  {
    hide HistoryOk, Grows, OnlyBy, KeepsAcks, LogOk;
    h' := AppendKeepsLog(cfg, h, id, n, m);
    assert NodeOk(cfg, h', id, r.node) by {
      assert CommitOk(cfg, h', r.node.vol.commitIndex, r.node.log, m.term) by {
        AppendKeepsCommit(cfg, h, id, n, m);
        StableCommitOk(cfg, h, h', r.node.vol.commitIndex, r.node.log, m.term);
      }
      AppendKeepsNode(cfg, h, h', id, n, m, r.node);
    }
    AckReplyOk(cfg, h, h', m, r.sent[0]);
  }

  lemma AckReplyOk(cfg: Config, h: History, h': History, m: Message, reply: Message)
    requires m.Append? && MessageOk(cfg, h, m) && h'.elections == h.elections
    requires reply == Appended(m.dst, m.src, m.term, m.seqno, m.prevLogIndex + |m.entries|, true)
    requires Acked(h', m.dst, m.term, reply.matchIndex)
    ensures MessageOk(cfg, h', reply)
  {
  }

  lemma AppendKeeps(cfg: Config, h: History, id: nat, n: Node, m: Message, now: nat, jitter: nat)
    returns (h': History)
    requires Before(cfg, h, id, n) && m.Append? && MessageOk(cfg, h, m) && m.dst == id && m.term <= n.currentTerm
    ensures Keeps(cfg, h, h', id, OnAppend(id, n, m, now, jitter))
  {
    hide HistoryOk, LogOk, KeepsAcks, CommitOk;
    var r := OnAppend(id, n, m, now, jitter);
    if m.term == n.currentTerm && Matches(n.log, m.prevLogIndex, m.prevLogTerm) {
      OnAppendPlaces(id, n, m, now, jitter);
      h' := PlacedKeeps(cfg, h, id, n, m, r);
    } else {
      OnAppendRejects(id, n, m, now, jitter);
      h' := h;
      SameHistory(cfg, h, id);
      if m.term == n.currentTerm { FollowerOk(cfg, h, id, n, r.node); }
    }
  }
}
