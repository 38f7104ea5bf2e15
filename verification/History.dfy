/** What the proof remembers about a run: who won which term with which votes and which log, who
    voted for whom with which log, and how much of a term's log each server acknowledged. The
    invariant splits into a part about the history alone and parts that relate one server, or one
    message, to the history. */
module History {
  import opened Messages
  import opened Log
  import opened Protocol
  import opened Cluster

  /** A won election: `init` is the winner's log when it stood, `log` the log it has built by now,
      `seqno` its message counter. */
  datatype Election = Election(leader: nat, quorum: set<nat>, init: seq<Entry>, log: seq<Entry>, seqno: nat)

  /** A vote with the voter's log at that moment. */
  datatype Ballot = Ballot(cand: nat, log: seq<Entry>)

  datatype History = History(
    elections: map<nat, Election>,
    votes: map<(nat, nat), Ballot>,  // (voter, term)
    acks: map<(nat, nat), nat>)      // (server, term)

  ghost predicate Won(h: History, t: nat) { t in h.elections }

  ghost function LogOf(h: History, t: nat): seq<Entry>
    requires t in h.elections
  {
    h.elections[t].log
  }

  ghost predicate Voted(h: History, s: nat, t: nat) { (s, t) in h.votes }

  /** Server `s` held the first `k` entries of the log of term `t` while in that term. */
  ghost predicate Acked(h: History, s: nat, t: nat, k: nat) {
    (s, t) in h.acks && k <= h.acks[(s, t)]
  }

  /** Entry `i` of `log` came from the leader of its term, with everything before it. */
  ghost predicate EntryOk(h: History, log: seq<Entry>, i: nat)
    requires i < |log|
  {
    Won(h, log[i].term) && Agree(log, LogOf(h, log[i].term), i + 1)
  }

  ghost predicate LogOk(h: History, log: seq<Entry>) {
    forall i | 0 <= i < |log| :: EntryOk(h, log, i)
  }

  /** Some leader after `t` and before `bound` started without the first `k` entries of term `t`. */
  ghost predicate Lost(h: History, t: nat, k: nat, bound: nat)
    requires Won(h, t)
  {
    exists u: nat | t < u < bound :: Won(h, u) && !Agree(LogOf(h, t), h.elections[u].init, k)
  }

  /** `log` keeps the first `k` entries of term `t` unless a leader before `bound` lacked them. */
  ghost predicate Retained(h: History, t: nat, k: nat, log: seq<Entry>, bound: nat) {
    Won(h, t) && (Agree(LogOf(h, t), log, k) || Lost(h, t, k, bound))
  }

  /** Everything `s` acknowledged before term `bound` is retained in `log`. */
  ghost predicate KeepsAcks(h: History, s: nat, log: seq<Entry>, bound: nat) {
    forall t: nat, k: nat :: Acked(h, s, t, k) && t < bound ==> Retained(h, t, k, log, bound)
  }

  // --- The history itself ---------------------------------------------------------------------

  ghost predicate ElectionShape(cfg: Config, e: Election, t: nat) {
    && 0 < t
    && e.leader in e.quorum
    && e.quorum <= cfg.Keys
    && |e.quorum| >= MinVotes(|cfg| - 1)
    && |e.init| < |e.log|
    && Agree(e.init, e.log, |e.init|)
    && (forall i | 0 <= i < |e.init| :: e.init[i].term < t)
    && (forall i | |e.init| <= i < |e.log| :: e.log[i].term == t)
  }

  ghost predicate ElectionOk(cfg: Config, h: History, t: nat)
    requires t in h.elections
  {
    var e := h.elections[t];
    && ElectionShape(cfg, e, t)
    && (forall s | s in e.quorum :: Voted(h, s, t) && h.votes[(s, t)].cand == e.leader)
    && e.init == h.votes[(e.leader, t)].log
    && LogOk(h, e.log)
    && Acked(h, e.leader, t, |e.init| + 1)
  }

  ghost predicate VoteOk(cfg: Config, h: History, s: nat, t: nat)
    requires Voted(h, s, t)
  {
    var v := h.votes[(s, t)];
    && s in cfg
    && v.cand in cfg
    && LogOk(h, v.log)
    && Voted(h, v.cand, t)
    && h.votes[(v.cand, t)].cand == v.cand
    && UpToDate(LastTerm(h.votes[(v.cand, t)].log), |h.votes[(v.cand, t)].log|, v.log)
    && (!Won(h, t) || s in h.elections[t].quorum ==> KeepsAcks(h, s, v.log, t))
  }

  ghost predicate AckOk(cfg: Config, h: History, s: nat, t: nat)
    requires (s, t) in h.acks
  {
    s in cfg && Won(h, t) && h.acks[(s, t)] <= |LogOf(h, t)|
  }

  ghost predicate HistoryOk(cfg: Config, h: History) {
    && (forall t: nat | Won(h, t) :: ElectionOk(cfg, h, t))
    && (forall s: nat, t: nat | Voted(h, s, t) :: VoteOk(cfg, h, s, t))
    && (forall s: nat, t: nat | (s, t) in h.acks :: AckOk(cfg, h, s, t))
  }

  // --- Commitment -----------------------------------------------------------------------------

  ghost function AckSet(cfg: Config, h: History, t: nat, k: nat): set<nat> {
    set s | s in cfg.Keys && Acked(h, s, t, k)
  }

  /** The first `k` entries of term `t` are committed by that term's leader: the last of them is
      of term `t` and a commit quorum acknowledged them in term `t`. */
  ghost predicate Committed(cfg: Config, h: History, t: nat, k: nat) {
    && Won(h, t) && LogTerm(LogOf(h, t), k) == t
    && |AckSet(cfg, h, t, k)| >= |cfg| - |cfg| / 2
  }

  /** The first `c` entries of `log` are committed by a leader of term at most `bound`. */
  ghost predicate CommitOk(cfg: Config, h: History, c: nat, log: seq<Entry>, bound: nat) {
    c <= |log| &&
    (c == 0 || exists t: nat, k: nat ::
      Committed(cfg, h, t, k) && t <= bound && c <= k && Agree(log, LogOf(h, t), c))
  }

  // --- One server against the history ---------------------------------------------------------

  ghost predicate TermOk(h: History, id: nat, n: Node) {
    && 0 < n.currentTerm
    && (forall t: nat | Voted(h, id, t) :: t <= n.currentTerm)
    && (forall t: nat | (id, t) in h.acks :: t <= n.currentTerm)
    && (forall t: nat | Won(h, t) :: h.elections[t].leader == id ==> t <= n.currentTerm)
    && (forall i | 0 <= i < |n.log| :: n.log[i].term <= n.currentTerm)
  }

  ghost predicate VotedForOk(h: History, id: nat, n: Node) {
    if n.votedFor == 0 then !Voted(h, id, n.currentTerm)
    else Voted(h, id, n.currentTerm) && h.votes[(id, n.currentTerm)].cand == n.votedFor
  }

  ghost predicate CandidateOk(cfg: Config, h: History, id: nat, n: Node) {
    && n.votedFor == id
    && Voted(h, id, n.currentTerm) && h.votes[(id, n.currentTerm)].log == n.log
    && !(Won(h, n.currentTerm) && h.elections[n.currentTerm].leader == id)
    && forall p | p in n.vol.votes ::
         p in cfg && p != id && Voted(h, p, n.currentTerm) && h.votes[(p, n.currentTerm)].cand == id
  }

  ghost predicate PeerViewOk(h: History, n: Node, p: nat) {
    NextInRange(n, p) && (Get(n.vol.matchIndex, p) == 0 || Acked(h, p, n.currentTerm, Get(n.vol.matchIndex, p)))
  }

  ghost predicate LeaderOk(cfg: Config, h: History, id: nat, n: Node) {
    && n.votedFor == id
    && Won(h, n.currentTerm) && h.elections[n.currentTerm].leader == id
    && n.log == LogOf(h, n.currentTerm)
    && n.seqno == h.elections[n.currentTerm].seqno
    && (n.vol.commitSeqno == 0 || n.vol.commitSeqno < n.seqno)
    && Acked(h, id, n.currentTerm, |n.log|)
    && forall p | p in cfg && p != id :: PeerViewOk(h, n, p)
  }

  ghost predicate NodeOk(cfg: Config, h: History, id: nat, n: Node) {
    && TermOk(h, id, n)
    && VotedForOk(h, id, n)
    && LogOk(h, n.log)
    && KeepsAcks(h, id, n.log, n.currentTerm + 1)
    && CommitOk(cfg, h, n.vol.commitIndex, n.log, n.currentTerm)
    && (n.role == Candidate ==> CandidateOk(cfg, h, id, n))
    && (n.role == Leader ==> LeaderOk(cfg, h, id, n))
    && (n.role == Leader <==> n.vol.electionDue == Never)
  }

  // --- One message against the history --------------------------------------------------------

  ghost predicate AppendOk(cfg: Config, h: History, m: Message)
    requires m.Append?
  {
    && Won(h, m.term) && h.elections[m.term].leader == m.src && m.leaderId == m.src
    && m.nentries == |m.entries|
    && m.prevLogIndex + |m.entries| <= |LogOf(h, m.term)|
    && m.entries == LogOf(h, m.term)[m.prevLogIndex..m.prevLogIndex + |m.entries|]
    && m.prevLogTerm == LogTerm(LogOf(h, m.term), m.prevLogIndex)
    && m.leaderCommit <= m.prevLogIndex + |m.entries|
    && CommitOk(cfg, h, m.leaderCommit, LogOf(h, m.term), m.term)
    && m.seqno < h.elections[m.term].seqno
  }

  ghost predicate MessageOk(cfg: Config, h: History, m: Message) {
    && m.src in cfg && m.dst in cfg && m.src != m.dst
    && match m
       case RequestVote(src, _, term, lastLogIndex, lastLogTerm, candidateId) =>
         && candidateId == src && Voted(h, src, term) && h.votes[(src, term)].cand == src
         && lastLogIndex == |h.votes[(src, term)].log| && lastLogTerm == LastTerm(h.votes[(src, term)].log)
       case Vote(src, dst, term, granted) =>
         granted ==> Voted(h, src, term) && h.votes[(src, term)].cand == dst
       case Append(_, _, _, _, _, _, _, _, _, _) => AppendOk(cfg, h, m)
       case Appended(src, _, term, seqno, matchIndex, success) =>
         success ==> Won(h, term) && Acked(h, src, term, matchIndex) && seqno < h.elections[term].seqno
  }

  // --- The invariant and how histories grow ---------------------------------------------------

  ghost predicate Inv(cfg: Config, c: Cluster, h: History) {
    && c.servers.Keys == cfg.Keys
    && HistoryOk(cfg, h)
    && (forall id | id in cfg :: NodeOk(cfg, h, id, c.servers[id].node))
    && (forall m | m in c.net :: MessageOk(cfg, h, m))
  }

  ghost predicate ElectionGrows(e: Election, e': Election) {
    && e'.leader == e.leader && e'.quorum == e.quorum && e'.init == e.init
    && Agree(e.log, e'.log, |e.log|) && e.seqno <= e'.seqno
  }

  /** `h'` remembers everything in `h`. */
  ghost predicate Grows(h: History, h': History) {
    && (forall t: nat | Won(h, t) :: Won(h', t) && ElectionGrows(h.elections[t], h'.elections[t]))
    && (forall s: nat, t: nat | Voted(h, s, t) :: Voted(h', s, t) && h'.votes[(s, t)] == h.votes[(s, t)])
    && (forall s: nat, t: nat, k: nat | Acked(h, s, t, k) :: Acked(h', s, t, k))
  }

  /** What is new in `h'` is the doing of server `id`. */
  ghost predicate OnlyBy(h: History, h': History, id: nat) {
    && (forall t: nat | Won(h', t) && h'.elections[t].leader != id :: Won(h, t) && h'.elections[t] == h.elections[t])
    && (forall s: nat, t: nat | Voted(h', s, t) && s != id :: Voted(h, s, t))
    && (forall s: nat, t: nat | (s, t) in h'.acks && s != id :: (s, t) in h.acks)
    && (forall s: nat, t: nat, k: nat | Acked(h', s, t, k) && s != id :: Acked(h, s, t, k))
  }
}
