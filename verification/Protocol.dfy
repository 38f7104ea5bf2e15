/** TRaft of miniraft/raft.cpp as pure step functions. Each returns the next state of the server
    and the messages it sends. The class in Raft.dfy is proved to compute them. */
module Protocol {
  import opened Messages
  import opened Log

  datatype Role = Follower | Candidate | Leader

  /** A time point in milliseconds after the clock's epoch, or ITimeSource::Max. */
  datatype Time = At(ms: nat) | Never

  const ELECTION: nat := 5000
  const RPC: nat := 10000
  const BATCH: nat := 1024
  const MAX_BACKOFF: nat := 32768

  predicate Due(t: Time, now: nat) { t.At? && t.ms <= now }

  /** MakeElection: some finite deadline after `now`; the random part is a parameter. */
  function MakeElection(now: nat, jitter: nat): Time { At(now + ELECTION + jitter) }

  /** The clock reading of one call and the random parts of the at most two deadlines it draws. */
  datatype Tick = Tick(now: nat, jitter: nat, jitter2: nat)

  /** TVolatileState. A missing map entry stands for the default that operator[] inserts. */
  datatype Volatile = Volatile(
    commitIndex: nat, commitSeqno: nat, leaderId: nat,
    nextIndex: map<nat, nat>, matchIndex: map<nat, nat>, votes: set<nat>,
    heartbeatDue: map<nat, Time>, rpcDue: map<nat, Time>,
    batchSize: map<nat, nat>, backOff: map<nat, nat>, electionDue: Time)

  /** Persistent state, volatile state, message counter and role of one server. */
  datatype Node = Node(currentTerm: nat, votedFor: nat, log: seq<Entry>,
                       vol: Volatile, seqno: nat, role: Role)

  datatype Step = Step(node: Node, sent: seq<Message>)

  function Get(m: map<nat, nat>, k: nat): nat { if k in m then m[k] else 0 }

  function GetTime(m: map<nat, Time>, k: nat): Time { if k in m then m[k] else At(0) }

  function Max(a: nat, b: nat): nat { if a < b then b else a }

  function Min(a: nat, b: nat): nat { if a < b then a else b }

  function MinVotes(npeers: nat): nat { (npeers + 2 + npeers % 2) / 2 }

  function FreshVolatile(peers: seq<nat>, next: nat): Volatile {
    Volatile(0, 0, 0, map p | p in peers :: next, map[], {}, map[], map[], map[], map[], At(0))
  }

  /** A server that has just been constructed over the given persistent state. */
  function Boot(peers: seq<nat>, term: nat, votedFor: nat, log: seq<Entry>): Node {
    Node(term, votedFor, log, FreshVolatile(peers, 1), 0, Follower)
  }

  // --- Commit rule ---------------------------------------------------------------------------

  /** Inserts into an ascending sequence. */
  function Insert(s: seq<nat>, x: nat): seq<nat> {
    if s == [] || s[|s| - 1] <= x then s + [x]
    else Insert(s[..|s| - 1], x) + [s[|s| - 1]]
  }

  /** std::sort on Indices. */
  function Sort(s: seq<nat>): (r: seq<nat>)
    ensures |r| == |s|
  {
    if s == [] then [] else
      var r := Insert(Sort(s[..|s| - 1]), s[|s| - 1]);
      InsertLength(Sort(s[..|s| - 1]), s[|s| - 1]);
      r
  }

  lemma InsertLength(s: seq<nat>, x: nat)
    ensures |Insert(s, x)| == |s| + 1
  {
  }

  /** MatchIndex of every peer, 0 where none is recorded. */
  function MatchIndices(peers: seq<nat>, matched: map<nat, nat>): (r: seq<nat>)
    ensures |r| == |peers|
  {
    if peers == [] then []
    else MatchIndices(peers[..|peers| - 1], matched) + [Get(matched, peers[|peers| - 1])]
  }

  /** The indices CommitAdvance sorts: those of the peers and the leader's own last index. */
  function Indices(peers: seq<nat>, matched: map<nat, nat>, last: nat): (r: seq<nat>)
    ensures |r| == |peers| + 1
  {
    MatchIndices(peers, matched) + [last]
  }

  /** The entry of the sorted indices at position nservers / 2. */
  function QuorumIndex(peers: seq<nat>, matched: map<nat, nat>, last: nat): nat {
    Sort(Indices(peers, matched, last))[(|peers| + 1) / 2]
  }

  function CommitAdvance(v: Volatile, peers: seq<nat>, term: nat, log: seq<Entry>, seqno: nat): Volatile {
    var commitIndex := Max(v.commitIndex, QuorumIndex(peers, v.matchIndex, |log|));
    if LogTerm(log, commitIndex) == term
    then v.(commitSeqno := Max(v.commitSeqno, seqno), commitIndex := commitIndex)
    else v
  }

  // --- Message handlers ----------------------------------------------------------------------

  predicate UpToDate(lastTerm: nat, lastIndex: nat, log: seq<Entry>) {
    lastTerm > LastTerm(log) || (lastTerm == LastTerm(log) && lastIndex >= |log|)
  }

  predicate Accepts(s: Node, m: Message)
    requires m.RequestVote?
  {
    (s.votedFor == 0 || s.votedFor == m.candidateId) && UpToDate(m.lastLogTerm, m.lastLogIndex, s.log)
  }

  function OnRequestVote(id: nat, s: Node, m: Message, now: nat, jitter: nat): Step
    requires m.RequestVote?
  {
    if m.term < s.currentTerm then
      Step(s, [Vote(id, m.src, s.currentTerm, false)])
    else if m.term == s.currentTerm then
      var accept := Accepts(s, m);
      Step(if accept
           then s.(votedFor := m.candidateId, vol := s.vol.(electionDue := MakeElection(now, jitter)))
           else s,
           [Vote(id, m.src, s.currentTerm, accept)])
    else Step(s, [])
  }

  function OnVote(s: Node, m: Message): Step
    requires m.Vote?
  {
    Step(if m.granted && m.term == s.currentTerm
         then s.(vol := s.vol.(votes := s.vol.votes + {m.src}, rpcDue := s.vol.rpcDue[m.src := Never]))
         else s, [])
  }

  /** The follower can place the payload after PrevLogIndex. */
  predicate Matches(log: seq<Entry>, prevIndex: nat, prevTerm: nat) {
    prevIndex == 0 || (prevIndex <= |log| && LogTerm(log, prevIndex) == prevTerm)
  }

  function OnAppend(id: nat, s: Node, m: Message, now: nat, jitter: nat): Step
    requires m.Append?
  {
    if m.term < s.currentTerm then
      Step(s, [Appended(id, m.src, s.currentTerm, m.seqno, 0, false)])
    else
      var success := Matches(s.log, m.prevLogIndex, m.prevLogTerm);
      var matchIndex := if success then m.prevLogIndex + |m.entries| else 0;
      var commitIndex := if success then Max(s.vol.commitIndex, m.leaderCommit) else s.vol.commitIndex;
      Step(s.(log := if success then Replay(s.log, m.prevLogIndex, m.entries) else s.log,
              vol := s.vol.(leaderId := m.leaderId, commitIndex := commitIndex,
                            electionDue := MakeElection(now, jitter)),
              role := Follower),
           [Appended(id, m.src, s.currentTerm, m.seqno, matchIndex, success)])
  }

  /** The view of one peer after its reply: MatchIndex, NextIndex, BatchSize, BackOff. */
  function OnReply(v: Volatile, m: Message): Volatile
    requires m.Appended?
  {
    var p := m.src;
    if m.success then
      v.(matchIndex := v.matchIndex[p := Max(Get(v.matchIndex, p), m.matchIndex)],
         nextIndex := v.nextIndex[p := m.matchIndex + 1],
         rpcDue := v.rpcDue[p := At(0)],
         batchSize := v.batchSize[p := BATCH],
         backOff := v.backOff[p := 1])
    else
      var backOff := Max(Get(v.backOff, p), 1);
      var next := Get(v.nextIndex, p);
      v.(nextIndex := v.nextIndex[p := Max(1, if next > backOff then next - backOff else 0)],
         rpcDue := v.rpcDue[p := At(0)],
         batchSize := v.batchSize[p := 1],
         backOff := v.backOff[p := Min(MAX_BACKOFF, 2 * backOff)])
  }

  function OnAppended(peers: seq<nat>, s: Node, m: Message): Step
    requires m.Appended?
  {
    if m.term != s.currentTerm then Step(s, [])
    else
      var v := OnReply(s.vol, m);
      Step(s.(vol := if m.success then CommitAdvance(v, peers, s.currentTerm, s.log, m.seqno) else v), [])
  }

  /** The head of Process: a higher term makes the server a follower of that term. */
  function Observe(s: Node, term: nat, now: nat, jitter: nat): Node {
    if term > s.currentTerm then
      s.(currentTerm := term, votedFor := 0, role := Follower,
         vol := if Due(s.vol.electionDue, now) || s.vol.electionDue == Never
                then s.vol.(electionDue := MakeElection(now, jitter)) else s.vol)
    else s
  }

  /** Dispatch by role; messages a role does not know are dropped. */
  function Dispatch(id: nat, peers: seq<nat>, s: Node, m: Message, now: nat, jitter: nat): Step {
    if m.RequestVote? then OnRequestVote(id, s, m, now, jitter)
    else if m.Append? then OnAppend(id, s, m, now, jitter)
    else if m.Vote? && s.role == Candidate then OnVote(s, m)
    else if m.Appended? && s.role == Leader then OnAppended(peers, s, m)
    else Step(s, [])
  }

  function Process(id: nat, peers: seq<nat>, s: Node, m: Message, t: Tick): Step {
    Dispatch(id, peers, Observe(s, m.term, t.now, t.jitter), m, t.now, t.jitter2)
  }

  // --- Timeouts ------------------------------------------------------------------------------

  function CreateVote(id: nat, s: Node, p: nat): Message {
    RequestVote(id, p, s.currentTerm, |s.log|, LastTerm(s.log), id)
  }

  /** NextIndex of `p` points into the log or right behind it, so that a request to it can be
      built. Every reachable leader is in this range for every peer (Safety.LeaderViewSound);
      outside it the functions below return an empty request. */
  predicate NextInRange(s: Node, p: nat) {
    1 <= Get(s.vol.nextIndex, p) <= |s.log| + 1
  }

  /** Index of the last entry a request carries: nothing beyond `prev` while the follower's log is
      being probed, otherwise one batch. */
  function LastToSend(prev: nat, matched: nat, batch: nat, length: nat): nat {
    if matched < prev then prev else Min(prev + Max(1, batch), length)
  }

  /** The request made of a leader's log and its view of peer `p`. */
  function Request(id: nat, p: nat, term: nat, log: seq<Entry>, prev: nat, last: nat, commit: nat, seqno: nat): Message
    requires prev <= last <= |log|
  {
    Append(id, p, term, seqno, prev, LogTerm(log, prev), Min(commit, last), id, last - prev, log[prev..last])
  }

  function CreateAppendEntries(id: nat, s: Node, p: nat): Message {
    RequestTo(id, s, p, s.seqno)
  }

  function RequestTo(id: nat, s: Node, p: nat, seqno: nat): Message {
    if NextInRange(s, p) then
      var prev := Get(s.vol.nextIndex, p) - 1;
      var last := LastToSend(prev, Get(s.vol.matchIndex, p), Get(s.vol.batchSize, p), |s.log|);
      Request(id, p, s.currentTerm, s.log, prev, last, s.vol.commitIndex, seqno)
    else
      Append(id, p, s.currentTerm, seqno, 0, 0, 0, id, 0, [])
  }

  lemma RequestFields(id: nat, s: Node, p: nat, prev: nat, last: nat)
    requires NextInRange(s, p) && prev == Get(s.vol.nextIndex, p) - 1
    requires last == LastToSend(prev, Get(s.vol.matchIndex, p), Get(s.vol.batchSize, p), |s.log|)
    ensures prev <= last <= |s.log|
    ensures CreateAppendEntries(id, s, p)
         == Append(id, p, s.currentTerm, s.seqno, prev, LogTerm(s.log, prev), Min(s.vol.commitIndex, last), id,
                   last - prev, s.log[prev..last])
  {
    hide LogTerm;
  }

  function SendVoteTo(id: nat, s: Node, p: nat, now: nat): Step {
    if Due(GetTime(s.vol.rpcDue, p), now)
    then Step(s.(vol := s.vol.(rpcDue := s.vol.rpcDue[p := At(now + RPC)])), [CreateVote(id, s, p)])
    else Step(s, [])
  }

  function CandidateTimeout(id: nat, peers: seq<nat>, s: Node, now: nat): Step {
    if peers == [] then Step(s, [])
    else
      var before := CandidateTimeout(id, peers[..|peers| - 1], s, now);
      var last := SendVoteTo(id, before.node, peers[|peers| - 1], now);
      Step(last.node, before.sent + last.sent)
  }

  /** The log and the peer views allow a request to every peer. */
  predicate CanSend(s: Node, peers: seq<nat>) {
    forall p | p in peers :: NextInRange(s, p)
  }

  function SendAppendTo(id: nat, s: Node, p: nat): Step {
    Step(s.(seqno := s.seqno + 1), [CreateAppendEntries(id, s, p)])
  }

  function HeartbeatTo(id: nat, s: Node, p: nat, now: nat): Step {
    if Due(GetTime(s.vol.heartbeatDue, p), now)
       || (Get(s.vol.nextIndex, p) <= |s.log| && Due(GetTime(s.vol.rpcDue, p), now))
    then
      SendAppendTo(id,
        s.(vol := s.vol.(heartbeatDue := s.vol.heartbeatDue[p := At(now + ELECTION / 2)],
                         rpcDue := s.vol.rpcDue[p := At(now + RPC)])), p)
    else Step(s, [])
  }

  /** Sending changes timers and the message counter only. */
  predicate OnlySent(s: Node, s': Node) {
    s' == s.(seqno := s'.seqno, vol := s.vol.(heartbeatDue := s'.vol.heartbeatDue, rpcDue := s'.vol.rpcDue))
    && s'.seqno >= s.seqno
  }

  function Heartbeats(id: nat, peers: seq<nat>, s: Node, now: nat): (r: Step)
    ensures OnlySent(s, r.node)
  {
    if peers == [] then Step(s, [])
    else
      var before := Heartbeats(id, peers[..|peers| - 1], s, now);
      var last := HeartbeatTo(id, before.node, peers[|peers| - 1], now);
      Step(last.node, before.sent + last.sent)
  }

  function LeaderTimeout(id: nat, peers: seq<nat>, s: Node, now: nat): Step {
    var r := Heartbeats(id, peers, s, now);
    if |peers| + 1 == 1
    then Step(r.node.(vol := CommitAdvance(r.node.vol, peers, s.currentTerm, s.log, 0)), r.sent)
    else r
  }

  /** ApproveRead: a request to every peer; the read is tagged with the counter before them. */
  function ApproveRead(id: nat, peers: seq<nat>, s: Node): (r: Step)
    ensures OnlySent(s, r.node)
  {
    if peers == [] then Step(s, [])
    else
      var before := ApproveRead(id, peers[..|peers| - 1], s);
      var last := SendAppendTo(id, before.node, peers[|peers| - 1]);
      Step(last.node, before.sent + last.sent)
  }

  function StartElection(id: nat, peers: seq<nat>, s: Node, now: nat, jitter: nat): Node {
    s.(currentTerm := s.currentTerm + 1, votedFor := id, role := Candidate,
       vol := FreshVolatile(peers, 1).(electionDue := MakeElection(now, jitter),
                                       commitIndex := s.vol.commitIndex))
  }

  predicate WonElection(peers: seq<nat>, s: Node) {
    |s.vol.votes| + 1 >= MinVotes(|peers|)
  }

  /** The winner resets its view of the peers and appends an empty entry of its term. */
  function BecomeLeader(peers: seq<nat>, s: Node): Node {
    s.(role := Leader,
       log := s.log + [Entry(s.currentTerm, STUB, [])],
       vol := FreshVolatile(peers, |s.log| + 1).(
                commitIndex := s.vol.commitIndex,
                rpcDue := map p | p in peers :: Never,
                electionDue := Never))
  }

  /** The state part of ProcessTimeout, before anything is sent. */
  function Elect(id: nat, peers: seq<nat>, s: Node, now: nat, jitter: nat): Node {
    var s1 := if s.role != Leader && Due(s.vol.electionDue, now)
              then StartElection(id, peers, s, now, jitter) else s;
    if s1.role == Candidate && WonElection(peers, s1) then BecomeLeader(peers, s1) else s1
  }

  function ProcessTimeout(id: nat, peers: seq<nat>, s: Node, t: Tick): Step {
    var s1 := Elect(id, peers, s, t.now, t.jitter);
    if s1.role == Candidate then CandidateTimeout(id, peers, s1, t.now)
    else if s1.role == Leader then LeaderTimeout(id, peers, s1, t.now)
    else Step(s1, [])
  }

  /** Append of a client command by the leader. */
  function AppendCommand(s: Node, flags: nat, data: seq<byte>): Node {
    s.(log := s.log + [Entry(s.currentTerm, flags, data)])
  }
}
