/** Who is sent what, and when: the timers of requests and heartbeats. */
module Sending {
  import opened Messages
  import opened Protocol
  import opened Commit

  /** The messages for `p`, in order. */
  function For(msgs: seq<Message>, p: nat): seq<Message> {
    if msgs == [] then []
    else For(msgs[..|msgs| - 1], p) + (if msgs[|msgs| - 1].dst == p then [msgs[|msgs| - 1]] else [])
  }

  lemma {:induction false} ForConcat(a: seq<Message>, b: seq<Message>, p: nat)
    ensures For(a + b, p) == For(a, p) + For(b, p)
  {
    if b == [] {
      assert a + b == a;
    } else {
      var n := |b| - 1;
      assert (a + b)[..|a + b| - 1] == a + b[..n];
      ForConcat(a, b[..n], p);
    }
  }

  lemma {:induction false} ForSent(msgs: seq<Message>, p: nat, m: Message)
    requires m in For(msgs, p)
    ensures m in msgs && m.dst == p
  {
    if m in For(msgs[..|msgs| - 1], p) { ForSent(msgs[..|msgs| - 1], p, m); }
  }

  lemma ForOne(m: Message, p: nat)
    ensures For([m], p) == if m.dst == p then [m] else []
  {
    assert [m][..0] == [];
  }

  /** Timers and the counter do not show in a request. */
  lemma SameSent(a: nat, n: Node, n1: Node, p: nat, seqno: nat)
    requires OnlySent(n, n1)
    ensures RequestTo(a, n1, p, seqno) == RequestTo(a, n, p, seqno)
  {
  }

  lemma RequestEnds(a: nat, n: Node, p: nat, seqno: nat)
    ensures var m := RequestTo(a, n, p, seqno);
            m.Append? && m.src == a && m.dst == p && m.term == n.currentTerm && m.seqno == seqno
  {
  }

  // --- A leader -------------------------------------------------------------------------------

  /** The heartbeat to `p` is due, or there are entries for `p` and its request timer has come. */
  predicate SendDue(n: Node, p: nat, now: nat) {
    Due(GetTime(n.vol.heartbeatDue, p), now)
    || (Get(n.vol.nextIndex, p) <= |n.log| && Due(GetTime(n.vol.rpcDue, p), now))
  }

  /** From `n` to `n'` the leader sent `msgs`, of these for `p` one request exactly if it was due; then its
      timers were set, half an election timeout ahead for the heartbeat. */
  ghost predicate Served(id: nat, n: Node, r: Step, p: nat, now: nat, seqno: nat) {
    if SendDue(n, p, now) then
      && For(r.sent, p) == [RequestTo(id, n, p, seqno)] && n.seqno <= seqno < r.node.seqno
      && GetTime(r.node.vol.heartbeatDue, p) == At(now + ELECTION / 2)
      && GetTime(r.node.vol.rpcDue, p) == At(now + RPC)
    else
      && For(r.sent, p) == []
      && GetTime(r.node.vol.heartbeatDue, p) == GetTime(n.vol.heartbeatDue, p)
      && GetTime(r.node.vol.rpcDue, p) == GetTime(n.vol.rpcDue, p)
  }

  /** Sending to other peers does not touch `p`. */
  lemma {:induction false} OthersServed(id: nat, peers: seq<nat>, n: Node, now: nat, p: nat)
    requires p !in peers
    ensures var r := Heartbeats(id, peers, n, now);
            && For(r.sent, p) == []
            && GetTime(r.node.vol.heartbeatDue, p) == GetTime(n.vol.heartbeatDue, p)
            && GetTime(r.node.vol.rpcDue, p) == GetTime(n.vol.rpcDue, p)
  {
    hide RequestTo;
    if peers != [] {
      var k := |peers| - 1;
      var before := Heartbeats(id, peers[..k], n, now);
      OthersServed(id, peers[..k], n, now, p);
      OneServed(id, before.node, peers[k], now, p);
      ForConcat(before.sent, HeartbeatTo(id, before.node, peers[k], now).sent, p);
    }
  }

  /** One turn of the loop, as `p` sees it. */
  lemma OneServed(id: nat, n: Node, q: nat, now: nat, p: nat)
    ensures var r := HeartbeatTo(id, n, q, now);
            && (q == p ==> Served(id, n, r, p, now, n.seqno))
            && (q != p ==> For(r.sent, p) == []
                           && GetTime(r.node.vol.heartbeatDue, p) == GetTime(n.vol.heartbeatDue, p)
                           && GetTime(r.node.vol.rpcDue, p) == GetTime(n.vol.rpcDue, p))
  {
    var sender := n.(vol := n.vol.(heartbeatDue := n.vol.heartbeatDue[q := At(now + ELECTION / 2)],
                                   rpcDue := n.vol.rpcDue[q := At(now + RPC)]));
    SameSent(id, n, sender, q, n.seqno);
    RequestEnds(id, n, q, n.seqno);
    ForOne(RequestTo(id, n, q, n.seqno), p);
    hide RequestTo, For;
    assert For([], p) == [] by { ForNothing(p); }
  }

  lemma ForNothing(p: nat)
    ensures For([], p) == []
  {
  }

  lemma {:induction false} LoopServes(id: nat, peers: seq<nat>, n: Node, now: nat, p: nat) returns (seqno: nat)
    requires Distinct(peers) && p in peers
    ensures Served(id, n, Heartbeats(id, peers, n, now), p, now, seqno)
  {
    hide RequestTo, For;
    var k := |peers| - 1;
    var before := Heartbeats(id, peers[..k], n, now);
    var last := HeartbeatTo(id, before.node, peers[k], now);
    assert peers == peers[..k] + [peers[k]];
    ForConcat(before.sent, last.sent, p);
    OneServed(id, before.node, peers[k], now, p);
    if p in peers[..k] {
      seqno := LoopServes(id, peers[..k], n, now, p);
      LaterSeqno(id, before.node, peers[k], now);
    } else {
      OthersServed(id, peers[..k], n, now, p);
      seqno := before.node.seqno;
      SameSent(id, n, before.node, p, seqno);
    }
  }

  lemma LaterSeqno(id: nat, n: Node, q: nat, now: nat)
    ensures HeartbeatTo(id, n, q, now).node.seqno >= n.seqno
  {
  }

  /** At each of its timeouts a leader sends every peer one request exactly if the heartbeat is due or
      there are entries for the peer and its request timer has come, and sets both timers. */
  lemma LeaderSendsIff(id: nat, peers: seq<nat>, n: Node, t: Tick, p: nat) returns (seqno: nat)
    requires Distinct(peers) && p in peers && n.role == Leader
    ensures Served(id, n, ProcessTimeout(id, peers, n, t), p, t.now, seqno)
  {
    hide Distinct, Served;
    seqno := LoopServes(id, peers, n, t.now, p);
  }

  /** After its timeout no heartbeat of a leader is further away than half an election timeout. */
  lemma NextBeatInTime(id: nat, peers: seq<nat>, n: Node, t: Tick, p: nat)
    requires Distinct(peers) && p in peers && n.role == Leader && GetTime(n.vol.heartbeatDue, p).At?
    ensures var due := GetTime(ProcessTimeout(id, peers, n, t).node.vol.heartbeatDue, p);
            due.At? && (due.ms <= t.now + ELECTION / 2 || due == GetTime(n.vol.heartbeatDue, p))
            && !Due(due, t.now)
  {
    hide ProcessTimeout, For, Distinct;
    var seqno := LeaderSendsIff(id, peers, n, t, p);
  }

  /** A winner sends to every peer at once. */
  lemma WinnerSends(id: nat, peers: seq<nat>, n: Node, t: Tick, p: nat) returns (seqno: nat)
    requires Distinct(peers) && p in peers && n.role != Leader && ProcessTimeout(id, peers, n, t).node.role == Leader
    ensures var r := ProcessTimeout(id, peers, n, t);
            && For(r.sent, p) == [RequestTo(id, r.node, p, seqno)]
            && GetTime(r.node.vol.heartbeatDue, p) == At(t.now + ELECTION / 2)
            && GetTime(r.node.vol.rpcDue, p) == At(t.now + RPC)
  {
    hide Heartbeats, CandidateTimeout, QuorumIndex, RequestTo, Distinct, For;
    var n1 := Elect(id, peers, n, t.now, t.jitter);
    CandidateKeepsRole(id, peers, n1, t.now);
    seqno := LoopServes(id, peers, n1, t.now, p);
    SameSent(id, n1, Heartbeats(id, peers, n1, t.now).node, p, seqno);
  }

  lemma {:induction false} CandidateKeepsRole(id: nat, peers: seq<nat>, n: Node, now: nat)
    ensures CandidateTimeout(id, peers, n, now).node.role == n.role
  {
    if peers != [] { CandidateKeepsRole(id, peers[..|peers| - 1], n, now); }
  }

  // --- A candidate ----------------------------------------------------------------------------

  /** From `n` to `n'` the candidate asked `p` exactly if its request timer had come, and set it. */
  ghost predicate Asked(id: nat, n: Node, r: Step, p: nat, now: nat) {
    if Due(GetTime(n.vol.rpcDue, p), now)
    then For(r.sent, p) == [CreateVote(id, n, p)] && GetTime(r.node.vol.rpcDue, p) == At(now + RPC)
    else For(r.sent, p) == [] && GetTime(r.node.vol.rpcDue, p) == GetTime(n.vol.rpcDue, p)
  }

  lemma {:induction false} OthersAsked(id: nat, peers: seq<nat>, n: Node, now: nat, p: nat)
    requires p !in peers
    ensures var r := CandidateTimeout(id, peers, n, now);
            For(r.sent, p) == [] && GetTime(r.node.vol.rpcDue, p) == GetTime(n.vol.rpcDue, p)
  {
    if peers != [] {
      var k := |peers| - 1;
      var before := CandidateTimeout(id, peers[..k], n, now);
      OthersAsked(id, peers[..k], n, now, p);
      OneAsked(id, before.node, peers[k], now, p);
      ForConcat(before.sent, SendVoteTo(id, before.node, peers[k], now).sent, p);
    }
  }

  lemma OneAsked(id: nat, n: Node, q: nat, now: nat, p: nat)
    ensures var r := SendVoteTo(id, n, q, now);
            && (q == p ==> Asked(id, n, r, p, now))
            && (q != p ==> For(r.sent, p) == [] && GetTime(r.node.vol.rpcDue, p) == GetTime(n.vol.rpcDue, p))
  {
    ForOne(CreateVote(id, n, q), p);
    ForNothing(p);
    hide For;
  }

  lemma {:induction false} LoopAsks(id: nat, peers: seq<nat>, n: Node, now: nat, p: nat)
    requires Distinct(peers) && p in peers
    ensures Asked(id, n, CandidateTimeout(id, peers, n, now), p, now)
  {
    hide For;
    var k := |peers| - 1;
    var before := CandidateTimeout(id, peers[..k], n, now);
    assert peers == peers[..k] + [peers[k]];
    ForConcat(before.sent, SendVoteTo(id, before.node, peers[k], now).sent, p);
    OneAsked(id, before.node, peers[k], now, p);
    AskingSame(id, peers[..k], n, now, p);
    if p in peers[..k] {
      LoopAsks(id, peers[..k], n, now, p);
    } else {
      OthersAsked(id, peers[..k], n, now, p);
    }
  }

  lemma {:induction false} AskingSame(id: nat, peers: seq<nat>, n: Node, now: nat, p: nat)
    ensures CreateVote(id, CandidateTimeout(id, peers, n, now).node, p) == CreateVote(id, n, p)
  {
    if peers != [] { AskingSame(id, peers[..|peers| - 1], n, now, p); }
  }

  /** At each of its timeouts a candidate that neither stands anew nor has won asks every peer exactly
      if the request timer of the peer has come, and sets that timer. */
  lemma CandidateAsksIff(id: nat, peers: seq<nat>, n: Node, t: Tick, p: nat)
    requires Distinct(peers) && p in peers && n.role == Candidate
    requires !Due(n.vol.electionDue, t.now) && !WonElection(peers, n)
    ensures Asked(id, n, ProcessTimeout(id, peers, n, t), p, t.now)
  {
    hide Distinct, Asked, WonElection;
    LoopAsks(id, peers, n, t.now, p);
  }

  /** A peer whose vote was counted is not asked again in that term. */
  lemma CountedNotAsked(id: nat, peers: seq<nat>, n: Node, m: Message, t: Tick, t': Tick)
    requires Distinct(peers) && m.src in peers && n.role == Candidate && m.Vote? && m.granted && m.term == n.currentTerm
    ensures var n' := Process(id, peers, n, m, t).node;
            && n'.vol.votes == n.vol.votes + {m.src}
            && (!Due(n'.vol.electionDue, t'.now) && !WonElection(peers, n') ==>
                  For(ProcessTimeout(id, peers, n', t').sent, m.src) == []
                  && GetTime(ProcessTimeout(id, peers, n', t').node.vol.rpcDue, m.src) == Never)
  {
    var n' := Process(id, peers, n, m, t).node;
    if !Due(n'.vol.electionDue, t'.now) && !WonElection(peers, n') {
      hide Distinct, ProcessTimeout;
      CandidateAsksIff(id, peers, n', t', m.src);
    }
  }

  // --- After a reply --------------------------------------------------------------------------

  /** A reply of the leader's term makes the next request to its sender due at any reading, while there
      are entries for it. */
  lemma ReplyMakesDue(id: nat, peers: seq<nat>, n: Node, m: Message, t: Tick)
    requires n.role == Leader && m.Appended? && m.term == n.currentTerm
    ensures var n' := Process(id, peers, n, m, t).node;
            && n'.role == Leader && n'.log == n.log && GetTime(n'.vol.rpcDue, m.src) == At(0)
            && (Get(n'.vol.nextIndex, m.src) <= |n'.log| ==> forall now :: SendDue(n', m.src, now))
  {
    hide QuorumIndex;
  }

  /** So it goes out at the leader's next timeout, whatever the heartbeat timer says. */
  lemma NextRequestFollows(id: nat, peers: seq<nat>, n: Node, m: Message, t: Tick, t': Tick) returns (seqno: nat)
    requires Distinct(peers) && m.src in peers && n.role == Leader && m.Appended? && m.term == n.currentTerm
    ensures var n' := Process(id, peers, n, m, t).node;
            Get(n'.vol.nextIndex, m.src) <= |n'.log| ==>
              For(ProcessTimeout(id, peers, n', t').sent, m.src) == [RequestTo(id, n', m.src, seqno)]
  {
    hide Process, ProcessTimeout, SendDue, For, Distinct, RequestTo;
    ReplyMakesDue(id, peers, n, m, t);
    var n' := Process(id, peers, n, m, t).node;
    seqno := LeaderSendsIff(id, peers, n', t', m.src);
  }
}
