/** Bringing one follower up to date: the loop of request, reply and next request between a leader
    and a follower in no later term, with a probe while the match is unknown, exponential back-off on
    rejection and batches after the first success. */
module CatchUp {
  import opened Messages
  import opened Log
  import opened Protocol

  /** A leader `a`, a follower `p` and their states. */
  datatype Link = Link(a: nat, peers: seq<nat>, leader: Node, p: nat, others: seq<nat>, follower: Node)

  /** Request number `seqno` of the leader is delivered to the follower and the reply to the leader,
      which by then is `sender`: it has sent requests to others, too. */
  function ExchangeWith(s: Link, sender: Node, seqno: nat, t: Tick, t': Tick): Link {
    var reply := Process(s.p, s.others, s.follower, RequestTo(s.a, s.leader, s.p, seqno), t);
    var r := Process(s.a, s.peers, sender, Answer(reply), t');
    s.(leader := r.node, follower := reply.node)
  }

  /** The same when the leader sends to this follower alone. */
  function Exchange(s: Link, t: Tick): Link {
    ExchangeWith(s, SendAppendTo(s.a, s.leader, s.p).node, s.leader.seqno, t, t)
  }

  /** The reply a follower sends; a follower of the same term always sends one. */
  function Answer(r: Step): Message {
    if |r.sent| == 1 then r.sent[0] else Appended(0, 0, 0, 0, 0, false)
  }

  function NextOf(s: Link): nat { Get(s.leader.vol.nextIndex, s.p) }

  function MatchOf(s: Link): nat { Get(s.leader.vol.matchIndex, s.p) }

  function BackOffOf(s: Link): nat { Max(Get(s.leader.vol.backOff, s.p), 1) }

  function TimerOf(s: Link): Time { GetTime(s.leader.vol.rpcDue, s.p) }

  function BatchOf(s: Link): nat { Max(Get(s.leader.vol.batchSize, s.p), 1) }

  /** What every reachable pair of a leader and a server in no later term satisfies. */
  ghost predicate Sound(s: Link) {
    && s.leader.role == Leader
    && (s.follower.currentTerm < s.leader.currentTerm
        || (s.follower.currentTerm == s.leader.currentTerm && s.follower.role != Leader))
    && NextInRange(s.leader, s.p)
    && Agree(s.leader.log, s.follower.log, MatchOf(s))
    && (forall e | e in s.leader.log :: e.term != 0)
    && EqualTermsAgree(s.leader.log, s.follower.log)
  }

  ghost predicate EqualTermsAgree(a: seq<Entry>, b: seq<Entry>) {
    forall i | 0 <= i < |a| && i < |b| && a[i].term == b[i].term :: Agree(a, b, i + 1)
  }

  /** The follower has the leader's whole log, and the leader knows it. */
  ghost predicate CaughtUp(s: Link) {
    MatchOf(s) == |s.leader.log| && Agree(s.leader.log, s.follower.log, |s.leader.log|)
  }

  /** The follower can place the leader's next request. */
  predicate WillMatch(s: Link) {
    NextOf(s) >= 1 && Matches(s.follower.log, NextOf(s) - 1, LogTerm(s.leader.log, NextOf(s) - 1))
  }

  /** Index up to which a successful exchange brings the follower. */
  function Goal(s: Link): nat {
    if NextOf(s) == 0 then 0
    else LastToSend(NextOf(s) - 1, MatchOf(s), Get(s.leader.vol.batchSize, s.p), |s.leader.log|)
  }

  /** The part of the link an exchange never changes. */
  ghost predicate SameEnds(s: Link, s': Link) {
    && s'.a == s.a && s'.p == s.p && s'.peers == s.peers && s'.others == s.others
    && s'.leader.log == s.leader.log && s'.leader.currentTerm == s.leader.currentTerm && s'.leader.role == s.leader.role
    && s'.follower.currentTerm >= s.follower.currentTerm
  }

  lemma GoalInRange(s: Link)
    requires NextInRange(s.leader, s.p)
    ensures NextOf(s) >= 1 && NextOf(s) - 1 <= Goal(s) <= |s.leader.log|
  {
  }

  /** The header of the leader's request. */
  lemma RequestHeader(s: Link, seqno: nat)
    requires NextInRange(s.leader, s.p)
    ensures var m := RequestTo(s.a, s.leader, s.p, seqno);
            && m.Append? && m.src == s.a && m.term == s.leader.currentTerm && m.seqno == seqno
            && NextOf(s) >= 1 && m.prevLogIndex == NextOf(s) - 1
            && m.prevLogTerm == LogTerm(s.leader.log, NextOf(s) - 1)
            && m.prevLogIndex + |m.entries| == Goal(s)
            && m.leaderCommit == Min(s.leader.vol.commitIndex, Goal(s))
  {
    hide LogTerm, LastToSend;
    LastInRange(s);
  }

  lemma LastInRange(s: Link)
    requires NextInRange(s.leader, s.p)
    ensures var prev := NextOf(s) - 1;
            NextOf(s) >= 1
            && prev <= LastToSend(prev, MatchOf(s), Get(s.leader.vol.batchSize, s.p), |s.leader.log|) <= |s.leader.log|
  {
  }

  /** Its payload. */
  lemma RequestPayload(s: Link, seqno: nat)
    requires NextInRange(s.leader, s.p)
    ensures NextOf(s) >= 1 && NextOf(s) - 1 <= Goal(s) <= |s.leader.log|
    ensures RequestTo(s.a, s.leader, s.p, seqno).entries == s.leader.log[NextOf(s) - 1..Goal(s)]
  {
    hide LogTerm, LastToSend;
    LastInRange(s);
  }

  /** How much a request carries: nothing while the match is unknown, otherwise one batch or what is left. */
  lemma PayloadSize(s: Link, seqno: nat)
    requires NextInRange(s.leader, s.p)
    ensures var m, left := RequestTo(s.a, s.leader, s.p, seqno), |s.leader.log| + 1 - NextOf(s);
            && m.Append? && |m.entries| == m.nentries && m.prevLogIndex == NextOf(s) - 1
            && m.nentries == (if MatchOf(s) + 1 < NextOf(s) then 0 else Min(BatchOf(s), left))
  {
    RequestCount(s, seqno);
    hide RequestTo, LogTerm;
    RequestHeader(s, seqno);
  }

  lemma RequestCount(s: Link, seqno: nat)
    requires NextInRange(s.leader, s.p)
    ensures var m := RequestTo(s.a, s.leader, s.p, seqno); m.Append? && |m.entries| == m.nentries
  {
    hide LogTerm;
    LastInRange(s);
  }

  /** What a server in no later term does with a request. */
  lemma AppendStep(id: nat, peers: seq<nat>, n: Node, m: Message, t: Tick)
    requires m.Append? && m.term >= n.currentTerm
    ensures var r := Process(id, peers, n, m, t);
            var success := Matches(n.log, m.prevLogIndex, m.prevLogTerm);
            && r.sent == [Appended(id, m.src, m.term, m.seqno, if success then m.prevLogIndex + |m.entries| else 0, success)]
            && r.node.currentTerm == m.term && r.node.role == Follower
            && r.node.log == (if success then Replay(n.log, m.prevLogIndex, m.entries) else n.log)
            && r.node.vol.commitIndex == (if success then Max(n.vol.commitIndex, m.leaderCommit) else n.vol.commitIndex)
  {
    hide Replay, Matches;
  }

  lemma NoLaterFollower(s: Link)
    requires Sound(s)
    ensures s.follower.currentTerm <= s.leader.currentTerm && NextOf(s) >= 1
  {
  }

  /** The follower's side of an exchange. */
  lemma FollowerSide(s: Link, seqno: nat, t: Tick)
    requires Sound(s)
    ensures var m := RequestTo(s.a, s.leader, s.p, seqno);
            var r := Process(s.p, s.others, s.follower, m, t);
            && r.sent == [Appended(s.p, s.a, s.leader.currentTerm, seqno,
                                   if WillMatch(s) then Goal(s) else 0, WillMatch(s))]
            && r.node.currentTerm == s.leader.currentTerm && r.node.role == Follower
            && r.node.log == (if WillMatch(s) then Replay(s.follower.log, m.prevLogIndex, m.entries) else s.follower.log)
            && r.node.vol.commitIndex
            == (if WillMatch(s) then Max(s.follower.vol.commitIndex, Min(s.leader.vol.commitIndex, Goal(s)))
                else s.follower.vol.commitIndex)
  {
    hide Sound, Goal, Replay, RequestTo, Process, Matches, LogTerm;
    RequestHeader(s, seqno) by { SoundInRange(s); }
    NoLaterFollower(s);
    AppendStep(s.p, s.others, s.follower, RequestTo(s.a, s.leader, s.p, seqno), t);
  }

  lemma PrefixTermsAgree(leader: seq<Entry>, k: nat)
    requires k <= |leader|
    ensures EqualTermsAgree(leader, leader[..k])
  {
  }

  /** A follower's log after it replayed a slice of its leader's. */
  lemma ReplayedPrefix(leader: seq<Entry>, log: seq<Entry>, prev: nat, upTo: nat)
    requires prev <= upTo <= |leader| && Agree(leader, log, prev) && EqualTermsAgree(leader, log)
    requires forall e | e in leader :: e.term != 0
    ensures var log' := Replay(log, prev, leader[prev..upTo]);
            && Agree(log', leader, upTo) && (log' == log || log' == leader[..upTo])
            && forall k: nat {:trigger Agree(log, leader, k)} | Agree(log, leader, k) :: Agree(log, log', k)
  {
    hide Replay;
    forall i | 0 <= i < |log| && i < |leader| && log[i].term == leader[i].term ensures Agree(log, leader, i + 1) {
      assert Agree(leader, log, i + 1);
    }
    ReplaySlice(log, leader, prev, leader[prev..upTo]);
  }

  lemma ReplayedLog(s: Link)
    requires Sound(s) && WillMatch(s)
    ensures NextOf(s) >= 1 && NextOf(s) - 1 <= Goal(s) <= |s.leader.log|
    ensures var log' := Replay(s.follower.log, NextOf(s) - 1, s.leader.log[NextOf(s) - 1..Goal(s)]);
            && Agree(s.leader.log, log', Goal(s))
            && (forall k: nat {:trigger Agree(s.leader.log, log', k)} | Agree(s.leader.log, s.follower.log, k) ::
                  Agree(s.leader.log, log', k))
            && EqualTermsAgree(s.leader.log, log')
  {
    hide Goal, Replay, LogTerm;
    GoalInRange(s);
    var leader, log, prev, upTo := s.leader.log, s.follower.log, NextOf(s) - 1, Goal(s);
    PrevAgrees(s);
    ReplayedPrefix(leader, log, prev, upTo);
    PrefixTermsAgree(leader, upTo);
    hide EqualTermsAgree;
    var log' := Replay(log, prev, leader[prev..upTo]);
    forall k: nat | Agree(leader, log, k) ensures Agree(leader, log', k) { assert Agree(log, leader, k); }
  }

  /** Where the request can be placed, everything before it agrees. */
  lemma PrevAgrees(s: Link)
    requires Sound(s) && WillMatch(s)
    ensures Agree(s.leader.log, s.follower.log, NextOf(s) - 1)
  {
    var prev := NextOf(s) - 1;
    if prev > 0 { assert s.leader.log[prev - 1].term == s.follower.log[prev - 1].term; }
  }

  /** The leader's side: what a reply of its term does to its view of the follower. */
  lemma LeaderSide(s: Link, sender: Node, seqno: nat, k: nat, success: bool, t: Tick)
    requires s.leader.role == Leader && NextInRange(s.leader, s.p) && OnlySent(s.leader, sender)
    ensures var reply := Appended(s.p, s.a, s.leader.currentTerm, seqno, k, success);
            var r := Process(s.a, s.peers, sender, reply, t);
            var s' := s.(leader := r.node);
            && r.node.log == s.leader.log && r.node.currentTerm == s.leader.currentTerm && r.node.role == Leader
            && (success ==> NextOf(s') == k + 1 && MatchOf(s') == Max(MatchOf(s), k) && BatchOf(s') == BATCH
                            && BackOffOf(s') == 1)
            && (success ==> r.node.vol == CommitAdvance(OnReply(sender.vol, reply), s.peers, s.leader.currentTerm,
                                                        s.leader.log, seqno))
            && (!success ==> MatchOf(s') == MatchOf(s)
                             && NextOf(s') == Max(1, if NextOf(s) > BackOffOf(s) then NextOf(s) - BackOffOf(s) else 0)
                             && BackOffOf(s') == Min(MAX_BACKOFF, 2 * BackOffOf(s)) && BatchOf(s') == 1)
            && TimerOf(s') == At(0)
            && (forall q | q != s.p :: Get(r.node.vol.nextIndex, q) == Get(s.leader.vol.nextIndex, q)
                                       && Get(r.node.vol.matchIndex, q) == Get(s.leader.vol.matchIndex, q))
  {
    hide QuorumIndex;
  }

  lemma TakenStep(s: Link, sender: Node, seqno: nat, t: Tick, t': Tick)
    requires Sound(s) && OnlySent(s.leader, sender) && WillMatch(s)
    ensures var s' := ExchangeWith(s, sender, seqno, t, t');
            && SameEnds(s, s') && Sound(s')
            && NextOf(s') == Goal(s) + 1 && MatchOf(s') == Max(MatchOf(s), Goal(s)) && BatchOf(s') == BATCH
            && BackOffOf(s') == 1 && TimerOf(s') == At(0)
  {
    hide Replay, RequestTo, Process, LogTerm, CommitAdvance, OnlySent, OnReply, WillMatch, Goal, EqualTermsAgree, Agree;
    var s' := ExchangeWith(s, sender, seqno, t, t');
    GoalInRange(s);
    FollowerSide(s, seqno, t);
    LeaderSide(s, sender, seqno, Goal(s), true, t');
    TakenLog(s, seqno);
    RequestHeader(s, seqno);
    assert s'.follower.log == TakenBy(s, seqno);
    assert MatchOf(s') == MatchOf(s) || MatchOf(s') == Goal(s);
  }

  /** The follower's log once it took the request. */
  function TakenBy(s: Link, seqno: nat): seq<Entry> {
    var m := RequestTo(s.a, s.leader, s.p, seqno);
    if m.Append? then Replay(s.follower.log, m.prevLogIndex, m.entries) else s.follower.log
  }

  lemma TakenLog(s: Link, seqno: nat)
    requires Sound(s) && WillMatch(s)
    ensures Agree(s.leader.log, TakenBy(s, seqno), MatchOf(s)) && Agree(s.leader.log, TakenBy(s, seqno), Goal(s))
    ensures EqualTermsAgree(s.leader.log, TakenBy(s, seqno))
  {
    hide Replay, RequestTo, LogTerm, Goal, WillMatch, EqualTermsAgree, Agree;
    RequestHeader(s, seqno);
    RequestPayload(s, seqno);
    ReplayedLog(s);
  }

  lemma RejectedStep(s: Link, sender: Node, seqno: nat, t: Tick, t': Tick)
    requires Sound(s) && OnlySent(s.leader, sender) && !WillMatch(s)
    ensures var s' := ExchangeWith(s, sender, seqno, t, t');
            && SameEnds(s, s') && Sound(s')
            && MatchOf(s') == MatchOf(s)
            && NextOf(s') == Max(1, if NextOf(s) > BackOffOf(s) then NextOf(s) - BackOffOf(s) else 0)
            && BackOffOf(s') == Min(MAX_BACKOFF, 2 * BackOffOf(s)) && BatchOf(s') == 1 && TimerOf(s') == At(0)
  {
    hide Replay, RequestTo, Process, LogTerm, CommitAdvance, OnlySent, OnReply, WillMatch, Goal, EqualTermsAgree, Agree;
    FollowerSide(s, seqno, t);
    LeaderSide(s, sender, seqno, 0, false, t');
  }

  /** One exchange: either the follower takes the request and is told apart up to its target, or it
      rejects and the leader steps back. */
  lemma ExchangeWithStep(s: Link, sender: Node, seqno: nat, t: Tick, t': Tick)
    requires Sound(s) && OnlySent(s.leader, sender)
    ensures var s' := ExchangeWith(s, sender, seqno, t, t');
            && SameEnds(s, s') && Sound(s') && TimerOf(s') == At(0)
            && (WillMatch(s) ==>
                  NextOf(s') == Goal(s) + 1 && MatchOf(s') == Max(MatchOf(s), Goal(s))
                  && BatchOf(s') == BATCH && BackOffOf(s') == 1)
            && (!WillMatch(s) ==>
                  MatchOf(s') == MatchOf(s)
                  && NextOf(s') == Max(1, if NextOf(s) > BackOffOf(s) then NextOf(s) - BackOffOf(s) else 0)
                  && BackOffOf(s') == Min(MAX_BACKOFF, 2 * BackOffOf(s)) && BatchOf(s') == 1)
  {
    hide ExchangeWith, WillMatch, Goal, Sound, SameEnds, OnlySent;
    if WillMatch(s) {
      TakenStep(s, sender, seqno, t, t');
    } else {
      RejectedStep(s, sender, seqno, t, t');
    }
  }

  lemma SentAlone(s: Link)
    ensures OnlySent(s.leader, SendAppendTo(s.a, s.leader, s.p).node)
  {
  }

  // --- Counting -------------------------------------------------------------------------------

  /** Rejections still possible from a given NextIndex and back-off. */
  function RejectionsLeft(next: nat, backOff: nat): nat
    requires backOff >= 1
    decreases next
  {
    if next <= 1 then 0
    else 1 + RejectionsLeft(Max(1, if next > backOff then next - backOff else 0), Min(MAX_BACKOFF, 2 * backOff))
  }

  /** Batches of a log of length `n`. */
  function Batches(n: nat): nat { (n + BATCH - 1) / BATCH }

  /** Exchanges that suffice. */
  function Fuel(s: Link): nat
    requires NextInRange(s.leader, s.p)
  {
    if NextOf(s) - 1 <= MatchOf(s) && BatchOf(s) == BATCH then 1 + Batches(|s.leader.log| + 1 - NextOf(s))
    else RejectionsLeft(NextOf(s), BackOffOf(s)) + 2 + Batches(|s.leader.log|)
  }

  /** The link after one exchange per tick. */
  function After(s: Link, ticks: seq<Tick>): Link
    decreases |ticks|
  {
    if ticks == [] then s else After(Exchange(s, ticks[0]), ticks[1..])
  }

  /** How many of these exchanges the follower rejected. */
  function Rejections(s: Link, ticks: seq<Tick>): nat
    decreases |ticks|
  {
    if ticks == [] then 0
    else (if WillMatch(s) then 0 else 1) + Rejections(Exchange(s, ticks[0]), ticks[1..])
  }

  /** The rejections the follower can still make. */
  function RejectionBound(s: Link): nat {
    if NextOf(s) <= MatchOf(s) + 1 then 0 else RejectionsLeft(NextOf(s), BackOffOf(s))
  }

  /** At or below MatchIndex, and before the first entry, a request is always taken. */
  lemma KnownPrefixMatches(s: Link)
    requires Sound(s) && (NextOf(s) <= MatchOf(s) + 1 || NextOf(s) == 1)
    ensures WillMatch(s)
  {
    var prev := NextOf(s) - 1;
    if prev > 0 { assert s.leader.log[prev - 1] == s.follower.log[prev - 1]; }
  }

  lemma BatchesMonotone(m: nat, n: nat)
    requires m <= n
    ensures Batches(m) <= Batches(n)
    ensures m + BATCH <= n ==> Batches(m) + 1 <= Batches(n)
    ensures m < n ==> 1 <= Batches(n)
  {
  }

  lemma CaughtUpStays(s: Link, sender: Node, seqno: nat, t: Tick, t': Tick)
    requires Sound(s) && CaughtUp(s) && OnlySent(s.leader, sender)
    ensures CaughtUp(ExchangeWith(s, sender, seqno, t, t')) && WillMatch(s)
  {
    hide ExchangeWith, WillMatch, RequestTo, EqualTermsAgree, LogTerm, OnlySent;
    KnownPrefixMatches(s);
    ExchangeWithStep(s, sender, seqno, t, t');
    GoalInRange(s);
  }

  /** An exchange uses up fuel, or the follower is up to date. */
  lemma ExchangeUsesFuel(s: Link, sender: Node, seqno: nat, t: Tick, t': Tick)
    requires Sound(s) && OnlySent(s.leader, sender)
    ensures var s' := ExchangeWith(s, sender, seqno, t, t');
            && NextInRange(s'.leader, s'.p)
            && (CaughtUp(s') || Fuel(s') < Fuel(s))
            && RejectionBound(s') + (if WillMatch(s) then 0 else 1) <= RejectionBound(s)
  {
    hide ExchangeWith, WillMatch, Batches, EqualTermsAgree, RequestTo, LogTerm, OnlySent;
    var s' := ExchangeWith(s, sender, seqno, t, t');
    ExchangeWithStep(s, sender, seqno, t, t');
    GoalInRange(s);
    var length := |s.leader.log|;
    if WillMatch(s) {
      BatchesMonotone(length - Goal(s), length);
      BatchesMonotone(length - Goal(s), length + 1 - NextOf(s));
    } else {
      if NextOf(s) == 1 || NextOf(s) <= MatchOf(s) + 1 { KnownPrefixMatches(s); }
      BatchesMonotone(length + 1 - NextOf(s'), length);
    }
  }

  /** Catch-up terminates: after at most `Fuel` exchanges the leader's MatchIndex is its last index
      and the follower's log has the leader's log as a prefix, and stays so; on the way the
      follower rejects at most `RejectionBound` requests. */
  lemma {:induction false} CatchesUp(s: Link, ticks: seq<Tick>)
    requires Sound(s)
    ensures Sound(After(s, ticks)) && SameEnds(s, After(s, ticks))
    ensures CaughtUp(s) || |ticks| >= Fuel(s) ==> CaughtUp(After(s, ticks))
    ensures Rejections(s, ticks) <= RejectionBound(s)
    decreases |ticks|
  {
    hide Sound, ExchangeWith, WillMatch, CaughtUp, Fuel, RejectionBound, OnlySent;
    SoundInRange(s);
    if ticks == [] {
    } else {
      var s', sender := Exchange(s, ticks[0]), SendAppendTo(s.a, s.leader, s.p).node;
      SentAlone(s);
      ExchangeWithStep(s, sender, s.leader.seqno, ticks[0], ticks[0]);
      ExchangeUsesFuel(s, sender, s.leader.seqno, ticks[0], ticks[0]);
      if CaughtUp(s) { CaughtUpStays(s, sender, s.leader.seqno, ticks[0], ticks[0]); }
      CatchesUp(s', ticks[1..]);
    }
  }

  lemma SoundInRange(s: Link)
    requires Sound(s)
    ensures NextInRange(s.leader, s.p) && Fuel(s) >= 1 && s.leader.role == Leader
  {
  }

  // --- The bound on rejections ----------------------------------------------------------------

  function Pow2(k: nat): (r: nat)
    ensures r >= 1
  {
    if k == 0 then 1 else 2 * Pow2(k - 1)
  }

  lemma PowValues()
    ensures Pow2(15) == MAX_BACKOFF && Pow2(16) == 65536
  {
    assert Pow2(4) == 16;
    assert Pow2(8) == 256;
    assert Pow2(12) == 4096;
    assert Pow2(15) == 32768;
  }

  lemma {:induction false} PowMonotone(a: nat, b: nat)
    requires a <= b
    ensures Pow2(a) <= Pow2(b)
    decreases b
  {
    if a < b { PowMonotone(a, b - 1); }
  }

  /** While the back-off doubles, `k` rejections cover Pow2(e + k) - Pow2(e) entries. */
  lemma {:induction false} DoublingBound(next: nat, e: nat, k: nat)
    requires e + k <= 16 && next <= 1 + Pow2(e + k) - Pow2(e)
    ensures RejectionsLeft(next, Pow2(e)) <= k
    decreases k
  {
    if next > Pow2(e) + 1 {
      var rest := next - Pow2(e);
      assert Pow2(e + 1) == 2 * Pow2(e);
      assert k >= 2;
      PowMonotone(e + 1, 15);
      PowValues();
      DoublingBound(rest, e + 1, k - 1);
    } else if next > 1 {
      assert k >= 1;
    }
  }

  /** The sixteen rejections during which the back-off grows to its cap. */
  lemma {:induction false} DoublingRun(next: nat, e: nat)
    requires e <= 15 && next + Pow2(e) > 65536 + 1
    ensures RejectionsLeft(next, Pow2(e)) == 16 - e + RejectionsLeft(next + Pow2(e) - 65536, MAX_BACKOFF)
    decreases 15 - e
  {
    PowValues();
    PowMonotone(e, 15);
    if e < 15 {
      PowMonotone(e + 1, 15);
      assert Pow2(e + 1) == 2 * Pow2(e);
      DoublingRun(next - Pow2(e), e + 1);
    }
  }

  /** At full back-off each rejection covers MAX_BACKOFF entries. */
  lemma {:induction false} CappedBound(next: nat, k: nat)
    requires next <= 1 + k * MAX_BACKOFF
    ensures RejectionsLeft(next, MAX_BACKOFF) <= k
    decreases k
  {
    if next > 1 {
      CappedBound(Max(1, if next > MAX_BACKOFF then next - MAX_BACKOFF else 0), k - 1);
    }
  }

  /** How many rejections a leader with NextIndex `n` and no back-off can see: `k` when n <= Pow2(k),
      that is ceil(log2 n) while n <= 65536, and 16 + ceil((n - 65536) / 32768) beyond. */
  ghost predicate RejectionLimit(n: nat, k: nat) {
    (k <= 16 && n <= Pow2(k)) || (n > 65536 && k == 16 + (n - 65536 + MAX_BACKOFF - 1) / MAX_BACKOFF)
  }

  lemma LimitHolds(n: nat, k: nat)
    requires RejectionLimit(n, k)
    ensures RejectionsLeft(n, 1) <= k
  {
    assert Pow2(0) == 1;
    if k <= 16 && n <= Pow2(k) {
      DoublingBound(n, 0, k);
    } else {
      DoublingRun(n, 0);
      CappedBound(n - 65535, (n - 65536 + MAX_BACKOFF - 1) / MAX_BACKOFF);
    }
  }

  /** A follower towards which the leader has not backed off yet, as is every follower of a new
      leader, rejects at most logarithmically many requests, and is up to date after these and one
      exchange for the probe that succeeds, one to spare, and one for each batch. */
  lemma FreshViewCatchesUp(s: Link, ticks: seq<Tick>, k: nat)
    requires Sound(s) && BackOffOf(s) == 1 && RejectionLimit(NextOf(s), k)
    ensures Rejections(s, ticks) <= k
    ensures |ticks| >= k + 2 + Batches(|s.leader.log|) ==> CaughtUp(After(s, ticks))
  {
    hide Sound, Rejections, WillMatch, After, CaughtUp, Batches, RejectionsLeft, RejectionLimit, Pow2;
    LimitHolds(NextOf(s), k);
    SoundInRange(s);
    BatchesMonotone(|s.leader.log| + 1 - NextOf(s), |s.leader.log|);
    CatchesUp(s, ticks);
  }
}
