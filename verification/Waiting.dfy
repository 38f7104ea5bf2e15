/** The queues of TRequestProcessor in miniraft/raft.cpp: answers of applied commands, and requests
    that wait until the state machine has caught up. */
module Waiting {
  import opened Messages
  import opened Log
  import opened Kv
  import opened Routes

  /** The reply kept for the client that wrote entry `index`. */
  datatype Answer = Answer(index: nat)

  /** A request waiting for its index and, when it is a consistent read, for its counter. */
  datatype Item = Item(index: nat, seqno: nat, request: Request, client: Client)

  datatype Reply = Reply(client: Client, cookie: nat, index: nat, data: Bin)

  // --- Answers of applied commands ------------------------------------------------------------

  /** One answer per non-stub entry after `lo` up to `hi`, with its index. */
  function AnswersFor(log: seq<Entry>, lo: nat, hi: nat): seq<Answer>
    requires lo <= hi <= |log|
    decreases hi
  {
    if lo == hi then []
    else AnswersFor(log, lo, hi - 1) + (if log[hi - 1].flags == STUB then [] else [Answer(hi)])
  }

  /** Answers in the order of their indices, none above `last`. */
  ghost predicate Ordered(answers: seq<Answer>, last: nat) {
    (forall i, j | 0 <= i < j < |answers| :: answers[i].index < answers[j].index)
    && forall i | 0 <= i < |answers| :: answers[i].index <= last
  }

  lemma OrderedSnoc(answers: seq<Answer>, index: nat)
    requires index >= 1 && Ordered(answers, index - 1)
    ensures Ordered(answers + [Answer(index)], index)
  {
  }

  lemma {:induction false} AnswersStayOrdered(answers: seq<Answer>, log: seq<Entry>, lo: nat, hi: nat)
    requires lo <= hi <= |log| && Ordered(answers, lo)
    ensures Ordered(answers + AnswersFor(log, lo, hi), hi)
    decreases hi
  {
    if lo == hi {
      assert answers + [] == answers;
    } else {
      AnswersStayOrdered(answers, log, lo, hi - 1);
      if log[hi - 1].flags != STUB {
        Assoc(answers, AnswersFor(log, lo, hi - 1), [Answer(hi)]);
        OrderedSnoc(answers + AnswersFor(log, lo, hi - 1), hi);
      } else {
        assert AnswersFor(log, lo, hi) == AnswersFor(log, lo, hi - 1);
      }
    }
  }

  /** An applied command has exactly one answer among those of its range, a stub none. */
  lemma {:induction false} AnswerIffCommand(log: seq<Entry>, lo: nat, hi: nat, i: nat)
    requires lo <= hi <= |log|
    ensures Answer(i) in AnswersFor(log, lo, hi) <==> lo < i <= hi && log[i - 1].flags != STUB
    decreases hi
  {
    if lo < hi { AnswerIffCommand(log, lo, hi - 1, i); }
  }

  predicate Kept(answers: seq<Answer>, index: nat) { exists i :: 0 <= i < |answers| && answers[i].index == index }

  /** The answers left once those before `index` are dropped. */
  function From(answers: seq<Answer>, index: nat): seq<Answer> {
    if answers != [] && answers[0].index < index then From(answers[1..], index) else answers
  }

  /** Dropping the earlier answers brings the one for `index` to the front, if there is one. */
  lemma {:induction false} FrontIffKept(answers: seq<Answer>, last: nat, index: nat)
    requires Ordered(answers, last)
    ensures var rest := From(answers, index);
            && Ordered(rest, last)
            && (rest != [] && rest[0].index == index <==> Kept(answers, index))
            && forall i | 0 <= i < |rest| :: rest[i].index >= index
  {
    if answers != [] && answers[0].index < index {
      FrontIffKept(answers[1..], last, index);
      forall i | 0 <= i < |answers| && answers[i].index == index ensures Kept(answers[1..], index) {
        assert answers[1..][i - 1] == answers[i];
      }
      forall i | 0 <= i < |answers[1..]| && answers[1..][i].index == index ensures Kept(answers, index) {
        assert answers[1..][i] == answers[i + 1];
      }
    } else if Kept(answers, index) {
      var i :| 0 <= i < |answers| && answers[i].index == index;
      assert answers[0].index <= answers[i].index;
    }
  }

  // --- Requests that wait ---------------------------------------------------------------------

  function Last(queue: seq<Item>): Item
    requires queue != []
  {
    queue[|queue| - 1]
  }

  /** The loop condition of the plain queue. It looks at the last request. */
  predicate Ready(queue: seq<Item>, applied: nat) { queue != [] && Last(queue).index <= applied }

  /** The loop condition of the queue of consistent reads. */
  predicate StrongReady(queue: seq<Item>, applied: nat, seqno: nat) {
    Ready(queue, applied) && Last(queue).seqno <= seqno
  }

  /** The loop over a ready queue that ends in a write meets no failing assertion: the write waits alone
      and its answer was kept. */
  predicate WriteServed(queue: seq<Item>, answers: seq<Answer>)
    requires queue != []
  {
    |queue| == 1 && Kept(answers, Last(queue).index)
  }

  /** `r` goes to the client of `w`. */
  predicate AddressedTo(r: Reply, w: Item) { r.client == w.client && r.cookie == w.request.cookie }

  /** `r` is the outcome of reading for `w` from `h`. */
  ghost predicate ReadReply(h: Store, w: Item, r: Reply) {
    AddressedTo(r, w) && r.index == w.index && ReadFormed(w.request.body) && IsRead(h, w.request.body, r.data)
  }

  /** What the loop over reads sends: it looks at the last request but removes the first, so the
      last one is served once for every request in the queue. */
  ghost predicate ServesLast(h: Store, queue: seq<Item>, replies: seq<Reply>) {
    |replies| == |queue| && forall i | 0 <= i < |replies| :: ReadReply(h, Last(queue), replies[i])
  }

  /** Every waiting client hears from the loop exactly when they all are the last one, under one
      cookie; one waiting request is such a case. */
  lemma EveryoneServedIff(h: Store, queue: seq<Item>, replies: seq<Reply>)
    requires ServesLast(h, queue, replies)
    ensures (forall i | 0 <= i < |queue| :: exists r :: r in replies && AddressedTo(r, queue[i]))
       <==> (forall i | 0 <= i < |queue| ::
               queue[i].client == Last(queue).client && queue[i].request.cookie == Last(queue).request.cookie)
  {
    if queue != [] {
      assert replies[0] in replies && AddressedTo(replies[0], Last(queue));
      forall i, r | 0 <= i < |queue| && r in replies && AddressedTo(r, queue[i])
        ensures queue[i].client == Last(queue).client && queue[i].request.cookie == Last(queue).request.cookie
      {
        var j :| 0 <= j < |replies| && replies[j] == r;
        assert ReadReply(h, Last(queue), replies[j]);
      }
      forall i | 0 <= i < |queue| && queue[i].client == Last(queue).client
                 && queue[i].request.cookie == Last(queue).request.cookie
        ensures AddressedTo(replies[0], queue[i])
      {
      }
    }
  }

  /** No request waits for a later index or counter than the last one. */
  ghost predicate LastIsLatest(queue: seq<Item>) {
    forall i | 0 <= i < |queue| :: queue[i].index <= Last(queue).index && queue[i].seqno <= Last(queue).seqno
  }

  ghost predicate AllReady(queue: seq<Item>, applied: nat, seqno: nat) {
    forall i | 0 <= i < |queue| :: queue[i].index <= applied && queue[i].seqno <= seqno
  }

  /** The loop asks only whether the last request can be served. That asks it of all of them, whatever
      has been applied and confirmed, exactly when none waits for more than the last one. */
  lemma LastReadyMeansAllIff(queue: seq<Item>)
    requires queue != []
    ensures (forall applied: nat, seqno: nat :: StrongReady(queue, applied, seqno) <==> AllReady(queue, applied, seqno))
       <==> LastIsLatest(queue)
  {
    var w := Last(queue);
    assert queue[|queue| - 1] == w;
    assert StrongReady(queue, w.index, w.seqno);
    if forall applied: nat, seqno: nat :: StrongReady(queue, applied, seqno) <==> AllReady(queue, applied, seqno) {
      assert AllReady(queue, w.index, w.seqno);
    }
  }
}
