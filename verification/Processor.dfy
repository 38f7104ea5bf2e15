/** TRequestProcessor of miniraft/raft.cpp with an in-memory state machine: forwarding commands to
    the leader, accepting reads and writes, applying committed entries and answering. */
module Processor {
  import opened Messages
  import opened Cluster
  import opened Kv
  import opened Routes
  import opened Waiting
  import P = Protocol
  import R = Raft

  /** The store after `i` entries of the log. */
  ghost function StoreAt(log: seq<Entry>, i: nat): Store
    requires i <= |log|
  {
    Fold(map[], NonStub(log[..i]))
  }

  lemma StoreStep(log: seq<Entry>, i: nat)
    requires 1 <= i <= |log|
    ensures StoreAt(log, i) == if log[i - 1].flags == STUB then StoreAt(log, i - 1)
                               else Kv.Apply(StoreAt(log, i - 1), log[i - 1].data)
  {
    var e := log[i - 1];
    assert log[..i][..i - 1] == log[..i - 1];
    if e.flags == STUB {
      assert NonStub(log[..i]) == NonStub(log[..i - 1]);
    } else {
      assert NonStub(log[..i]) == NonStub(log[..i - 1]) + [e];
      FoldConcat(map[], NonStub(log[..i - 1]), [e]);
      assert Fold(StoreAt(log, i - 1), [e]) == Kv.Apply(Fold(StoreAt(log, i - 1), []), e.data);
    }
  }

  class RequestProcessor {
    const raft: R.Raft
    const rsm: KvRsm
    var forwardCookie: nat
    var cookie2Client: map<nat, Client>
    var client2Cookie: map<Client, set<nat>>
    var waitingStateChange: seq<(Request, Client)>
    var waiting: seq<Item>
    var strongWaiting: seq<Item>
    var writeAnswers: seq<Answer>
    var out: seq<Outgoing>    // sent for forwarded commands
    var replies: seq<Reply>   // sent to clients served here

    constructor (raft: R.Raft, rsm: KvRsm)
      ensures this.raft == raft && this.rsm == rsm && View() == NO_ROUTES
      ensures waitingStateChange == [] && waiting == [] && strongWaiting == []
      ensures writeAnswers == [] && out == [] && replies == []
    {
      this.raft, this.rsm := raft, rsm;
      forwardCookie, cookie2Client, client2Cookie := 1, map[], map[];
      waitingStateChange, waiting, strongWaiting := [], [], [];
      writeAnswers, out, replies := [], [], [];
    }

    function View(): Routes
      reads this
    {
      Routes(forwardCookie, cookie2Client, client2Cookie)
    }

    /** The store is the fold of the non-stub entries up to LastAppliedIndex, and the answers that
        were not fetched yet are in order. */
    ghost predicate Replayed()
      reads this, rsm, raft, raft.state
    {
      && rsm.lastAppliedIndex <= |raft.state.log|
      && rsm.store == StoreAt(raft.state.log, rsm.lastAppliedIndex)
      && Ordered(writeAnswers, rsm.lastAppliedIndex)
    }

    // --- Forwarding ---------------------------------------------------------------------------

    method ForwardCommand(cmd: Request, client: Client)
      requires raft.role != P.Leader && forwardCookie < COOKIES
      modifies `forwardCookie, `cookie2Client, `client2Cookie, `waitingStateChange, `out
      ensures var hop := ForwardHop(old(View()), raft.role == P.Candidate, raft.vol.leaderId, cmd, client);
              && View() == hop.routes && out == old(out) + hop.sent
              && waitingStateChange == old(waitingStateChange) + hop.parked
    {
      if cmd.cookie != 0 {
        out := out + [Refused(client, cmd.cookie)];
        return;
      }
      var leader := raft.vol.leaderId;
      if raft.role == P.Candidate || leader == 0 {
        waitingStateChange := waitingStateChange + [(cmd, client)];
        return;
      }
      var cookie := P.Max(1, forwardCookie);
      out := out + [ToLeader(leader, cmd.(cookie := cookie))];
      cookie2Client := cookie2Client[forwardCookie := client];
      var open := if client in client2Cookie then client2Cookie[client] else {};
      client2Cookie := client2Cookie[client := open + {forwardCookie}];
      forwardCookie := (forwardCookie + 1) % COOKIES;
    }

    /** The leader's answer goes to the client recorded for its cookie; an unknown cookie is dropped. */
    method OnCommandResponse(cookie: nat)
      requires Inverse(View())
      modifies `cookie2Client, `client2Cookie, `out
      ensures View() == OnResponse(old(View()), cookie)
      ensures out == old(out) + (if cookie in old(cookie2Client) then [Passed(old(cookie2Client)[cookie], cookie)] else [])
    {
      if cookie !in cookie2Client {
        return;
      }
      var client := cookie2Client[cookie];
      out := out + [Passed(client, cookie)];
      assert client in client2Cookie && cookie in client2Cookie[client];
      var rest := client2Cookie[client] - {cookie};
      if rest == {} {
        client2Cookie := client2Cookie - {client};
      } else {
        client2Cookie := client2Cookie[client := rest];
      }
      cookie2Client := cookie2Client - {cookie};
    }

    /** CleanUp: a client has gone and all its cookies are forgotten. */
    method Disconnect(client: Client)
      modifies `cookie2Client, `client2Cookie
      ensures View() == OnCleanUp(old(View()), client)
    {
      if client !in client2Cookie {
        return;
      }
      var cookies := client2Cookie[client];
      ghost var all := cookies;
      while cookies != {}
        invariant cookies <= all
        invariant cookie2Client == old(cookie2Client) - (all - cookies)
        invariant client2Cookie == old(client2Cookie)
        decreases cookies
      {
        var c :| c in cookies;
        cookie2Client := cookie2Client - {c};
        cookies := cookies - {c};
      }
      assert all - {} == all;
      client2Cookie := client2Cookie - {client};
    }

    // --- Accepting requests -------------------------------------------------------------------

    /** A stale read, and a default read at the leader, waits for the last index; a consistent read
        at the leader pings every peer and also waits for its counter; any other is forwarded. */
    method OnReadRequest(cmd: Request, client: Client)
      requires raft.Valid() && (raft.role == P.Leader ==> P.CanSend(raft.View(), raft.peers))
      requires !Has(cmd, WRITE) && forwardCookie < COOKIES
      modifies `forwardCookie, `cookie2Client, `client2Cookie, `waitingStateChange, `out
      modifies `waiting, `strongWaiting, raft`sent, raft`seqno
      ensures raft.Valid()
      ensures var last := |raft.state.log|;
              var here := Has(cmd, STALE) || (!Has(cmd, CONSISTENT) && raft.role == P.Leader);
              var strong := !here && raft.role == P.Leader;
              var hop := if here || strong then Hop(old(View()), [], [])
                         else ForwardHop(old(View()), raft.role == P.Candidate, raft.vol.leaderId, cmd, client);
              && View() == hop.routes && out == old(out) + hop.sent
              && waitingStateChange == old(waitingStateChange) + hop.parked
              && waiting == old(waiting) + (if here then [Item(last, 0, cmd, client)] else [])
              && strongWaiting == old(strongWaiting) + (if strong then [Item(last, old(raft.seqno), cmd, client)] else [])
              && raft.View() == (if strong then P.ApproveRead(raft.id, raft.peers, old(raft.View())).node
                                 else old(raft.View()))
              && raft.sent == old(raft.sent)
                           + (if strong then P.ApproveRead(raft.id, raft.peers, old(raft.View())).sent else [])
    {
      if Has(cmd, STALE) || (!Has(cmd, CONSISTENT) && raft.role == P.Leader) {
        waiting := waiting + [Item(raft.state.lastLogIndex, 0, cmd, client)];
        return;
      }
      if raft.role != P.Leader {
        ForwardCommand(cmd, client);
        return;
      }
      var seqno := raft.ApproveRead();
      strongWaiting := strongWaiting + [Item(raft.state.lastLogIndex, seqno, cmd, client)];
    }

    /** The leader appends a write to its log and waits for its index; others forward it. */
    method OnWriteRequest(cmd: Request, client: Client)
      requires raft.Valid() && Has(cmd, WRITE) && forwardCookie < COOKIES
      modifies `forwardCookie, `cookie2Client, `client2Cookie, `waitingStateChange, `out, `waiting
      modifies raft.state`log, raft.state`lastLogIndex, raft.state`lastLogTerm
      ensures raft.Valid()
      ensures var leads := raft.role == P.Leader;
              var hop := if leads then Hop(old(View()), [], [])
                         else ForwardHop(old(View()), raft.role == P.Candidate, raft.vol.leaderId, cmd, client);
              && View() == hop.routes && out == old(out) + hop.sent
              && waitingStateChange == old(waitingStateChange) + hop.parked
              && waiting == old(waiting) + (if leads then [Item(|raft.state.log|, 0, cmd, client)] else [])
              && raft.View() == (if leads then P.AppendCommand(old(raft.View()), 0, cmd.body) else old(raft.View()))
    {
      if raft.role == P.Leader {
        var e := rsm.Prepare(cmd.body);
        var index := raft.AppendCommand(e.flags, e.data);
        waiting := waiting + [Item(index, 0, cmd, client)];
      } else {
        ForwardCommand(cmd, client);
      }
    }

    /** Takes up what waited for a leader to be known, once one is known and the server is no candidate.
        A server that leads knows none (Following.LeaderNamesNobody), so then everything goes on
        waiting. */
    method CheckStateChange()
      requires raft.Valid() && forwardCookie < COOKIES && (raft.role == P.Leader ==> raft.vol.leaderId == 0)
      requires forall p | p in waitingStateChange :: p.0.cookie == 0 && (Has(p.0, WRITE) || !Has(p.0, STALE))
      modifies `forwardCookie, `cookie2Client, `client2Cookie, `waitingStateChange, `out
      modifies `waiting, `strongWaiting, raft`sent, raft`seqno
      modifies raft.state`log, raft.state`lastLogIndex, raft.state`lastLogTerm
      ensures raft.Valid() && raft.View() == old(raft.View()) && raft.sent == old(raft.sent)
      ensures waiting == old(waiting) && strongWaiting == old(strongWaiting)
      ensures var stays := raft.role == P.Candidate || raft.vol.leaderId == 0;
              var hop := ForwardAll(old(View()), raft.vol.leaderId, old(waitingStateChange));
              && (stays ==> View() == old(View()) && out == old(out) && waitingStateChange == old(waitingStateChange))
              && (!stays ==> View() == hop.routes && out == old(out) + hop.sent && waitingStateChange == [])
    {
      if waitingStateChange == [] || raft.role == P.Candidate || raft.vol.leaderId == 0 {
        return;
      }
      var apply := waitingStateChange;
      waitingStateChange := [];
      hide R.Raft.View, ForwardHop, WRITE, STALE;
      hide ForwardAll;
      assert apply[..0] == [];
      ForwardAllNone(View(), raft.vol.leaderId);
      var k := 0;
      while k < |apply|
        invariant k <= |apply| && raft.Valid() && forwardCookie < COOKIES
        invariant raft.View() == old(raft.View()) && raft.sent == old(raft.sent)
        invariant raft.role == P.Follower && raft.vol.leaderId == old(raft.vol.leaderId) != 0
        invariant waiting == old(waiting) && strongWaiting == old(strongWaiting) && waitingStateChange == []
        invariant var hop := ForwardAll(old(View()), raft.vol.leaderId, apply[..k]);
                  View() == hop.routes && out == old(out) + hop.sent
      {
        ForwardAllStep(old(View()), raft.vol.leaderId, apply, k);
        assert apply[k] in apply;
        TakeUp(apply[k].0, apply[k].1);
        k := k + 1;
      }
      assert apply[..|apply|] == apply;
    }

    /** A command that waited comes in again, now that a leader is known. */
    method TakeUp(cmd: Request, client: Client)
      requires raft.Valid() && forwardCookie < COOKIES && raft.role == P.Follower && raft.vol.leaderId != 0
      requires cmd.cookie == 0 && (Has(cmd, WRITE) || !Has(cmd, STALE))
      modifies `forwardCookie, `cookie2Client, `client2Cookie, `waitingStateChange, `out
      modifies `waiting, `strongWaiting, raft`sent, raft`seqno
      modifies raft.state`log, raft.state`lastLogIndex, raft.state`lastLogTerm
      ensures raft.Valid() && raft.View() == old(raft.View()) && raft.sent == old(raft.sent) && forwardCookie < COOKIES
      ensures waiting == old(waiting) && strongWaiting == old(strongWaiting)
      ensures waitingStateChange == old(waitingStateChange)
      ensures var hop := ForwardHop(old(View()), false, raft.vol.leaderId, cmd, client);
              View() == hop.routes && out == old(out) + hop.sent
    {
      hide R.Raft.View;
      if Has(cmd, WRITE) {
        OnWriteRequest(cmd, client);
      } else {
        OnReadRequest(cmd, client);
      }
    }

    // --- Applying and answering ---------------------------------------------------------------

    /** Applies the committed entries that the store has not seen yet, in order, stubs left out,
        and keeps one answer for each. */
    method ProcessCommitted()
      requires raft.state.Valid() && Replayed()
      requires rsm.lastAppliedIndex <= raft.vol.commitIndex <= |raft.state.log|
      requires forall e | e in raft.state.log :: e.flags == STUB || WellFormed(e.data)
      modifies this`writeAnswers, rsm
      ensures Replayed() && rsm.lastAppliedIndex == raft.vol.commitIndex
      ensures writeAnswers
           == old(writeAnswers) + AnswersFor(raft.state.log, old(rsm.lastAppliedIndex), raft.vol.commitIndex)
    {
      hide StoreAt, Ordered, WellFormed, Kv.Apply;
      var commitIndex := raft.vol.commitIndex;
      var i := rsm.lastAppliedIndex + 1;
      ghost var first := rsm.lastAppliedIndex;
      ghost var log := raft.state.log;
      AnswersStayOrdered(writeAnswers, log, first, commitIndex);
      while i <= commitIndex
        invariant first < i <= commitIndex + 1 && rsm.lastAppliedIndex < i
        invariant rsm.store == StoreAt(log, i - 1)
        invariant writeAnswers == old(writeAnswers) + AnswersFor(log, first, i - 1)
      {
        var e := raft.state.Get(i);
        StoreStep(log, i);
        if e.flags != STUB {
          assert e in log;
          rsm.Write(e, i);
          writeAnswers := writeAnswers + [Answer(i)];
        }
        i := i + 1;
      }
      rsm.lastAppliedIndex := commitIndex;
    }

    /** ProcessWaiting on the plain queue. False stands for a failing assert about the kept answers. A
        write at the end of the queue is answered when its answer was kept, and the assert then fails
        all the same unless it was alone. */
    method DrainWaiting() returns (ok: bool)
      requires Ordered(writeAnswers, rsm.lastAppliedIndex)
      requires forall w | w in waiting :: Has(w.request, WRITE) || ReadFormed(w.request.body)
      modifies `waiting, `writeAnswers, `replies
      ensures var ready := Ready(old(waiting), rsm.lastAppliedIndex);
              && (!ready ==> ok && waiting == old(waiting) && writeAnswers == old(writeAnswers) && replies == old(replies))
              && (ready && !Has(Last(old(waiting)).request, WRITE) ==>
                    ok && waiting == [] && writeAnswers == old(writeAnswers) && old(replies) <= replies
                    && ServesLast(rsm.store, old(waiting), replies[|old(replies)|..]))
              && (ready && Has(Last(old(waiting)).request, WRITE) ==>
                    var w, n := Last(old(waiting)), |old(waiting)|;
                    var kept := Kept(old(writeAnswers), w.index);
                    && (ok <==> WriteServed(old(waiting), old(writeAnswers)))
                    && replies == old(replies) + (if kept then [Reply(w.client, w.request.cookie, w.index, [])] else [])
                    && waiting == old(waiting)[if kept && n > 1 then 2 else 1..])
      ensures Ordered(writeAnswers, rsm.lastAppliedIndex)
    {
      hide IsRead, Ordered, Kept;
      ok := true;
      ghost var queue := waiting;
      ghost var sent: seq<Reply> := [];
      ghost var n := 0;
      while ok && Ready(waiting, rsm.lastAppliedIndex)
        invariant n <= |queue| && waiting == queue[n..] && (n > 0 ==> Ready(queue, rsm.lastAppliedIndex))
        invariant Ordered(writeAnswers, rsm.lastAppliedIndex) && replies == old(replies) + sent
        invariant n == 0 ==> ok && writeAnswers == old(writeAnswers) && sent == []
        invariant n > 0 && !Has(Last(queue).request, WRITE) ==>
                    ok && writeAnswers == old(writeAnswers) && |sent| == n
                    && forall i | 0 <= i < n :: ReadReply(rsm.store, Last(queue), sent[i])
        invariant n > 0 && Has(Last(queue).request, WRITE) ==>
                    var w := Last(queue);
                    var kept := Kept(old(writeAnswers), w.index);
                    && (ok <==> n == 1 && kept) && n <= (if kept then 2 else 1)
                    && sent == (if kept then [Reply(w.client, w.request.cookie, w.index, [])] else [])
                    && (ok ==> !Kept(writeAnswers, w.index))
        decreases |waiting|, ok
      {
        var w := Last(waiting);
        assert w == Last(queue) && w in queue;
        waiting := waiting[1..];
        n := n + 1;
        if Has(w.request, WRITE) {
          ok := FetchAnswer(w);
          sent := replies[|old(replies)|..];
        } else {
          var data := rsm.Read(w.request.body);
          var r := Reply(w.client, w.request.cookie, w.index, data);
          replies := replies + [r];
          sent := sent + [r];
        }
      }
    }

    /** Drops the answers of earlier writes; the next one must be the answer for `w`. */
    method FetchAnswer(w: Item) returns (ok: bool)
      requires Ordered(writeAnswers, rsm.lastAppliedIndex)
      modifies `writeAnswers, `replies
      ensures Ordered(writeAnswers, rsm.lastAppliedIndex) && ok == Kept(old(writeAnswers), w.index)
      ensures ok ==> replies == old(replies) + [Reply(w.client, w.request.cookie, w.index, [])]
                     && !Kept(writeAnswers, w.index)
      ensures !ok ==> replies == old(replies)
    {
      FrontIffKept(writeAnswers, rsm.lastAppliedIndex, w.index);
      while writeAnswers != [] && writeAnswers[0].index < w.index
        invariant From(writeAnswers, w.index) == From(old(writeAnswers), w.index)
        invariant replies == old(replies)
        decreases |writeAnswers|
      {
        writeAnswers := writeAnswers[1..];
      }
      if writeAnswers == [] || writeAnswers[0].index != w.index {
        return false;
      }
      writeAnswers := writeAnswers[1..];
      replies := replies + [Reply(w.client, w.request.cookie, w.index, [])];
      return true;
    }

    /** ProcessWaiting on the consistent reads: nothing is answered before the last one's index is
        applied and its counter confirmed. */
    method DrainStrong()
      requires forall w | w in strongWaiting :: ReadFormed(w.request.body)
      modifies `strongWaiting, `replies
      ensures var ready := StrongReady(old(strongWaiting), rsm.lastAppliedIndex, raft.vol.commitSeqno);
              && (!ready ==> strongWaiting == old(strongWaiting) && replies == old(replies))
              && (ready ==> strongWaiting == [] && old(replies) <= replies
                            && ServesLast(rsm.store, old(strongWaiting), replies[|old(replies)|..]))
    {
      ghost var queue := strongWaiting;
      ghost var sent: seq<Reply> := [];
      var seqno := raft.vol.commitSeqno;
      while StrongReady(strongWaiting, rsm.lastAppliedIndex, seqno)
        invariant |sent| + |strongWaiting| == |queue| && strongWaiting == queue[|sent|..]
        invariant replies == old(replies) + sent
        invariant sent != [] ==> StrongReady(queue, rsm.lastAppliedIndex, seqno)
        invariant forall i | 0 <= i < |sent| :: ReadReply(rsm.store, Last(queue), sent[i])
        decreases |strongWaiting|
      {
        var w := Last(strongWaiting);
        assert w == Last(queue) && w in queue;
        strongWaiting := strongWaiting[1..];
        var data := rsm.Read(w.request.body);
        replies := replies + [Reply(w.client, w.request.cookie, w.index, data)];
        sent := sent + [Reply(w.client, w.request.cookie, w.index, data)];
      }
    }
  }
}
