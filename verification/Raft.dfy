/** class TRaft of miniraft/raft.cpp. Every method computes the step function of Protocol.dfy on the
    server's fields and hands exactly that step's messages to the peers. */
module Raft {
  import opened Messages
  import opened Log
  import opened Commit
  import P = Protocol
  import S = LogState
  import V = VolatileState

  class Raft {
    const id: nat
    const peers: seq<nat>
    const minVotes: nat
    const nservers: nat
    const state: S.State
    var vol: V.State
    var seqno: nat
    var role: P.Role
    var sent: seq<Message>  // what the peers' Send has received, in order

    ghost predicate Valid()
      reads this, state, vol
    {
      && state.Valid()
      && Distinct(peers) && id !in peers
      && minVotes == P.MinVotes(|peers|) && nservers == |peers| + 1
      && forall p | p in vol.matchIndex :: p in peers
    }

    /** The fields as one value. */
    ghost function View(): P.Node
      reads this, state, vol
    {
      P.Node(state.currentTerm, state.votedFor, state.log, vol.View(), seqno, role)
    }

    /** The server is now as after `r`, and `r`'s messages were sent after `before`. */
    ghost predicate Did(r: P.Step, before: seq<Message>)
      reads this, state, vol
    {
      Valid() && View() == r.node && sent == before + r.sent
    }

    constructor (state: S.State, id: nat, peers: seq<nat>)
      requires state.Valid() && Distinct(peers) && id !in peers
      ensures Valid() && fresh(vol) && this.state == state && this.id == id && this.peers == peers && sent == []
      ensures View() == P.Boot(peers, state.currentTerm, state.votedFor, state.log)
    {
      this.id := id;
      this.peers := peers;
      this.minVotes := (|peers| + 2 + |peers| % 2) / 2;
      this.nservers := |peers| + 1;
      this.state := state;
      this.vol := new V.State(P.FreshVolatile(peers, 1));
      this.seqno := 0;
      this.role := P.Follower;
      this.sent := [];
    }

    method Send(m: Message)
      requires m.dst in peers
      modifies this`sent
      ensures sent == old(sent) + [m]
    {
      sent := sent + [m];
    }

    // --- Message handlers ---------------------------------------------------------------------

    method OnRequestVote(m: Message, now: nat, jitter: nat)
      requires Valid() && m.RequestVote? && m.src in peers
      modifies this`sent, vol`electionDue, state`votedFor
      ensures Did(P.OnRequestVote(id, old(View()), m, now, jitter), old(sent))
    {
      if m.term < state.currentTerm {
        Send(Message.Vote(id, m.src, state.currentTerm, false));
      } else if m.term == state.currentTerm {
        var accept := false;
        if state.votedFor == 0 || state.votedFor == m.candidateId {
          var lastTerm := state.TermAt(-1);
          if m.lastLogTerm > lastTerm {
            accept := true;
          } else if m.lastLogTerm == lastTerm && m.lastLogIndex >= state.lastLogIndex {
            accept := true;
          }
        }
        if accept {
          vol.electionDue := P.MakeElection(now, jitter);
          state.votedFor := m.candidateId;
        }
        Send(Message.Vote(id, m.src, state.currentTerm, accept));
      }
    }

    method OnVote(m: Message)
      requires Valid() && m.Vote? && m.src in peers
      modifies vol`votes, vol`rpcDue
      ensures Did(P.OnVote(old(View()), m), old(sent))
    {
      if m.granted && m.term == state.currentTerm {
        vol.votes := vol.votes + {m.src};
        vol.rpcDue := vol.rpcDue[m.src := P.Never];
      }
    }

    method OnAppend(m: Message, now: nat, jitter: nat)
      requires Valid() && m.Append? && m.src in peers && m.term <= state.currentTerm
      modifies this`sent, this`role, vol`leaderId, vol`commitIndex, vol`electionDue
      modifies state`log, state`lastLogIndex, state`lastLogTerm
      ensures Did(P.OnAppend(id, old(View()), m, now, jitter), old(sent))
    {
      hide Replay, P.Matches, Distinct;
      if m.term < state.currentTerm {
        Send(Appended(id, m.src, state.currentTerm, m.seqno, 0, false));
      } else {
        var matchIndex, success := Place(m);
        vol.leaderId := m.leaderId;
        vol.electionDue := P.MakeElection(now, jitter);
        role := P.Follower;
        Send(Appended(id, m.src, state.currentTerm, m.seqno, matchIndex, success));
      }
    }

    /** The part of OnAppend that touches the log: replays the payload after PrevLogIndex. */
    method Place(m: Message) returns (matchIndex: nat, success: bool)
      requires Valid() && m.Append? && m.term == state.currentTerm
      modifies vol`commitIndex, state`log, state`lastLogIndex, state`lastLogTerm
      ensures Valid() && success == P.Matches(old(state.log), m.prevLogIndex, m.prevLogTerm)
      ensures success ==> state.log == Replay(old(state.log), m.prevLogIndex, m.entries)
                          && vol.commitIndex == P.Max(old(vol.commitIndex), m.leaderCommit)
                          && matchIndex == m.prevLogIndex + |m.entries|
      ensures !success ==> state.log == old(state.log) && vol.commitIndex == old(vol.commitIndex) && matchIndex == 0
    {
      matchIndex, success := 0, false;
      var commitIndex := vol.commitIndex;
      var prevTerm := state.TermAt(m.prevLogIndex);
      if m.prevLogIndex == 0 || (m.prevLogIndex <= state.lastLogIndex && prevTerm == m.prevLogTerm) {
        success := true;
        matchIndex := state.ReplaceOrAppend(m.prevLogIndex, m.entries);
        commitIndex := P.Max(commitIndex, m.leaderCommit);
      }
      vol.commitIndex := commitIndex;
    }

    method OnAppended(m: Message)
      requires Valid() && m.Appended? && m.src in peers
      modifies vol
      ensures Did(P.OnAppended(peers, old(View()), m), old(sent))
    {
      hide P.CommitAdvance, P.OnReply, Distinct;
      if m.term != state.currentTerm {
        return;
      }
      if m.success {
        RecordSuccess(m);
        vol.CommitAdvance(nservers, state, m.seqno, id, peers);
      } else {
        RecordFailure(m);
      }
    }

    /** The leader's view of a peer that took a request. */
    method RecordSuccess(m: Message)
      requires m.Appended? && m.success
      modifies vol
      ensures vol.View() == P.OnReply(old(vol.View()), m)
      ensures forall p | p in vol.matchIndex :: p in old(vol.matchIndex) || p == m.src
    {
      var p := m.src;
      vol.matchIndex := vol.matchIndex[p := P.Max(P.Get(vol.matchIndex, p), m.matchIndex)];
      vol.nextIndex := vol.nextIndex[p := m.matchIndex + 1];
      vol.rpcDue := vol.rpcDue[p := P.At(0)];
      vol.batchSize := vol.batchSize[p := P.BATCH];
      vol.backOff := vol.backOff[p := 1];
    }

    /** The leader's view of a peer that rejected a request. */
    method RecordFailure(m: Message)
      requires m.Appended? && !m.success
      modifies vol
      ensures vol.View() == P.OnReply(old(vol.View()), m) && vol.matchIndex == old(vol.matchIndex)
    {
      var p := m.src;
      var backOff := P.Max(P.Get(vol.backOff, p), 1);
      var next := P.Get(vol.nextIndex, p);
      next := if next > backOff then next - backOff else 0;
      vol.nextIndex := vol.nextIndex[p := P.Max(1, next)];
      vol.rpcDue := vol.rpcDue[p := P.At(0)];
      vol.batchSize := vol.batchSize[p := 1];
      vol.backOff := vol.backOff[p := P.Min(P.MAX_BACKOFF, 2 * backOff)];
    }

    method Observe(term: nat, now: nat, jitter: nat)
      requires Valid()
      modifies this`role, state`currentTerm, state`votedFor, vol`electionDue
      ensures Valid() && View() == P.Observe(old(View()), term, now, jitter)
    {
      if term > state.currentTerm {
        state.currentTerm := term;
        state.votedFor := 0;
        role := P.Follower;
        if P.Due(vol.electionDue, now) || vol.electionDue == P.Never {
          vol.electionDue := P.MakeElection(now, jitter);
        }
      }
    }

    method Process(m: Message, t: P.Tick)
      requires Valid() && m.src in peers
      modifies this`sent, this`role, vol, state
      ensures Did(P.Process(id, peers, old(View()), m, t), old(sent))
    {
      Observe(m.term, t.now, t.jitter);
      match role {
        case Follower =>
          if m.RequestVote? {
            OnRequestVote(m, t.now, t.jitter2);
          } else if m.Append? {
            OnAppend(m, t.now, t.jitter2);
          }
        case Candidate =>
          if m.Vote? {
            OnVote(m);
          } else if m.RequestVote? {
            OnRequestVote(m, t.now, t.jitter2);
          } else if m.Append? {
            OnAppend(m, t.now, t.jitter2);
          }
        case Leader =>
          if m.Appended? {
            OnAppended(m);
          } else if m.RequestVote? {
            OnRequestVote(m, t.now, t.jitter2);
          } else if m.Append? {
            OnAppend(m, t.now, t.jitter2);
          }
      }
    }

    // --- Sending ------------------------------------------------------------------------------

    /** The payload of a request, entry by entry. */
    method CopyEntries(prev: nat, last: nat) returns (entries: seq<Entry>)
      requires state.Valid() && prev <= last <= |state.log|
      ensures entries == state.log[prev..last]
    {
      entries := [];
      for i := prev + 1 to last + 1
        invariant |entries| == i - prev - 1 && entries == state.log[prev..i - 1]
      {
        var e := state.Get(i);
        entries := entries + [e];
      }
    }

    method CreateAppendEntries(p: nat) returns (m: Message)
      requires Valid() && P.NextInRange(View(), p)
      modifies this`seqno
      ensures Valid() && m == P.CreateAppendEntries(id, old(View()), p) && m.dst == p
      ensures View() == old(View()).(seqno := old(seqno) + 1)
    {
      hide P.CreateAppendEntries, LogTerm, Distinct;
      var batch := P.Max(1, P.Get(vol.batchSize, p));
      var prev := P.Get(vol.nextIndex, p) - 1;
      var last := P.Min(prev + batch, state.lastLogIndex);
      if P.Get(vol.matchIndex, p) + 1 < P.Get(vol.nextIndex, p) {
        last := prev;
      }
      P.RequestFields(id, View(), p, prev, last);
      var entries := CopyEntries(prev, last);
      var prevTerm := state.TermAt(prev);
      m := Append(id, p, state.currentTerm, seqno, prev, prevTerm, P.Min(vol.commitIndex, last), id,
                  last - prev, entries);
      seqno := seqno + 1;
    }

    method CandidateTimeout(now: nat)
      requires Valid()
      modifies this`sent, vol`rpcDue
      ensures Did(P.CandidateTimeout(id, peers, old(View()), now), old(sent))
    {
      for k := 0 to |peers|
        invariant Did(P.CandidateTimeout(id, peers[..k], old(View()), now), old(sent))
      {
        assert peers[..k + 1][..k] == peers[..k];
        var p := peers[k];
        if P.Due(P.GetTime(vol.rpcDue, p), now) {
          ghost var s := View();
          var m := RequestVote(id, p, state.currentTerm, state.lastLogIndex, state.lastLogTerm, id);
          assert m == P.CreateVote(id, s, p);
          vol.rpcDue := vol.rpcDue[p := P.At(now + P.RPC)];
          Send(m);
        }
      }
      assert peers[..|peers|] == peers;
    }

    method Heartbeats(now: nat)
      requires Valid() && P.CanSend(View(), peers)
      modifies this`sent, this`seqno, vol`heartbeatDue, vol`rpcDue
      ensures Did(P.Heartbeats(id, peers, old(View()), now), old(sent))
    {
      hide P.HeartbeatTo, Distinct;
      for k := 0 to |peers|
        invariant Did(P.Heartbeats(id, peers[..k], old(View()), now), old(sent))
      {
        assert peers[..k + 1][..k] == peers[..k];
        var p := peers[k];
        assert p in peers && P.NextInRange(old(View()), p);
        HeartbeatTo(p, now);
      }
      assert peers[..|peers|] == peers;
    }

    method HeartbeatTo(p: nat, now: nat)
      requires Valid() && p in peers && P.NextInRange(View(), p)
      modifies this`sent, this`seqno, vol`heartbeatDue, vol`rpcDue
      ensures Did(P.HeartbeatTo(id, old(View()), p, now), old(sent))
    {
      hide P.CreateAppendEntries, Distinct;
      if P.Due(P.GetTime(vol.heartbeatDue, p), now)
         || (P.Get(vol.nextIndex, p) <= state.lastLogIndex && P.Due(P.GetTime(vol.rpcDue, p), now))
      {
        vol.heartbeatDue := vol.heartbeatDue[p := P.At(now + P.ELECTION / 2)];
        vol.rpcDue := vol.rpcDue[p := P.At(now + P.RPC)];
        var m := CreateAppendEntries(p);
        Send(m);
      }
    }

    method LeaderTimeout(now: nat)
      requires Valid() && P.CanSend(View(), peers)
      modifies this`sent, this`seqno, vol
      ensures Did(P.LeaderTimeout(id, peers, old(View()), now), old(sent))
    {
      Heartbeats(now);
      if nservers == 1 {
        vol.CommitAdvance(nservers, state, 0, id, peers);
      }
    }

    /** Sends a request to every peer and returns the counter the read waits for. */
    method ApproveRead() returns (tag: nat)
      requires Valid() && P.CanSend(View(), peers)
      modifies this`sent, this`seqno
      ensures Did(P.ApproveRead(id, peers, old(View())), old(sent)) && tag == old(seqno)
    {
      hide P.CreateAppendEntries, Distinct;
      tag := seqno;
      for k := 0 to |peers|
        invariant Did(P.ApproveRead(id, peers[..k], old(View())), old(sent)) && tag == old(seqno)
      {
        assert peers[..k + 1][..k] == peers[..k];
        assert peers[k] in peers && P.NextInRange(old(View()), peers[k]);
        var m := CreateAppendEntries(peers[k]);
        Send(m);
      }
      assert peers[..|peers|] == peers;
    }

    // --- Elections ----------------------------------------------------------------------------

    method StartElection(now: nat, jitter: nat)
      requires Valid()
      modifies this`vol, this`role, state`currentTerm, state`votedFor
      ensures Valid() && fresh(vol) && View() == P.StartElection(id, peers, old(View()), now, jitter)
    {
      var v := P.FreshVolatile(peers, 1);
      vol := new V.State(v.(electionDue := P.MakeElection(now, jitter), commitIndex := vol.commitIndex));
      state.votedFor := id;
      state.currentTerm := state.currentTerm + 1;
      role := P.Candidate;
    }

    method BecomeLeader()
      requires Valid()
      modifies this`vol, this`role, state`log, state`lastLogIndex, state`lastLogTerm
      ensures Valid() && fresh(vol) && View() == P.BecomeLeader(peers, old(View()))
    {
      var v := P.FreshVolatile(peers, state.lastLogIndex + 1);
      vol := new V.State(v.(commitIndex := vol.commitIndex, rpcDue := map p | p in peers :: P.Never,
                            electionDue := P.Never));
      role := P.Leader;
      state.Append(Entry(state.currentTerm, STUB, []));
    }

    method ProcessTimeout(t: P.Tick)
      requires Valid() && (role == P.Leader ==> P.CanSend(View(), peers))
      modifies this`vol, this`role, this`sent, this`seqno, vol, state
      ensures Did(P.ProcessTimeout(id, peers, old(View()), t), old(sent))
      ensures vol == old(vol) || fresh(vol)
    {
      hide P.LeaderTimeout, P.CandidateTimeout, Distinct;
      if (role == P.Candidate || role == P.Follower) && P.Due(vol.electionDue, t.now) {
        StartElection(t.now, t.jitter);
      }
      if role == P.Candidate && |vol.votes| + 1 >= minVotes {
        BecomeLeader();
      }
      assert View() == P.Elect(id, peers, old(View()), t.now, t.jitter) && sent == old(sent);
      match role {
        case Follower =>
        case Candidate => CandidateTimeout(t.now);
        case Leader => LeaderTimeout(t.now);
      }
    }

    /** Append of a prepared command; returns its index. */
    method AppendCommand(flags: nat, data: seq<byte>) returns (index: nat)
      requires Valid()
      modifies state`log, state`lastLogIndex, state`lastLogTerm
      ensures Valid() && View() == P.AppendCommand(old(View()), flags, data) && index == |state.log|
    {
      state.Append(Entry(state.currentTerm, flags, data));
      index := state.lastLogIndex;
    }
  }
}
