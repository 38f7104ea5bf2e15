/** The records of miniraft/messages.h that the protocol exchanges. */
module Messages {

  type byte = x: int | 0 <= x < 256

  type Bin = seq<byte>

  /** TLogEntry::EStub, the flag of the empty entry a new leader appends. */
  const STUB: nat := 1

  /** TLogEntry: term, flags and command bytes. */
  datatype Entry = Entry(term: nat, flags: nat, data: seq<byte>)

  /** The four TMessageEx records. `nentries` is the header field, `entries` the payload. */
  datatype Message =
    | RequestVote(src: nat, dst: nat, term: nat, lastLogIndex: nat, lastLogTerm: nat, candidateId: nat)
    | Vote(src: nat, dst: nat, term: nat, granted: bool)
    | Append(src: nat, dst: nat, term: nat, seqno: nat, prevLogIndex: nat, prevLogTerm: nat,
             leaderCommit: nat, leaderId: nat, nentries: nat, entries: seq<Entry>)
    | Appended(src: nat, dst: nat, term: nat, seqno: nat, matchIndex: nat, success: bool)
}
