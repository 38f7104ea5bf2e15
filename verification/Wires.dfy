/** The records of miniraft/messages.h as bytes: how each protocol message and log entry lies in
    memory, and so on the wire, and what the receiver reads from it. */
module Wires {
  import opened Messages
  import opened Bytes
  import opened Framing

  const HEADER: nat := 24  // type, length, term and flags of a log entry
  const LOG_ENTRY: nat := 1
  const REQUEST_VOTE: nat := 2
  const VOTE: nat := 3
  const APPENDED: nat := 5

  /** A number and the width of its field. */
  datatype Field = Field(value: nat, width: nat)

  /** The fields one after the other. */
  function Pack(fields: seq<Field>): (s: Bin)
    ensures |s| == Width(fields)
  {
    if fields == [] then [] else ToBytes(fields[0].value, fields[0].width) + Pack(fields[1..])
  }

  function Width(fields: seq<Field>): nat {
    if fields == [] then 0 else fields[0].width + Width(fields[1..])
  }

  function Low(n: nat): Field { Field(n, 4) }

  function Wide(n: nat): Field { Field(n, 8) }

  predicate FieldFits(f: Field) { f.value < Pow256(f.width) }

  predicate Fit(fields: seq<Field>) { forall f | f in fields :: FieldFits(f) }

  /** The values read back from fields of these widths. */
  function Unpack(s: Bin, widths: seq<nat>): (v: seq<nat>)
    requires |s| >= Total(widths)
    ensures |v| == |widths|
    decreases |widths|
  {
    if widths == [] then [] else [FromBytes(s[..widths[0]])] + Unpack(s[widths[0]..], widths[1..])
  }

  function Total(widths: seq<nat>): nat {
    if widths == [] then 0 else widths[0] + Total(widths[1..])
  }

  function Widths(fields: seq<Field>): seq<nat> { seq(|fields|, i requires 0 <= i < |fields| => fields[i].width) }

  function Values(fields: seq<Field>): seq<nat> { seq(|fields|, i requires 0 <= i < |fields| => fields[i].value) }

  lemma WidthsTotal(fields: seq<Field>)
    ensures Total(Widths(fields)) == Width(fields)
  {
    if fields != [] {
      WidthsTotal(fields[1..]);
      assert Widths(fields)[1..] == Widths(fields[1..]);
    }
  }

  /** Fields are read back as their values cut to the width. */
  lemma {:induction false} UnpackPack(fields: seq<Field>, rest: Bin)
    ensures Total(Widths(fields)) == Width(fields)
    ensures Unpack(Pack(fields) + rest, Widths(fields))
         == seq(|fields|, i requires 0 <= i < |fields| => fields[i].value % Pow256(fields[i].width))
  {
    hide ToBytes, FromBytes, Pow256;
    WidthsTotal(fields);
    if fields != [] {
      var f := fields[0];
      UnpackPack(fields[1..], rest);
      assert Widths(fields)[1..] == Widths(fields[1..]);
      FromToBytes(f.value, f.width);
      var s := Pack(fields) + rest;
      assert s[..f.width] == ToBytes(f.value, f.width) && s[f.width..] == Pack(fields[1..]) + rest;
    }
  }

  lemma {:induction false} UnpackBound(s: Bin, widths: seq<nat>)
    requires |s| >= Total(widths)
    ensures forall i | 0 <= i < |widths| :: Unpack(s, widths)[i] < Pow256(widths[i])
    decreases |widths|
  {
    if widths != [] {
      FromBytesBound(s[..widths[0]]);
      UnpackBound(s[widths[0]..], widths[1..]);
    }
  }

  // --- Log entries ----------------------------------------------------------------------------

  function EntryFields(e: Entry): seq<Field> { [Wide(e.term), Wide(e.flags)] }

  function EntryWire(e: Entry): Wire { Wire(LOG_ENTRY, Pack(EntryFields(e)) + e.data, []) }

  function EntryWires(es: seq<Entry>): seq<Wire> {
    seq(|es|, i requires 0 <= i < |es| => EntryWire(es[i]))
  }

  predicate EntryFits(e: Entry) { e.term < LIMIT64 && e.flags < LIMIT64 && HEADER + |e.data| < LIMIT32 }

  /** The receiver casts whatever follows a request to a log entry; its type is not looked at. */
  function EntryOf(w: Wire): Option<Entry> {
    if |w.body| < 16 then None
    else
      var v := Unpack(w.body, [8, 8]);
      Some(Entry(v[0], v[1], w.body[16..]))
  }

  function EntriesOf(ws: seq<Wire>): Option<seq<Entry>> {
    if ws == [] then Some([])
    else
      match (EntryOf(ws[0]), EntriesOf(ws[1..]))
      case (Some(e), Some(es)) => Some([e] + es)
      case _ => None
  }

  // --- Protocol messages ----------------------------------------------------------------------

  /** The fields of a message in the order of its record. */
  function Fields(m: Message): seq<Field> {
    match m
    case RequestVote(src, dst, term, lastLogIndex, lastLogTerm, candidateId) =>
      [Low(src), Low(dst), Wide(term), Wide(0), Wide(lastLogIndex), Wide(lastLogTerm), Low(candidateId), Low(0)]
    case Vote(src, dst, term, granted) =>
      [Low(src), Low(dst), Wide(term), Wide(0), Low(if granted then 1 else 0), Low(0)]
    case Append(src, dst, term, seqno, prevLogIndex, prevLogTerm, leaderCommit, leaderId, nentries, _) =>
      [Low(src), Low(dst), Wide(term), Wide(seqno), Wide(prevLogIndex), Wide(prevLogTerm), Wide(leaderCommit),
       Low(leaderId), Low(nentries)]
    case Appended(src, dst, term, seqno, matchIndex, success) =>
      [Low(src), Low(dst), Wide(term), Wide(seqno), Wide(matchIndex), Low(if success then 1 else 0), Low(0)]
  }

  function Kind(m: Message): nat {
    match m
    case RequestVote(_, _, _, _, _, _) => REQUEST_VOTE
    case Vote(_, _, _, _) => VOTE
    case Append(_, _, _, _, _, _, _, _, _, _) => APPEND_ENTRIES
    case Appended(_, _, _, _, _, _) => APPENDED
  }

  function MessageWire(m: Message): Wire {
    Wire(Kind(m), Pack(Fields(m)), if m.Append? then EntryWires(m.entries) else [])
  }

  /** What the receiver makes of a message; a body too short for its record is none. */
  function MessageOf(w: Wire): Option<Message> {
    if w.kind == REQUEST_VOTE && |w.body| >= 48 then
      var v := Unpack(w.body, [4, 4, 8, 8, 8, 8, 4, 4]);
      Some(RequestVote(v[0], v[1], v[2], v[4], v[5], v[6]))
    else if w.kind == VOTE && |w.body| >= 32 then
      var v := Unpack(w.body, [4, 4, 8, 8, 4, 4]);
      Some(Vote(v[0], v[1], v[2], v[4] != 0))
    else if w.kind == APPEND_ENTRIES && |w.body| >= 56 then
      var v := Unpack(w.body, [4, 4, 8, 8, 8, 8, 8, 4, 4]);
      match EntriesOf(w.payload)
      case Some(es) => Some(Append(v[0], v[1], v[2], v[3], v[4], v[5], v[6], v[7], v[8], es))
      case None => None
    else if w.kind == APPENDED && |w.body| >= 40 then
      var v := Unpack(w.body, [4, 4, 8, 8, 8, 4, 4]);
      Some(Appended(v[0], v[1], v[2], v[3], v[4], v[5] != 0))
    else None
  }

  /** Every number fits its field and the header counts the payload. */
  predicate Transmittable(m: Message) {
    Fit(Fields(m)) && (m.Append? ==> m.nentries == |m.entries| && forall e | e in m.entries :: EntryFits(e))
  }

  // --- What is read is what was sent ----------------------------------------------------------

  lemma DropSlice(s: Bin, n: nat, lo: nat, hi: nat)
    requires n <= |s| && lo <= hi <= |s| - n
    ensures s[n..][lo..hi] == s[n + lo..n + hi]
  {
    var t, u := s[n..][lo..hi], s[n + lo..n + hi];
    assert forall k | 0 <= k < |t| :: t[k] == s[n + lo + k] == u[k];
  }

  lemma {:induction false} UnpackAt(s: Bin, widths: seq<nat>, i: nat)
    requires |s| >= Total(widths) && i < |widths|
    ensures Total(widths[..i]) + widths[i] <= |s|
    ensures Unpack(s, widths)[i] == FromBytes(s[Total(widths[..i])..Total(widths[..i]) + widths[i]])
    decreases i
  {
    hide FromBytes;
    if i == 0 {
      assert widths[..0] == [];
    } else {
      var w, ws := widths[0], widths[1..];
      UnpackAt(s[w..], ws, i - 1);
      assert widths[..i][0] == w && widths[..i][1..] == ws[..i - 1];
      DropSlice(s, w, Total(ws[..i - 1]), Total(ws[..i - 1]) + ws[i - 1]);
    }
  }

  /** Fields that fit are read back. */
  lemma FieldsReadBack(fields: seq<Field>, rest: Bin)
    requires Fit(fields)
    ensures Total(Widths(fields)) == Width(fields)
    ensures Unpack(Pack(fields) + rest, Widths(fields)) == Values(fields)
  {
    UnpackPack(fields, rest);
    forall i | 0 <= i < |fields| ensures fields[i].value % Pow256(fields[i].width) == fields[i].value {
      assert FieldFits(fields[i]);
      FieldRoundTrip(fields[i].value, fields[i].width);
      FromToBytes(fields[i].value, fields[i].width);
    }
  }

  lemma EntryReadBack(e: Entry)
    requires EntryFits(e)
    ensures WellFormed(EntryWire(e)) && EntryOf(EntryWire(e)) == Some(e)
  {
    FieldSizes();
    var fields := EntryFields(e);
    assert |fields| == 2 && Widths(fields) == [8, 8] && Values(fields) == [e.term, e.flags];
    FieldsReadBack(fields, e.data);
    assert |Pack(fields)| == 16 by { PackedEntry(e); }
  }

  lemma PackedEntry(e: Entry)
    ensures Pack(EntryFields(e)) == ToBytes(e.term, 8) + ToBytes(e.flags, 8)
  {
    hide ToBytes;
    var rest := [Wide(e.flags)];
    assert EntryFields(e)[1..] == rest && rest[1..] == [];
    assert Pack(rest) == ToBytes(e.flags, 8) + Pack([]);
  }

  lemma {:induction false} EntriesReadBack(es: seq<Entry>)
    requires forall e | e in es :: EntryFits(e)
    ensures EntriesOf(EntryWires(es)) == Some(es)
    ensures forall w | w in EntryWires(es) :: WellFormed(w)
  {
    forall i | 0 <= i < |es| ensures WellFormed(EntryWires(es)[i]) { EntryReadBack(es[i]); }
    if es != [] {
      hide EntryWire, EntryFits;
      EntryReadBack(es[0]);
      EntriesReadBack(es[1..]);
      assert EntryWires(es)[1..] == EntryWires(es[1..]);
      assert es == [es[0]] + es[1..];
    }
  }

  /** What is read fits, whatever the bytes. */
  lemma {:induction false} EntriesFit(ws: seq<Wire>)
    requires EntriesOf(ws).Some? && forall w | w in ws :: WellFormed(w)
    ensures |EntriesOf(ws).value| == |ws| && forall e | e in EntriesOf(ws).value :: EntryFits(e)
  {
    if ws != [] {
      EntriesFit(ws[1..]);
      EntryReadFits(ws[0]);
    }
  }

  lemma EntryReadFits(w: Wire)
    requires WellFormed(w) && EntryOf(w).Some?
    ensures EntryFits(EntryOf(w).value)
  {
    FieldSizes();
    UnpackBound(w.body, [8, 8]);
    assert Unpack(w.body, [8, 8])[0] < Pow256(8) && Unpack(w.body, [8, 8])[1] < Pow256(8);
  }

  /** The widths of a record, by kind. */
  function Layout(kind: nat): seq<nat> {
    if kind == REQUEST_VOTE then [4, 4, 8, 8, 8, 8, 4, 4]
    else if kind == VOTE then [4, 4, 8, 8, 4, 4]
    else if kind == APPEND_ENTRIES then [4, 4, 8, 8, 8, 8, 8, 4, 4]
    else [4, 4, 8, 8, 8, 4, 4]
  }

  lemma LayoutIs(m: Message)
    ensures Widths(Fields(m)) == Layout(Kind(m)) && |Pack(Fields(m))| == Total(Layout(Kind(m)))
  {
    WidthsTotal(Fields(m));
  }

  lemma LayoutTotals()
    ensures Total(Layout(REQUEST_VOTE)) == 48 && Total(Layout(VOTE)) == 32
    ensures Total(Layout(APPEND_ENTRIES)) == 56 && Total(Layout(APPENDED)) == 40
    ensures Total(Layout(APPEND_ENTRIES)[..8]) == NENTRIES
  {
    assert Total([4, 4, 8, 8, 8, 8, 4, 4]) == 48;
    assert Total([4, 4, 8, 8, 4, 4]) == 32;
    assert Total([4, 4, 8, 8, 8, 8, 8, 4, 4]) == 56;
    assert Total([4, 4, 8, 8, 8, 4, 4]) == 40;
    assert Layout(APPEND_ENTRIES)[..8] == [4, 4, 8, 8, 8, 8, 8, 4];
    assert Total([4, 4, 8, 8, 8, 8, 8, 4]) == 52;
  }

  /** The Nentries field of a request on the wire. */
  lemma NentriesOnWire(m: Message)
    requires m.Append? && Fit(Fields(m))
    ensures |MessageWire(m).body| == NENTRIES + 4
    ensures FromBytes(MessageWire(m).body[NENTRIES..NENTRIES + 4]) == m.nentries
  {
    hide Unpack, Pack;
    LayoutIs(m);
    LayoutTotals();
    var body := Pack(Fields(m));
    FieldsReadBack(Fields(m), []);
    assert body + [] == body;
    UnpackAt(body, Layout(APPEND_ENTRIES), 8);
    assert Values(Fields(m))[8] == m.nentries;
  }

  lemma WireFormed(m: Message)
    requires Transmittable(m)
    ensures WellFormed(MessageWire(m))
  {
    hide Pack, Fit;
    LayoutIs(m);
    LayoutTotals();
    if m.Append? {
      EntriesReadBack(m.entries);
      NentriesOnWire(m);
    }
  }

  /** Decoding undoes encoding. */
  lemma MessageReadBack(m: Message)
    requires Transmittable(m)
    ensures MessageOf(MessageWire(m)) == Some(m)
  {
    hide Pack, Unpack, Fit, Pow256, FromBytes, EntryWires, EntryFits, Widths, Total;
    LayoutIs(m);
    LayoutTotals();
    FieldsReadBack(Fields(m), []);
    assert Pack(Fields(m)) + [] == Pack(Fields(m));
    if m.Append? { EntriesReadBack(m.entries); }
    DecodedFields(m, MessageWire(m));
  }

  /** A body that holds the fields of `m`. */
  lemma DecodedFields(m: Message, w: Wire)
    requires w.kind == Kind(m) && |w.body| == Total(Layout(w.kind)) && Unpack(w.body, Layout(w.kind)) == Values(Fields(m))
    requires m.Append? ==> EntriesOf(w.payload) == Some(m.entries)
    ensures MessageOf(w) == Some(m)
  {
    hide Unpack, EntriesOf;
    LayoutTotals();
    hide Total;
    var v := Values(Fields(m));
    assert forall i | 0 <= i < |Fields(m)| :: v[i] == Fields(m)[i].value;
  }

  lemma AllFit(fields: seq<Field>, bound: seq<nat>)
    requires |bound| == |fields| && forall i | 0 <= i < |fields| :: fields[i].width == bound[i]
    requires forall i | 0 <= i < |fields| :: fields[i].value < Pow256(bound[i])
    ensures Fit(fields)
  {
    hide Pow256;
  }

  /** The counter and the payload of a request that was read. */
  lemma RequestCounted(w: Wire)
    requires WellFormed(w) && MessageOf(w).Some? && w.kind == APPEND_ENTRIES
    ensures var m := MessageOf(w).value;
            m.nentries == |m.entries| && forall e | e in m.entries :: EntryFits(e)
  {
    LayoutTotals();
    hide Unpack, EntryFits, Total, EntriesOf, FromBytes;
    EntriesFit(w.payload);
    UnpackAt(w.body, Layout(APPEND_ENTRIES), 8);
  }

  lemma BodyHoldsLayout(w: Wire)
    requires MessageOf(w).Some?
    ensures |w.body| >= Total(Layout(w.kind)) && Kind(MessageOf(w).value) == w.kind
  {
    LayoutTotals();
    hide Unpack, EntriesOf, Total;
  }

  /** Whatever the reader hands over as a message could have been sent. */
  lemma MessageReadFits(w: Wire)
    requires WellFormed(w) && MessageOf(w).Some?
    ensures Transmittable(MessageOf(w).value)
  {
    hide MessageOf, WellFormed, Unpack, Fit, Fields, EntryFits, Total;
    var m := MessageOf(w).value;
    BodyHoldsLayout(w);
    UnpackBound(w.body, Layout(w.kind));
    FieldsBounded(m, w);
    AllFit(Fields(m), Layout(w.kind));
    if m.Append? { RequestCounted(w); }
  }

  lemma FieldsBounded(m: Message, w: Wire)
    requires MessageOf(w) == Some(m) && |w.body| >= Total(Layout(w.kind))
    requires forall i | 0 <= i < |Layout(w.kind)| :: Unpack(w.body, Layout(w.kind))[i] < Pow256(Layout(w.kind)[i])
    ensures |Fields(m)| == |Layout(w.kind)|
    ensures forall i | 0 <= i < |Fields(m)| ::
              Fields(m)[i].width == Layout(w.kind)[i] && Fields(m)[i].value < Pow256(Layout(w.kind)[i])
  {
    FieldSizes();
    hide Unpack, Pow256, Total, EntriesOf;
  }

  /** A message sent by one server reaches the other as it was, and the rest of the stream with it,
      exactly when every number fits its field and, for a request, Nentries counts the payload. */
  lemma MessageRoundTripIff(m: Message, rest: Bin)
    ensures var r := Parse(Serialize(MessageWire(m)) + rest);
            (r.Ok? && r.rest == rest && MessageOf(r.msg) == Some(m)) <==> Transmittable(m)
  {
    hide Parse, Serialize, MessageOf, MessageWire, Transmittable, WellFormed;
    var s := Serialize(MessageWire(m)) + rest;
    if Transmittable(m) {
      WireFormed(m);
      ReadsBack(MessageWire(m), rest);
      MessageReadBack(m);
    }
    if Parse(s).Ok? {
      ReadWasWritten(s);
      if MessageOf(Parse(s).msg) == Some(m) { MessageReadFits(Parse(s).msg); }
    }
  }
}
