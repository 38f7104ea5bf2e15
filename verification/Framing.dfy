/** TMessageWriter and TMessageReader of miniraft/net/server.cpp: messages on a byte stream. A
    message is a type, a length that includes these two fields, and a body; an AppendEntries
    request is followed by as many messages as its Nentries field says. */
module Framing {
  import opened Messages
  import opened Bytes

  const APPEND_ENTRIES: nat := 4
  const NENTRIES: nat := 52  // offset of Nentries in the body of an AppendEntries request

  datatype Wire = Wire(kind: nat, body: Bin, payload: seq<Wire>)

  function Header(w: Wire): (s: Bin)
    ensures |s| == 8
  {
    ToBytes(w.kind, 4) + ToBytes(8 + |w.body|, 4)
  }

  function Serialize(w: Wire): Bin
    decreases w, 0
  {
    Header(w) + w.body + SerializeAll(w.payload)
  }

  function SerializeAll(ws: seq<Wire>): Bin
    decreases ws, 0
  {
    if ws == [] then [] else Serialize(ws[0]) + SerializeAll(ws[1..])
  }

  /** A message the reader can give back: the sizes fit, and the header of an AppendEntries request
      counts its payload; no other message carries one. */
  predicate WellFormed(w: Wire)
    decreases w
  {
    && w.kind < LIMIT32 && 8 + |w.body| < LIMIT32
    && (if w.kind == APPEND_ENTRIES
        then |w.body| >= NENTRIES + 4 && FromBytes(w.body[NENTRIES..NENTRIES + 4]) == |w.payload|
        else w.payload == [])
    && forall v | v in w.payload :: WellFormed(v)
  }

  datatype Parsed = Failed | Ok(msg: Wire, rest: Bin)
  datatype ParsedMany = FailedMany | OkMany(msgs: seq<Wire>, rest: Bin)

  /** Failed stands for the exception on a closed connection, and for a length too short for the
      fields that are read. */
  function Parse(s: Bin): (r: Parsed)
    ensures r.Ok? ==> |r.rest| < |s|
    decreases |s|, 0
  {
    if |s| < 8 then Failed
    else
      var kind, len := FromBytes(s[..4]), FromBytes(s[4..8]);
      if len < 8 || len > |s| then Failed
      else
        var body := s[8..len];
        if kind != APPEND_ENTRIES then Ok(Wire(kind, body, []), s[len..])
        else if |body| < NENTRIES + 4 then Failed
        else
          match ParseMany(s[len..], FromBytes(body[NENTRIES..NENTRIES + 4]))
          case FailedMany => Failed
          case OkMany(msgs, rest) => Ok(Wire(kind, body, msgs), rest)
  }

  function ParseMany(s: Bin, n: nat): (r: ParsedMany)
    ensures r.OkMany? ==> |r.rest| <= |s| && |r.msgs| == n
    decreases |s|, 1
  {
    if n == 0 then OkMany([], s)
    else
      match Parse(s)
      case Failed => FailedMany
      case Ok(msg, rest) => Prepend([msg], ParseMany(rest, n - 1))
  }

  function Prepend(msgs: seq<Wire>, r: ParsedMany): ParsedMany {
    if r.FailedMany? then r else OkMany(msgs + r.msgs, r.rest)
  }

  // --- Reader and writer are inverse ----------------------------------------------------------

  lemma HeaderFields(w: Wire, rest: Bin)
    requires w.kind < LIMIT32 && 8 + |w.body| < LIMIT32
    ensures var s := Header(w) + w.body + rest;
            && |s| >= 8 + |w.body|
            && FromBytes(s[..4]) == w.kind && FromBytes(s[4..8]) == 8 + |w.body|
            && s[8..8 + |w.body|] == w.body && s[8 + |w.body|..] == rest
  {
    hide ToBytes, FromBytes, Pow256;
    FieldSizes();
    FieldRoundTrip(w.kind, 4);
    FieldRoundTrip(8 + |w.body|, 4);
    var a, b := ToBytes(w.kind, 4), ToBytes(8 + |w.body|, 4);
    var s := a + b + w.body + rest;
    assert s[..4] == a && s[4..8] == b;
    assert s[8..8 + |w.body|] == w.body && s[8 + |w.body|..] == rest;
  }

  /** What is written is read back, whatever follows on the stream. */
  lemma {:induction false} ReadsBack(w: Wire, rest: Bin)
    requires WellFormed(w)
    ensures Parse(Serialize(w) + rest) == Ok(w, rest)
    decreases w, 0
  {
    hide Header, FromBytes;
    var tail := SerializeAll(w.payload) + rest;
    assert Serialize(w) + rest == Header(w) + w.body + tail;
    HeaderFields(w, tail);
    if w.kind == APPEND_ENTRIES {
      ReadsBackAll(w.payload, rest);
    } else {
      assert tail == rest;
    }
  }

  lemma {:induction false} ReadsBackAll(ws: seq<Wire>, rest: Bin)
    requires forall w | w in ws :: WellFormed(w)
    ensures ParseMany(SerializeAll(ws) + rest, |ws|) == OkMany(ws, rest)
    decreases ws, 0
  {
    hide WellFormed, Parse, Serialize;
    if ws == [] {
      assert SerializeAll(ws) + rest == rest;
    } else {
      var tail := SerializeAll(ws[1..]) + rest;
      assert SerializeAll(ws) + rest == Serialize(ws[0]) + tail;
      ReadsBack(ws[0], tail);
      ReadsBackAll(ws[1..], rest);
      assert [ws[0]] + ws[1..] == ws;
    }
  }

  /** What the reader accepts is a well-formed message exactly as the writer would have sent it. */
  lemma {:induction false} ReadWasWritten(s: Bin)
    requires Parse(s).Ok?
    ensures WellFormed(Parse(s).msg) && s == Serialize(Parse(s).msg) + Parse(s).rest
    decreases |s|, 0
  {
    hide FromBytes, ToBytes, Pow256;
    var len := FromBytes(s[4..8]);
    var w, rest := Parse(s).msg, Parse(s).rest;
    HeaderWritten(s);
    assert s[..8] + s[8..len] + s[len..] == s;
    if w.kind == APPEND_ENTRIES {
      ReadWasWrittenAll(s[len..], |w.payload|);
      assert Header(w) + w.body + (SerializeAll(w.payload) + rest) == Serialize(w) + rest;
    } else {
      assert Serialize(w) == Header(w) + w.body;
    }
  }

  lemma HeaderWritten(s: Bin)
    requires Parse(s).Ok?
    ensures var w := Parse(s).msg;
            && Header(w) == s[..8] && FromBytes(s[4..8]) == 8 + |w.body| <= |s|
            && w.body == s[8..8 + |w.body|] && w.kind < LIMIT32 && 8 + |w.body| < LIMIT32
  {
    hide FromBytes, ToBytes, Pow256, ParseMany;
    FieldSizes();
    FromBytesBound(s[..4]);
    FromBytesBound(s[4..8]);
    ToFromBytes(s[..4]);
    ToFromBytes(s[4..8]);
    assert s[..4] + s[4..8] == s[..8];
  }

  lemma {:induction false} ReadWasWrittenAll(s: Bin, n: nat)
    requires ParseMany(s, n).OkMany?
    ensures var r := ParseMany(s, n);
            (forall w | w in r.msgs :: WellFormed(w)) && s == SerializeAll(r.msgs) + r.rest
    decreases |s|, 1
  {
    hide WellFormed, Parse, Serialize;
    if n > 0 {
      ReadWasWritten(s);
      var w, rest := Parse(s).msg, Parse(s).rest;
      ReadWasWrittenAll(rest, n - 1);
      var tail := ParseMany(rest, n - 1);
      var ws := [w] + tail.msgs;
      assert ws[0] == w && ws[1..] == tail.msgs;
      assert Serialize(w) + (SerializeAll(tail.msgs) + tail.rest) == SerializeAll(ws) + tail.rest;
    }
  }

  /** Reader and writer are inverse on exactly the well-formed messages. */
  lemma ReadIffWritten(s: Bin, w: Wire, rest: Bin)
    ensures Parse(s) == Ok(w, rest) <==> WellFormed(w) && s == Serialize(w) + rest
  {
    hide WellFormed, Parse, Serialize;
    if Parse(s) == Ok(w, rest) { ReadWasWritten(s); }
    if WellFormed(w) { ReadsBack(w, rest); }
  }

  /** Any number of messages written one after the other is read back, and every byte consumed. */
  lemma StreamRoundTrip(ws: seq<Wire>)
    ensures ParseMany(SerializeAll(ws), |ws|) == OkMany(ws, []) <==> forall w | w in ws :: WellFormed(w)
  {
    hide WellFormed, ParseMany, SerializeAll;
    var s := SerializeAll(ws);
    if ParseMany(s, |ws|) == OkMany(ws, []) { ReadWasWrittenAll(s, |ws|); }
    if forall w | w in ws :: WellFormed(w) { ReadsBackAll(ws, []); assert s + [] == s; }
  }
}
