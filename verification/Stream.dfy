/** TMessageWriter::Write and TMessageReader::Read of miniraft/net/server.cpp over one connection. */
module Stream {
  import opened Messages
  import opened Bytes
  import opened Framing

  lemma PrependTwice(a: seq<Wire>, b: seq<Wire>, r: ParsedMany)
    ensures Prepend(a, Prepend(b, r)) == Prepend(a + b, r)
  {
    if r.OkMany? { assert a + (b + r.msgs) == (a + b) + r.msgs; }
  }

  class Socket {
    var incoming: Bin  // not read yet
    var outgoing: Bin  // written so far

    constructor (incoming: Bin)
      ensures this.incoming == incoming && outgoing == []
    {
      this.incoming := incoming;
      outgoing := [];
    }

    /** Takes `n` bytes, or fails when the peer closed the connection before sending them. */
    method Take(n: nat) returns (ok: bool, bytes: Bin)
      modifies `incoming
      ensures ok <==> n <= |old(incoming)|
      ensures ok ==> bytes == old(incoming)[..n] && incoming == old(incoming)[n..]
      ensures !ok ==> incoming == []
    {
      if n <= |incoming| {
        ok, bytes := true, incoming[..n];
        incoming := incoming[n..];
      } else {
        ok, bytes := false, [];
        incoming := [];
      }
    }

    /** Writes the message, then its payload, each entry in the same way. */
    method WriteMessage(w: Wire)
      modifies `outgoing
      ensures outgoing == old(outgoing) + Serialize(w)
      decreases w
    {
      outgoing := outgoing + Header(w) + w.body;
      for i := 0 to |w.payload|
        invariant outgoing + SerializeAll(w.payload[i..]) == old(outgoing) + Serialize(w)
      {
        assert w.payload[i..][1..] == w.payload[i + 1..];
        WriteMessage(w.payload[i]);
      }
      assert outgoing + [] == outgoing;
    }

    /** Reads one message; false when the stream ends too early or a length is impossible. */
    method ReadMessage() returns (ok: bool, w: Wire)
      modifies `incoming
      ensures ok == Parse(old(incoming)).Ok? && |incoming| <= |old(incoming)|
      ensures ok ==> Parse(old(incoming)) == Ok(w, incoming)
      decreases |incoming|, 0
    {
      hide FromBytes, WellFormed, ParseMany;
      w := Wire(0, [], []);
      ghost var s := incoming;
      var typeField, lenField, body;
      ok, typeField := Take(4);
      if !ok { return; }
      ok, lenField := Take(4);
      if !ok { return; }
      assert s[..4] == typeField && s[4..8] == lenField;
      var kind, len := FromBytes(typeField), FromBytes(lenField);
      if len < 8 { return false, w; }
      ok, body := Take(len - 8);
      if !ok { return; }
      assert body == s[8..len] && incoming == s[len..];
      var payload: seq<Wire> := [];
      if kind == APPEND_ENTRIES {
        if |body| < NENTRIES + 4 { return false, w; }
        ok, payload := ReadPayload(FromBytes(body[NENTRIES..NENTRIES + 4]));
        if !ok { return; }
      }
      ok, w := true, Wire(kind, body, payload);
    }

    /** The messages that follow an AppendEntries request. */
    method ReadPayload(nentries: nat) returns (ok: bool, payload: seq<Wire>)
      modifies `incoming
      ensures ok == ParseMany(old(incoming), nentries).OkMany? && |incoming| <= |old(incoming)|
      ensures ok ==> ParseMany(old(incoming), nentries) == OkMany(payload, incoming)
      decreases |incoming|, 1
    {
      hide Parse, WellFormed;
      ok, payload := true, [];
      ghost var s := incoming;
      for i := 0 to nentries
        invariant ok && |payload| == i && |incoming| <= |s|
        invariant ParseMany(s, nentries) == Prepend(payload, ParseMany(incoming, nentries - i))
      {
        var entry;
        ok, entry := ReadMessage();
        if !ok { return; }
        PrependTwice(payload, [entry], ParseMany(incoming, nentries - i - 1));
        payload := payload + [entry];
      }
    }
  }
}
