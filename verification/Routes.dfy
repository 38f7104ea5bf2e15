/** The two cookie maps of TRequestProcessor in miniraft/raft.cpp: how a command that was forwarded
    to the leader finds its way back to the client that sent it. */
module Routes {
  import opened Messages
  import P = Protocol

  type Client = nat

  const WRITE: nat := 1
  const STALE: nat := 2
  const CONSISTENT: nat := 4

  /** TCommandRequest: the flags are bits. */
  datatype Request = Request(flags: nat, cookie: nat, body: seq<byte>)

  /** Flag `bit` is set. */
  predicate Has(r: Request, bit: nat)
    requires bit != 0
  {
    r.flags / bit % 2 == 1
  }

  const COOKIES: nat := 0x1_0000_0000  // cookies are 32-bit

  /** The next cookie, and who waits for which. */
  datatype Routes = Routes(next: nat, owner: map<nat, Client>, cookies: map<Client, set<nat>>)

  datatype Event = Forward(client: Client) | Response(cookie: nat) | CleanUp(client: Client)

  const NO_ROUTES := Routes(1, map[], map[])

  /** The cookie written into the forwarded command. */
  function SentCookie(f: Routes): nat { P.Max(1, f.next) }

  function CookiesOf(f: Routes, r: Client): set<nat> { if r in f.cookies then f.cookies[r] else {} }

  function OnForward(f: Routes, r: Client): Routes {
    Routes((f.next + 1) % COOKIES, f.owner[f.next := r], f.cookies[r := CookiesOf(f, r) + {f.next}])
  }

  function OnResponse(f: Routes, c: nat): Routes {
    if c !in f.owner then f
    else
      var r := f.owner[c];
      var rest := CookiesOf(f, r) - {c};
      Routes(f.next, f.owner - {c}, if rest == {} then f.cookies - {r} else f.cookies[r := rest])
  }

  function OnCleanUp(f: Routes, r: Client): Routes {
    Routes(f.next, f.owner - CookiesOf(f, r), f.cookies - {r})
  }

  function OnEvent(f: Routes, e: Event): Routes {
    match e
    case Forward(r) => OnForward(f, r)
    case Response(c) => OnResponse(f, c)
    case CleanUp(r) => OnCleanUp(f, r)
  }

  function RoutesAfter(events: seq<Event>): Routes {
    if events == [] then NO_ROUTES
    else OnEvent(RoutesAfter(events[..|events| - 1]), events[|events| - 1])
  }

  function Forwards(events: seq<Event>): nat {
    if events == [] then 0
    else Forwards(events[..|events| - 1]) + (if events[|events| - 1].Forward? then 1 else 0)
  }

  /** The two maps are inverse to each other, and no client is kept without a cookie. */
  ghost predicate Inverse(f: Routes) {
    && (forall c: nat, r: Client :: c in f.owner && f.owner[c] == r <==> r in f.cookies && c in f.cookies[r])
    && (forall r | r in f.cookies :: f.cookies[r] != {})
  }

  /** Cookies in use are numbered below the next one. */
  ghost predicate Numbered(f: Routes) {
    forall c | c in f.owner :: 1 <= c < f.next
  }

  lemma ForwardKeeps(f: Routes, r: Client)
    requires Inverse(f) && Numbered(f) && 1 <= f.next < COOKIES
    ensures Inverse(OnForward(f, r))
    ensures f.next + 1 < COOKIES ==> Numbered(OnForward(f, r)) && OnForward(f, r).next == f.next + 1
  {
    assert f.next !in f.owner;
  }

  lemma ResponseKeeps(f: Routes, c: nat)
    requires Inverse(f) && Numbered(f)
    ensures Inverse(OnResponse(f, c)) && Numbered(OnResponse(f, c))
  {
    if c in f.owner {
      var f' := OnResponse(f, c);
      forall d: nat, s: Client
        ensures d in f'.owner && f'.owner[d] == s <==> s in f'.cookies && d in f'.cookies[s]
      {
        assert d in f.owner && f.owner[d] == s <==> s in f.cookies && d in f.cookies[s];
      }
    }
  }

  lemma CleanUpKeeps(f: Routes, r: Client)
    requires Inverse(f) && Numbered(f)
    ensures Inverse(OnCleanUp(f, r)) && Numbered(OnCleanUp(f, r))
  {
    var f' := OnCleanUp(f, r);
    forall d: nat, s: Client
      ensures d in f'.owner && f'.owner[d] == s <==> s in f'.cookies && d in f'.cookies[s]
    {
      assert d in f.owner && f.owner[d] == s <==> s in f.cookies && d in f.cookies[s];
      assert d in f.owner && f.owner[d] == r <==> r in f.cookies && d in f.cookies[r];
    }
  }

  /** Over every interleaving with fewer than 2^32 - 1 forwards the two maps stay inverse, and
      every forward gets a cookie of its own. */
  lemma {:induction false} RoutesStayInverse(events: seq<Event>)
    requires Forwards(events) < COOKIES - 1
    ensures var f := RoutesAfter(events);
            Inverse(f) && Numbered(f) && f.next == 1 + Forwards(events)
  {
    if events != [] {
      var n := |events| - 1;
      RoutesStayInverse(events[..n]);
      var f := RoutesAfter(events[..n]);
      match events[n]
      case Forward(r) => ForwardKeeps(f, r);
      case Response(c) => ResponseKeeps(f, c);
      case CleanUp(r) => CleanUpKeeps(f, r);
    }
  }

  /** The answer to a forward undoes it, whatever the client had open before, exactly until the
      counter has wrapped to 0: then the command carries cookie 1 while its client is recorded
      under 0. */
  lemma AnswerUndoesForwardIff(f: Routes, r: Client)
    requires Inverse(f) && f.next !in f.owner
    ensures var g := OnResponse(OnForward(f, r), SentCookie(f));
            g.owner == f.owner && g.cookies == f.cookies <==> f.next != 0
  {
    var mid := OnForward(f, r);
    var g := OnResponse(mid, SentCookie(f));
    assert r in f.cookies ==> f.next !in f.cookies[r];
    if f.next != 0 {
      assert CookiesOf(mid, r) - {f.next} == CookiesOf(f, r);
      assert g.owner == f.owner;
      assert g.cookies == f.cookies;
    } else {
      assert 0 in g.owner;
    }
  }

  /** Event `j` is a response that is passed on to `r`. */
  ghost predicate Answers(events: seq<Event>, j: nat, r: Client) {
    j < |events| && events[j].Response?
    && var f := RoutesAfter(events[..j]);
       events[j].cookie in f.owner && f.owner[events[j].cookie] == r
  }

  /** Event `i` forwards a command of `r` under cookie `c`. */
  ghost predicate Forwarded(events: seq<Event>, i: nat, r: Client, c: nat) {
    i < |events| && events[i] == Forward(r) && SentCookie(RoutesAfter(events[..i])) == c
  }

  /** Between `i` and `j` the cookie was neither answered nor its client cleaned up. */
  ghost predicate StillOpen(events: seq<Event>, i: nat, j: nat, r: Client, c: nat)
    requires j <= |events|
  {
    forall k | i < k < j :: events[k] != Response(c) && events[k] != CleanUp(r)
  }

  /** An owned cookie goes back to one forward of its owner, open since. */
  lemma {:induction false} OwnedSince(events: seq<Event>, c: nat, r: Client) returns (i: nat)
    requires Forwards(events) < COOKIES - 1
    requires c in RoutesAfter(events).owner && RoutesAfter(events).owner[c] == r
    ensures Forwarded(events, i, r, c) && StillOpen(events, i, |events|, r, c)
  {
    var n := |events| - 1;
    var prefix := events[..n];
    var f := RoutesAfter(prefix);
    RoutesStayInverse(prefix);
    if events[n].Forward? && f.next == c {
      i := n;
    } else {
      assert c in f.owner && f.owner[c] == r;
      i := OwnedSince(prefix, c, r);
      assert prefix[..i] == events[..i];
      assert events[n] != Response(c);
      assert events[n] != CleanUp(r) by {
        assert c in f.owner && f.owner[c] == r <==> r in f.cookies && c in f.cookies[r];
      }
      forall k | i < k < n + 1 ensures events[k] != Response(c) && events[k] != CleanUp(r) {
        if k < n { assert events[k] == prefix[k]; }
      }
    }
  }

  lemma {:induction false} ForwardsOfPrefix(events: seq<Event>, i: nat)
    requires i <= |events|
    ensures Forwards(events[..i]) <= Forwards(events)
    ensures i < |events| && events[i].Forward? ==> Forwards(events[..i]) < Forwards(events)
  {
    if i == |events| {
      assert events[..i] == events;
    } else {
      var n := |events| - 1;
      if i < n { ForwardsOfPrefix(events[..n], i); }
      assert events[..n][..i] == events[..i];
    }
  }

  lemma FewerForwardsBefore(events: seq<Event>, i: nat, i': nat)
    requires i < i' <= |events| && events[i].Forward?
    ensures Forwards(events[..i]) < Forwards(events[..i'])
  {
    ForwardsOfPrefix(events[..i'], i);
    assert events[..i'][..i] == events[..i] && events[..i'][i] == events[i];
  }

  /** An answer reaches the client whose command was forwarded under its cookie, only if that
      client has not been cleaned up since, and only once. */
  lemma AnswerGoesToItsClient(events: seq<Event>, j: nat, r: Client) returns (i: nat)
    requires Forwards(events) < COOKIES - 1 && Answers(events, j, r)
    ensures i < j && Forwarded(events, i, r, events[j].cookie) && StillOpen(events, i, j, r, events[j].cookie)
  {
    ForwardsOfPrefix(events, j);
    i := OwnedSince(events[..j], events[j].cookie, r);
    assert events[..j][..i] == events[..i];
    forall k | i < k < j ensures events[k] != Response(events[j].cookie) && events[k] != CleanUp(r) {
      assert events[..j][k] == events[k];
    }
  }

  /** What was forwarded and is still open belongs to its client. */
  lemma {:induction false} OpenIsOwned(events: seq<Event>, i: nat, k: nat, r: Client, c: nat)
    requires Forwards(events) < COOKIES - 1 && i < k <= |events|
    requires Forwarded(events, i, r, c) && StillOpen(events, i, k, r, c)
    ensures var f := RoutesAfter(events[..k]); c in f.owner && f.owner[c] == r
    decreases k
  {
    var f := RoutesAfter(events[..k - 1]);
    assert events[..k][..k - 1] == events[..k - 1];
    ForwardsOfPrefix(events, k - 1);
    RoutesStayInverse(events[..k - 1]);
    hide OnEvent, Forwards, Inverse, Numbered;
    if k - 1 > i {
      OpenIsOwned(events, i, k - 1, r, c);
      OthersStayOwned(f, events[k - 1], r, c);
    } else {
      NowOwned(f, r);
    }
  }

  lemma NowOwned(f: Routes, r: Client)
    requires f.next >= 1
    ensures var f' := OnEvent(f, Forward(r)); SentCookie(f) in f'.owner && f'.owner[SentCookie(f)] == r
  {
  }

  lemma OthersStayOwned(f: Routes, e: Event, r: Client, c: nat)
    requires Inverse(f) && Numbered(f) && c in f.owner && f.owner[c] == r && e != Response(c) && e != CleanUp(r)
    ensures c in OnEvent(f, e).owner && OnEvent(f, e).owner[c] == r
  {
    assert forall s: Client :: f.owner[c] == s <==> s in f.cookies && c in f.cookies[s];
  }

  /** An answer is passed on to `r` exactly when a command of `r` was forwarded under its cookie and
      neither answered nor given up since. */
  lemma AnswersIff(events: seq<Event>, j: nat, r: Client)
    requires Forwards(events) < COOKIES - 1 && j < |events| && events[j].Response?
    ensures Answers(events, j, r) <==>
            exists i | 0 <= i < j ::
              Forwarded(events, i, r, events[j].cookie) && StillOpen(events, i, j, r, events[j].cookie)
  {
    if Answers(events, j, r) {
      var i := AnswerGoesToItsClient(events, j, r);
    } else if i :| 0 <= i < j && Forwarded(events, i, r, events[j].cookie) && StillOpen(events, i, j, r, events[j].cookie) {
      OpenIsOwned(events, i, j, r, events[j].cookie);
    }
  }

  /** No two forwards share a cookie. */
  lemma CookiesDiffer(events: seq<Event>, i: nat, i': nat, r: Client, r': Client, c: nat)
    requires Forwards(events) < COOKIES - 1
    requires Forwarded(events, i, r, c) && Forwarded(events, i', r', c) && i <= i'
    ensures i == i'
  {
    ForwardsOfPrefix(events, i);
    ForwardsOfPrefix(events, i');
    RoutesStayInverse(events[..i]);
    RoutesStayInverse(events[..i']);
    if i < i' { FewerForwardsBefore(events, i, i'); }
  }

  /** A forwarded command is answered at most once. */
  lemma AnsweredAtMostOnce(events: seq<Event>, j: nat, j': nat, r: Client, r': Client)
    requires Forwards(events) < COOKIES - 1 && j <= j'
    requires Answers(events, j, r) && Answers(events, j', r') && events[j].cookie == events[j'].cookie
    ensures j == j'
  {
    var i := AnswerGoesToItsClient(events, j, r);
    var i' := AnswerGoesToItsClient(events, j', r');
    if i <= i' {
      CookiesDiffer(events, i, i', r, r', events[j].cookie);
    } else {
      CookiesDiffer(events, i', i, r', r, events[j].cookie);
    }
  }

  // --- Forwarding one command -----------------------------------------------------------------

  /** What leaves the processor for a client or for the leader. */
  datatype Outgoing =
    | Refused(client: Client, cookie: nat)
    | ToLeader(leader: nat, request: Request)
    | Passed(client: Client, cookie: nat)

  /** The routes after a command, what is sent, and what waits for a leader to be known. */
  datatype Hop = Hop(routes: Routes, sent: seq<Outgoing>, parked: seq<(Request, Client)>)

  /** A command that already carries a cookie is refused. Without a known leader it waits; otherwise
      it goes to the leader under a new cookie. */
  function ForwardHop(f: Routes, candidate: bool, leader: nat, cmd: Request, client: Client): Hop {
    if cmd.cookie != 0 then Hop(f, [Refused(client, cmd.cookie)], [])
    else if candidate || leader == 0 then Hop(f, [], [(cmd, client)])
    else Hop(OnForward(f, client), [ToLeader(leader, cmd.(cookie := SentCookie(f)))], [])
  }

  /** Every command has exactly one of three fates. With a cookie of its own it is refused to the one who
      sent it. Without one it waits, as it came and with its client, while no leader is known, and
      else goes to that leader and nowhere else. */
  lemma HopFates(f: Routes, candidate: bool, leader: nat, cmd: Request, client: Client)
    ensures var hop := ForwardHop(f, candidate, leader, cmd, client);
            && |hop.sent| + |hop.parked| == 1
            && (hop.sent == [Refused(client, cmd.cookie)] <==> cmd.cookie != 0)
            && (hop.parked == [(cmd, client)] <==> cmd.cookie == 0 && (candidate || leader == 0))
            && ((exists r :: hop.sent == [ToLeader(leader, r)]) <==> cmd.cookie == 0 && !candidate && leader != 0)
            && (hop.routes != f ==> |hop.sent| == 1 && hop.sent[0].ToLeader?)
  {
    var hop := ForwardHop(f, candidate, leader, cmd, client);
    if cmd.cookie == 0 && !candidate && leader != 0 {
      assert hop.sent == [ToLeader(leader, cmd.(cookie := SentCookie(f)))];
    }
  }

  /** Commands that waited for a leader are forwarded in their order. */
  function ForwardAll(f: Routes, leader: nat, parked: seq<(Request, Client)>): Hop {
    if parked == [] then Hop(f, [], [])
    else
      var n := |parked| - 1;
      var before := ForwardAll(f, leader, parked[..n]);
      var last := ForwardHop(before.routes, false, leader, parked[n].0, parked[n].1);
      Hop(last.routes, before.sent + last.sent, before.parked + last.parked)
  }

  lemma ForwardAllNone(f: Routes, leader: nat)
    ensures ForwardAll(f, leader, []) == Hop(f, [], [])
  {
  }

  lemma ForwardAllStep(f: Routes, leader: nat, parked: seq<(Request, Client)>, k: nat)
    requires k < |parked|
    ensures var before, after := ForwardAll(f, leader, parked[..k]), ForwardAll(f, leader, parked[..k + 1]);
            var last := ForwardHop(before.routes, false, leader, parked[k].0, parked[k].1);
            after.routes == last.routes && after.sent == before.sent + last.sent
  {
    assert parked[..k + 1][..k] == parked[..k];
  }

  /** All of them, each once, to the leader, with flags and body, and none is left waiting. */
  lemma {:induction false} AllForwarded(f: Routes, leader: nat, parked: seq<(Request, Client)>)
    requires leader != 0 && forall p | p in parked :: p.0.cookie == 0
    ensures var hop := ForwardAll(f, leader, parked);
            && hop.parked == [] && |hop.sent| == |parked|
            && forall k | 0 <= k < |parked| ::
                 && hop.sent[k].ToLeader? && hop.sent[k].leader == leader
                 && hop.sent[k].request == parked[k].0.(cookie := hop.sent[k].request.cookie)
                 && hop.sent[k].request.cookie != 0
  {
    if parked != [] {
      var n := |parked| - 1;
      AllForwarded(f, leader, parked[..n]);
      assert parked[n] in parked;
    }
  }

  /** A command that goes to the leader keeps its flags and body and gets a cookie; whatever happens
      afterwards, the answer under that cookie is passed on to its client, unless it has been
      already or the client has gone. */
  lemma ForwardComesBack(events: seq<Event>, leader: nat, cmd: Request, client: Client) returns (c: nat)
    requires Forwards(events) < COOKIES - 2 && leader != 0 && cmd.cookie == 0
    ensures var hop := ForwardHop(RoutesAfter(events), false, leader, cmd, client);
            && c != 0 && hop.sent == [ToLeader(leader, Request(cmd.flags, c, cmd.body))]
            && hop.routes == RoutesAfter(events + [Forward(client)])
    ensures forall later: seq<Event> {:trigger Comes(events, client, later, c)} |
              Forwards(Comes(events, client, later, c)) < COOKIES - 1
              && (forall k | 0 <= k < |later| :: later[k] != Response(c) && later[k] != CleanUp(client)) ::
              Answers(Comes(events, client, later, c), |events| + 1 + |later|, client)
  {
    var f := RoutesAfter(events);
    RoutesStayInverse(events);
    c := SentCookie(f);
    assert (events + [Forward(client)])[..|events|] == events;
    forall later: seq<Event> | Forwards(Comes(events, client, later, c)) < COOKIES - 1
              && (forall k | 0 <= k < |later| :: later[k] != Response(c) && later[k] != CleanUp(client))
      ensures Answers(Comes(events, client, later, c), |events| + 1 + |later|, client)
    {
      var all := Comes(events, client, later, c);
      assert all[..|events|] == events;
      forall k | |events| < k < |all| - 1 ensures all[k] != Response(c) && all[k] != CleanUp(client) {
        assert all[k] == later[k - |events| - 1];
      }
      OpenIsOwned(all, |events|, |all| - 1, client, c);
    }
  }

  /** A forward, what comes later, and the answer. */
  function Comes(events: seq<Event>, client: Client, later: seq<Event>, c: nat): seq<Event> {
    events + [Forward(client)] + later + [Response(c)]
  }

  /** A forwarded command makes no second hop: any server that would forward it refuses it. */
  lemma NoSecondHop(f: Routes, candidate: bool, leader: nat, cmd: Request, client: Client,
                    g: Routes, candidate': bool, leader': nat, from: Client)
    ensures forall l, r | ToLeader(l, r) in ForwardHop(f, candidate, leader, cmd, client).sent ::
              ForwardHop(g, candidate', leader', r, from) == Hop(g, [Refused(from, r.cookie)], [])
              && r.body == cmd.body && r.flags == cmd.flags
  {
    forall l, r | ToLeader(l, r) in ForwardHop(f, candidate, leader, cmd, client).sent ensures r.cookie >= 1 {}
  }
}
