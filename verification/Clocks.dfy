/** Clock readings along a run. The source reads std::chrono::steady_clock, which never goes back. */
module Clocks {
  import opened Protocol
  import opened Cluster

  /** The actions that come with a clock reading. */
  predicate Timed(a: Action) { a.Deliver? || a.Timeout? }

  /** The largest reading so far. */
  function Clock(acts: seq<Action>): nat {
    if acts == [] then 0
    else
      var last, before := acts[|acts| - 1], Clock(acts[..|acts| - 1]);
      if Timed(last) then Max(before, last.tick.now) else before
  }

  /** No clock reading is below an earlier one, of whatever server. */
  ghost predicate Steady(acts: seq<Action>) {
    forall i, j | 0 <= i < j < |acts| && Timed(acts[i]) && Timed(acts[j]) :: acts[i].tick.now <= acts[j].tick.now
  }

  /** The reading `now`, with deadlines drawn at their earliest. */
  function Now(now: nat): Tick { Tick(now, 0, 0) }

  /** `acts` goes on to `acts'` without clients and restarts, and no clock goes back. */
  ghost predicate Unfolds(acts: seq<Action>, acts': seq<Action>) {
    && acts <= acts' && (Steady(acts) ==> Steady(acts'))
    && forall x | |acts| <= x < |acts'| :: Timed(acts'[x])
  }

  lemma {:induction false} ClockBounds(acts: seq<Action>, i: nat)
    requires i < |acts| && Timed(acts[i])
    ensures acts[i].tick.now <= Clock(acts)
  {
    if i < |acts| - 1 { ClockBounds(acts[..|acts| - 1], i); }
  }

  /** An action whose reading is not below the clock keeps a run steady. */
  lemma SteadySnoc(acts: seq<Action>, act: Action)
    requires Timed(act) ==> act.tick.now >= Clock(acts)
    ensures Steady(acts) ==> Steady(acts + [act])
    ensures Clock(acts + [act]) == if Timed(act) then act.tick.now else Clock(acts)
  {
    var acts' := acts + [act];
    assert acts'[..|acts|] == acts;
    forall i | 0 <= i < |acts| && Timed(acts[i]) ensures acts[i].tick.now <= Clock(acts) { ClockBounds(acts, i); }
  }

  lemma UnfoldsSnoc(acts: seq<Action>, act: Action)
    requires Timed(act) && act.tick.now >= Clock(acts)
    ensures Unfolds(acts, acts + [act]) && Clock(acts + [act]) == act.tick.now
  {
    SteadySnoc(acts, act);
  }

  lemma UnfoldsTrans(a: seq<Action>, b: seq<Action>, c: seq<Action>)
    requires Unfolds(a, b) && Unfolds(b, c)
    ensures Unfolds(a, c)
  {
    hide Steady;
    forall x | |a| <= x < |c| ensures Timed(c[x]) {
      if x < |b| { assert c[x] == b[x]; }
    }
  }

  lemma UnfoldsRefl(acts: seq<Action>)
    ensures Unfolds(acts, acts)
  {
  }
}
