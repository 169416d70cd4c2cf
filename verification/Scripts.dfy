/**
 How a run may go on: a script says which endpoint does what, and what the clock
 shows.  A run on its own may read any clock at any step; a script whose clock
 only moves forward is one that the program can follow.
 */
module Scripts {
  import opened TwoEndpoints
  import opened Logs

  /** One event at one endpoint. */
  datatype Move = Move(atA: bool, ev: Event, now: nat)

  ghost function Apply(s: System, mv: Move): System {
    if mv.atA then s.(a := Step(s.a, s.b.conn.h.sent, mv.ev, mv.now))
    else s.(b := Step(s.b, s.a.conn.h.sent, mv.ev, mv.now))
  }

  /** The state after all the moves. */
  ghost function Play(s: System, ms: seq<Move>): System
    decreases |ms|
  {
    if ms == [] then s else Apply(Play(s, ms[..|ms| - 1]), ms[|ms| - 1])
  }

  /** The clock never shows less than `start` and never goes back. */
  predicate Clocked(ms: seq<Move>, start: nat) {
    && (forall k :: 0 <= k < |ms| ==> start <= ms[k].now)
    && (forall j, k :: 0 <= j <= k < |ms| ==> ms[j].now <= ms[k].now)
  }

  /** The side the data comes from (`a` if `dir`), and the other one. */
  function Src(dir: bool, s: System): Endpoint {
    if dir then s.a else s.b
  }

  function Dst(dir: bool, s: System): Endpoint {
    if dir then s.b else s.a
  }

  /** Nothing that was sent up to `s` is delivered any more: all of it is lost. */
  predicate Fresh(ms: seq<Move>, s: System) {
    forall k :: 0 <= k < |ms| && ms[k].ev.Deliver? ==> ms[k].ev.i >= |Dst(ms[k].atA, s).conn.h.sent|
  }

  // ---------------------------------------------------------------- scripts make runs

  lemma PlayMore(s: System, ms: seq<Move>, mv: Move)
    ensures Play(s, ms + [mv]) == Apply(Play(s, ms), mv)
  {
    assert (ms + [mv])[..|ms|] == ms;
  }

  lemma {:induction false} PlayThen(s: System, ms: seq<Move>, more: seq<Move>)
    ensures Play(s, ms + more) == Play(Play(s, ms), more)
    decreases |more|
  {
    if more == [] {
      assert ms + more == ms;
    } else {
      var n := |more| - 1;
      assert ms + more == ms + more[..n] + [more[n]];
      PlayMore(s, ms + more[..n], more[n]);
      PlayThen(s, ms, more[..n]);
    }
  }

  /** A move before a script. */
  lemma PlayAfter(s: System, mv: Move, ms: seq<Move>)
    requires Clocked(ms, mv.now)
    ensures Play(s, [mv] + ms) == Play(Apply(s, mv), ms) && Clocked([mv] + ms, mv.now)
  {
    PlayOne(s, mv);
    PlayThen(s, [mv], ms);
    ClockedAfter(mv, ms);
  }

  lemma PlayOne(s: System, mv: Move)
    ensures Play(s, [mv]) == Apply(s, mv)
  {
    PlayMore(s, [], mv);
    assert [] + [mv] == [mv];
  }

  lemma ClockedAfter(mv: Move, ms: seq<Move>)
    requires Clocked(ms, mv.now)
    ensures Clocked([mv] + ms, mv.now)
  {
  }

  lemma RunAppend(run: seq<System>, s: System)
    requires IsRun(run) && Next(Last(run), s)
    ensures IsRun(run + [s]) && Last(run + [s]) == s
  {
    var run' := run + [s];
    forall i: nat | i + 1 < |run'|
      ensures NextAt(run', i)
    {
      if i + 1 < |run| {
        assert NextAt(run, i);
      }
    }
  }

  lemma ApplyIsNext(s: System, mv: Move)
    ensures Next(s, Apply(s, mv))
  {
    if mv.atA {
      assert StepA(s, Apply(s, mv), mv.ev, mv.now);
    } else {
      assert StepB(s, Apply(s, mv), mv.ev, mv.now);
    }
  }

  /** The run with the states of the script appended. */
  ghost function Played(run: seq<System>, ms: seq<Move>): seq<System>
    requires run != []
    decreases |ms|
  {
    if ms == [] then run else Played(run, ms[..|ms| - 1]) + [Play(Last(run), ms)]
  }

  /** Playing a script goes on with the run. */
  lemma {:induction false} PlayedIsRun(run: seq<System>, ms: seq<Move>)
    requires IsRun(run)
    ensures IsRun(Played(run, ms)) && run <= Played(run, ms) && Last(Played(run, ms)) == Play(Last(run), ms)
    decreases |ms|
  {
    if ms != [] {
      var n := |ms| - 1;
      PlayedIsRun(run, ms[..n]);
      ApplyIsNext(Play(Last(run), ms[..n]), ms[n]);
      RunAppend(Played(run, ms[..n]), Play(Last(run), ms));
    }
  }

  // ---------------------------------------------------------------- logs grow

  /** Both sides exist, and nothing either has sent is forgotten. */
  predicate Later(s: System, s': System) {
    && s.a.life != Listening && s.b.life != Listening && s'.a.life != Listening && s'.b.life != Listening
    && s.a.conn.h.sent <= s'.a.conn.h.sent && s.b.conn.h.sent <= s'.b.conn.h.sent
  }

  lemma ApplyLater(s: System, mv: Move)
    requires s.a.life != Listening && s.b.life != Listening
    ensures Later(s, Apply(s, mv))
  {
    StepAcks(Src(mv.atA, s), Dst(mv.atA, s).conn.h.sent, mv.ev, mv.now);
  }

  lemma {:induction false} PlayLater(s: System, ms: seq<Move>)
    requires s.a.life != Listening && s.b.life != Listening
    ensures Later(s, Play(s, ms))
    decreases |ms|
  {
    if ms != [] {
      var n := |ms| - 1;
      PlayLater(s, ms[..n]);
      ApplyLater(Play(s, ms[..n]), ms[n]);
    }
  }

  // ---------------------------------------------------------------- journeys

  /** A run and the script played since, with the clock moving on from `start` to `now`. */
  datatype Journey = Journey(run: seq<System>, newOnly: bool, start: nat, ms: seq<Move>, now: nat)

  ghost predicate Valid(j: Journey) {
    && IsRun(j.run) && Later(Last(j.run), Play(Last(j.run), j.ms))
    && Clocked(j.ms, j.start) && j.start <= j.now && (forall k :: 0 <= k < |j.ms| ==> j.ms[k].now <= j.now)
    && (j.newOnly ==> Fresh(j.ms, Last(j.run)))
  }

  ghost function At(j: Journey): System
    requires Valid(j)
  {
    Play(Last(j.run), j.ms)
  }

  predicate Extends(j: Journey, j': Journey) {
    j' == j.(ms := j'.ms, now := j'.now) && j.ms <= j'.ms && j.now <= j'.now
  }

  /** What may be delivered next. */
  ghost predicate MayDeliver(j: Journey, atA: bool, ev: Event)
    requires Valid(j)
  {
    j.newOnly && ev.Deliver? ==> ev.i >= |Dst(atA, Last(j.run)).conn.h.sent|
  }

  lemma ClockMore(ms: seq<Move>, start: nat, mv: Move)
    requires Clocked(ms, start) && start <= mv.now && (forall k :: 0 <= k < |ms| ==> ms[k].now <= mv.now)
    ensures Clocked(ms + [mv], start) && (forall k :: 0 <= k < |ms + [mv]| ==> (ms + [mv])[k].now <= mv.now)
  {
  }

  lemma FreshMore(ms: seq<Move>, s: System, mv: Move)
    requires Fresh(ms, s) && (mv.ev.Deliver? ==> mv.ev.i >= |Dst(mv.atA, s).conn.h.sent|)
    ensures Fresh(ms + [mv], s)
  {
  }

  lemma Take(j: Journey, dir: bool, ev: Event, now: nat) returns (j': Journey)
    requires Valid(j) && now >= j.now && MayDeliver(j, dir, ev)
    ensures Valid(j') && Extends(j, j') && j'.now == now && j'.ms == j.ms + [Move(dir, ev, now)]
    ensures Src(dir, At(j')) == Step(Src(dir, At(j)), Dst(dir, At(j)).conn.h.sent, ev, now)
    ensures Dst(dir, At(j')) == Dst(dir, At(j))
  {
    var mv := Move(dir, ev, now);
    j' := j.(ms := j.ms + [mv], now := now);
    PlayMore(Last(j.run), j.ms, mv);
    ApplyLater(At(j), mv);
    ClockMore(j.ms, j.start, mv);
    if j.newOnly {
      FreshMore(j.ms, Last(j.run), mv);
    }
  }

  lemma Depart(run: seq<System>, newOnly: bool, start: nat) returns (j: Journey)
    requires IsRun(run) && Last(run).a.life != Listening && Last(run).b.life != Listening
    ensures Valid(j) && At(j) == Last(run) && j == Journey(run, newOnly, start, [], start)
  {
    j := Journey(run, newOnly, start, [], start);
  }
}
