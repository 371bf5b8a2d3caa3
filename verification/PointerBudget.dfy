/** The number of attempts `move_cursor_to` makes by default (src/wayland_vnc/android_viewer.py): enough, and no more
    than enough, for a viewer that starts with its first gains to cross the screen on any linear pointer. */
module PointerBudget {
  import opened Results
  import opened Rounding
  import opened Pointer

  // ----- a linear pointer without its swipes

  /** What is left of the way after one attempt from `delta`. */
  function After(delta: Point, gains: Gains, truth: Gains): Point
    requires InRange(gains)
  {
    Rest(delta, NetMove(delta, gains), truth.Of(SpeedFor(delta)))
  }

  function Taught(delta: Point, gains: Gains, truth: Gains): (taught: Gains)
    requires InRange(gains) && InRange(truth)
    ensures InRange(taught)
  {
    gains.With(SpeedFor(delta), truth.Of(SpeedFor(delta)))
  }

  /** The loop told by the way that is left and the gains alone. */
  predicate Places(delta: Point, gains: Gains, truth: Gains, attempts: nat)
    requires InRange(gains) && InRange(truth)
    decreases attempts
  {
    || Norm(delta) <= TOLERANCE_PX
    || (0 < attempts && Places(After(delta, gains, truth), Taught(delta, gains, truth), truth, attempts - 1))
  }

  /** Whether the loop places a linear pointer depends on nothing else. */
  lemma {:induction false} RunPlaces(h: Hand, origin: Point, truth: Gains, target: Point, attempts: nat)
    requires InRange(h.gains) && InRange(truth)
    ensures Run(h, LinearWorld(origin, truth), target, attempts).1 <==>
      Places(Left(h, origin, truth, target), h.gains, truth, attempts)
    decreases attempts
  {
    var delta := Left(h, origin, truth, target);
    if Norm(delta) <= TOLERANCE_PX {
      ArrivedRun(h, origin, truth, target, attempts);
    } else if attempts == 0 {
      assert !Places(delta, h.gains, truth, 0);
    } else {
      var after := Attempt(h, LinearWorld(origin, truth), target).0;
      LinearAttempt(h, origin, truth, target);
      RunGoesOn(h, LinearWorld(origin, truth), target, attempts);
      RunPlaces(after, origin, truth, target, attempts - 1);
      PlacesNext(delta, h.gains, truth, attempts);
    }
  }

  lemma PlacesNext(delta: Point, gains: Gains, truth: Gains, attempts: nat)
    requires InRange(gains) && InRange(truth) && 0 < attempts && TOLERANCE_PX < Norm(delta)
    ensures Places(delta, gains, truth, attempts) <==>
      Places(After(delta, gains, truth), Taught(delta, gains, truth), truth, attempts - 1)
  {
  }

  // ----- how far is left

  /** The length of `k` swipes. */
  function Span(swipe: real, k: nat): real {
    if k == 0 then 0.0 else Span(swipe, k - 1) + swipe
  }

  lemma {:induction false} SpanIs(swipe: real, k: nat)
    ensures Span(swipe, k) == swipe * k as real
  {
    if k == 0 {
    } else {
      SpanIs(swipe, k - 1);
      Distributed(swipe, (k - 1) as real, 1.0);
    }
  }

  lemma {:induction false} SpanPositive(swipe: real, k: nat)
    requires 0.0 <= swipe
    ensures 0.0 <= Span(swipe, k)
  {
    if k == 0 {
    } else {
      SpanPositive(swipe, k - 1);
    }
  }

  predicate AxisWithin(d: real, swipe: real, k: nat, slack: real) {
    Abs(d) <= slack + Span(swipe, k)
  }

  /** Within the move of `k` full fast swipes and a little more. */
  predicate Within(delta: Point, fast: real, k: nat, slack: real) {
    AxisWithin(delta.x, Times(fast, REACH_X), k, slack) && AxisWithin(delta.y, Times(fast, REACH_Y), k, slack)
  }

  predicate OnScreen(delta: Point) {
    Abs(delta.x) <= 1920.0 && Abs(delta.y) <= 1080.0
  }

  lemma WithinNone(delta: Point, fast: real, slack: real)
    ensures Within(delta, fast, 0, slack) <==> Norm(delta) <= slack
  {
  }

  lemma SlackMore(delta: Point, fast: real, k: nat)
    requires Within(delta, fast, k, 8.0)
    ensures Within(delta, fast, k, FAST_ABOVE_PX)
  {
  }

  /** Where a slow miss can lead. */
  lemma MissReach(delta: Point, fast: real)
    requires GAIN_MIN <= fast && Norm(delta) <= 686.0
    ensures Within(delta, fast, 5, FAST_ABOVE_PX)
  {
    SpanIs(Times(fast, REACH_X), 5);
    SpanIs(Times(fast, REACH_Y), 5);
  }

  // ----- one attempt with a known gain

  lemma AxisNearer(d: real, fast: real, limit: int, k: nat, slack: real)
    requires GAIN_MIN <= fast <= GAIN_MAX && 0 < limit && 0 < k && 2.0 <= slack
    requires AxisWithin(d, Times(fast, limit), k, slack)
    ensures AxisWithin(AxisRest(d, fast, limit), Times(fast, limit), k - 1, slack)
  {
    AxisStep(d, fast, limit);
    TimesMonotone(fast, 0, limit);
    SpanPositive(Times(fast, limit), k - 1);
  }

  /** A fast attempt with the true gain is a full swipe nearer on every axis that is still far. */
  lemma FastNearer(delta: Point, gains: Gains, truth: Gains, k: nat, slack: real)
    requires InRange(gains) && InRange(truth) && gains.fast == truth.fast && 2.0 <= slack <= FAST_ABOVE_PX
    requires FAST_ABOVE_PX < Norm(delta) && Within(delta, truth.fast, k, slack)
    ensures 0 < k && Taught(delta, gains, truth) == gains
    ensures Within(After(delta, gains, truth), truth.fast, k - 1, slack)
  {
    if k == 0 {
      WithinNone(delta, truth.fast, slack);
    }
    KnownRest(delta, gains, truth);
    AxisNearer(delta.x, truth.fast, REACH_X, k, slack);
    AxisNearer(delta.y, truth.fast, REACH_Y, k, slack);
  }

  /** A slow attempt with the true gain arrives. */
  lemma SlowArrives(delta: Point, gains: Gains, truth: Gains)
    requires InRange(gains) && InRange(truth) && gains.slow == truth.slow
    requires TOLERANCE_PX < Norm(delta) <= FAST_ABOVE_PX
    ensures Norm(After(delta, gains, truth)) <= TOLERANCE_PX
  {
    KnownRest(delta, gains, truth);
  }

  // ----- one attempt with the first gain

  lemma TimesGain(gain: real, more: real, n: nat)
    requires gain <= more
    ensures Times(gain, n) <= Times(more, n)
  {
    Monotone(n as real, gain, more);
  }

  lemma SignKept(d: real, n: int, gain: real)
    requires gain > 0.0 && (d >= 0.0 ==> n >= 0) && (d <= 0.0 ==> n <= 0)
    ensures (d >= 0.0 ==> Times(gain, n) >= 0.0) && (d <= 0.0 ==> Times(gain, n) <= 0.0)
  {
    if n >= 0 {
      TimesMonotone(gain, 0, n);
    } else {
      TimesMonotone(gain, n, 0);
    }
  }

  /** A move in the right direction is short by no more than the way, or over by what it has too much. */
  lemma SameSide(d: real, moved: real)
    requires (d >= 0.0 ==> moved >= 0.0) && (d <= 0.0 ==> moved <= 0.0)
    ensures Abs(d - moved) <= Abs(d) || Abs(d - moved) == Abs(moved) - Abs(d)
  {
  }

  lemma AxisSlowFirst(d: real, slow: real)
    requires GAIN_MIN <= slow <= GAIN_MAX
    ensures Abs(d - Times(slow, Round(d / 0.6))) <= 5.7 * Abs(d) + 2.0
  {
    var n := Round(d / 0.6);
    assert AbsInt(n) as real <= Abs(d) / 0.6 + 0.5;
    TimesAbs(slow, n);
    TimesGain(slow, GAIN_MAX, AbsInt(n));
    assert Times(GAIN_MAX, AbsInt(n)) == 4.0 * AbsInt(n) as real;
    SignKept(d, n, slow);
    SameSide(d, Times(slow, n));
  }

  /** A slow attempt with the first slow gain leaves less than six times the way. */
  lemma SlowFirst(delta: Point, gains: Gains, truth: Gains)
    requires InRange(gains) && InRange(truth) && gains.slow == FIRST_GAINS.slow
    requires TOLERANCE_PX < Norm(delta) <= FAST_ABOVE_PX
    ensures Taught(delta, gains, truth) == Gains(gains.fast, truth.slow)
    ensures Norm(After(delta, gains, truth)) <= 5.7 * Norm(delta) + 2.0
  {
    AxisSlowFirst(delta.x, truth.slow);
    AxisSlowFirst(delta.y, truth.slow);
    SlowNet(delta, gains);
    NormOfRest(delta, NetMove(delta, gains), truth.slow, 5.7 * Norm(delta) + 2.0);
  }

  lemma SlowNet(delta: Point, gains: Gains)
    requires InRange(gains) && gains.slow == FIRST_GAINS.slow && Norm(delta) <= FAST_ABOVE_PX
    ensures NetMove(delta, gains) == Delta(Round(delta.x / 0.6), Round(delta.y / 0.6))
  {
    assert SpeedFor(delta) == Slow && gains.Of(SpeedFor(delta)) == 0.6;
  }

  lemma NormOfRest(delta: Point, net: Delta, gain: real, bound: real)
    requires Abs(delta.x - Times(gain, net.x)) <= bound && Abs(delta.y - Times(gain, net.y)) <= bound
    ensures Norm(Rest(delta, net, gain)) <= bound
  {
  }

  lemma AxisFastFirst(d: real, fast: real, limit: int)
    requires GAIN_MIN <= fast <= GAIN_MAX
    requires (limit == REACH_X && Abs(d) <= 1920.0) || (limit == REACH_Y && Abs(d) <= 1080.0)
    ensures AxisWithin(d - Times(fast, Clamp(Round(d / 1.2), limit)), Times(fast, limit), 7, 8.0)
  {
    var n := Clamp(Round(d / 1.2), limit);
    SignKept(d, n, fast);
    SameSide(d, Times(fast, n));
    TimesAbs(fast, n);
    TimesMonotone(fast, AbsInt(n), limit);
    SpanIs(Times(fast, limit), 7);
    TimesGain(GAIN_MIN, fast, limit);
    assert Times(GAIN_MIN, limit) == 0.2 * limit as real;
    if limit == REACH_Y && Abs(d) > 946.0 {
      assert AbsInt(n) == limit;
    }
  }

  /** A fast attempt with the first fast gain, from anywhere on the screen, leaves no more than seven full swipes
      and eight pixels. */
  lemma FastFirst(delta: Point, gains: Gains, truth: Gains)
    requires InRange(gains) && InRange(truth) && gains.fast == FIRST_GAINS.fast
    requires OnScreen(delta) && FAST_ABOVE_PX < Norm(delta)
    ensures Taught(delta, gains, truth) == Gains(truth.fast, gains.slow)
    ensures Within(After(delta, gains, truth), truth.fast, 7, 8.0)
  {
    FastNet(delta, gains);
    AxisFastFirst(delta.x, truth.fast, REACH_X);
    AxisFastFirst(delta.y, truth.fast, REACH_Y);
  }

  lemma FastNet(delta: Point, gains: Gains)
    requires InRange(gains) && gains.fast == FIRST_GAINS.fast && FAST_ABOVE_PX < Norm(delta)
    ensures NetMove(delta, gains) == Delta(Clamp(Round(delta.x / 1.2), REACH_X), Clamp(Round(delta.y / 1.2), REACH_Y))
  {
    assert SpeedFor(delta) == Fast && gains.Of(SpeedFor(delta)) == 1.2;
    assert WantedFor(delta, 1.2) == Delta(Round(delta.x / 1.2), Round(delta.y / 1.2));
  }

  // ----- the loop

  /** With both gains known: an attempt for every full swipe of the way beyond what a slow one reaches, and that one. */
  lemma {:induction false} KnownArrives(delta: Point, truth: Gains, k: nat, attempts: nat)
    requires InRange(truth) && k < attempts && Within(delta, truth.fast, k, FAST_ABOVE_PX)
    ensures Places(delta, truth, truth, attempts)
    decreases attempts
  {
    if TOLERANCE_PX < Norm(delta) {
      PlacesNext(delta, truth, truth, attempts);
      if Norm(delta) <= FAST_ABOVE_PX {
        SlowArrives(delta, truth, truth);
      } else {
        FastNearer(delta, truth, truth, k, FAST_ABOVE_PX);
        KnownArrives(After(delta, truth, truth), truth, k - 1, attempts - 1);
      }
    }
  }

  /** With the fast gain known: seven attempts from where a slow one is first made, and one for every full swipe
      before it; from within eight pixels two. */
  lemma {:induction false} FastKnownArrives(delta: Point, truth: Gains, k: nat, attempts: nat)
    requires InRange(truth) && attempts >= (if k == 0 then 2 else k + 6)
    requires Within(delta, truth.fast, k, 8.0)
    ensures Places(delta, Gains(truth.fast, FIRST_GAINS.slow), truth, attempts)
    decreases attempts
  {
    var gains := Gains(truth.fast, FIRST_GAINS.slow);
    if TOLERANCE_PX < Norm(delta) {
      PlacesNext(delta, gains, truth, attempts);
      if FAST_ABOVE_PX < Norm(delta) {
        FastNearer(delta, gains, truth, k, 8.0);
        FastKnownArrives(After(delta, gains, truth), truth, k - 1, attempts - 1);
      } else {
        SlowFirst(delta, gains, truth);
        SlowMissArrives(delta, After(delta, gains, truth), truth, k, attempts - 1);
      }
    }
  }

  lemma SlowMissArrives(delta: Point, after: Point, truth: Gains, k: nat, attempts: nat)
    requires InRange(truth) && attempts >= (if k == 0 then 1 else 6)
    requires Within(delta, truth.fast, k, 8.0) && Norm(delta) <= FAST_ABOVE_PX
    requires Norm(after) <= 5.7 * Norm(delta) + 2.0
    ensures Places(after, truth, truth, attempts)
  {
    if k == 0 {
      WithinNone(delta, truth.fast, 8.0);
      WithinNone(after, truth.fast, FAST_ABOVE_PX);
      KnownArrives(after, truth, 0, attempts);
    } else {
      MissReach(after, truth.fast);
      KnownArrives(after, truth, 5, attempts);
    }
  }

  /** With the slow gain known and the fast one still the first, from anywhere a slow miss can lead. */
  lemma SlowKnownArrives(delta: Point, truth: Gains, attempts: nat)
    requires InRange(truth) && attempts >= 9 && Norm(delta) <= 686.0
    ensures Places(delta, Gains(FIRST_GAINS.fast, truth.slow), truth, attempts)
  {
    var gains := Gains(FIRST_GAINS.fast, truth.slow);
    if TOLERANCE_PX < Norm(delta) {
      PlacesNext(delta, gains, truth, attempts);
      if FAST_ABOVE_PX < Norm(delta) {
        FastFirst(delta, gains, truth);
        SlackMore(After(delta, gains, truth), truth.fast, 7);
        KnownArrives(After(delta, gains, truth), truth, 7, attempts - 1);
      } else {
        SlowArrives(delta, gains, truth);
      }
    }
  }

  lemma FirstPlaces(delta: Point, truth: Gains, attempts: nat)
    requires InRange(truth) && ATTEMPTS <= attempts && OnScreen(delta)
    ensures Places(delta, FIRST_GAINS, truth, attempts)
  {
    if TOLERANCE_PX < Norm(delta) {
      PlacesNext(delta, FIRST_GAINS, truth, attempts);
      var after := After(delta, FIRST_GAINS, truth);
      if FAST_ABOVE_PX < Norm(delta) {
        FastFirst(delta, FIRST_GAINS, truth);
        FastKnownArrives(after, truth, 7, attempts - 1);
      } else {
        SlowFirst(delta, FIRST_GAINS, truth);
        SlowKnownArrives(after, truth, attempts - 1);
      }
    }
  }

  /** A viewer with its first gains places the pointer anywhere on a 1920x1080 screen, whatever the true gains are
      within their bounds, in the attempts it makes by default. */
  lemma FirstGainsArrive(h: Hand, origin: Point, truth: Gains, target: Point, attempts: nat)
    requires 0.2 <= truth.fast <= 4.0 && 0.2 <= truth.slow <= 4.0
    requires h.gains == Gains(1.2, 0.6) && 14 <= attempts
    requires OnScreen(Left(h, origin, truth, target))
    ensures Run(h, LinearWorld(origin, truth), target, attempts).1
  {
    FirstPlaces(Left(h, origin, truth, target), truth, attempts);
    RunPlaces(h, origin, truth, target, attempts);
  }

  // ----- no fewer are enough

  const SLUGGISH := Gains(0.2, 4.0)

  function Down(y: real): Point {
    Point(0.0, y)
  }

  /** Toward nothing left. */
  function Nearer(y: real, way: real): real {
    if y > 0.0 then y - way else y + way
  }

  /** A full swipe: 670 pixels at a gain of 0.2. */
  lemma FullSwipe(y: real, gains: Gains)
    requires InRange(gains) && Abs(y) > FAST_ABOVE_PX
    requires (gains.fast == 0.2 && Abs(y) >= 134.0) || (gains.fast == 1.2 && Abs(y) >= 804.0)
    ensures Taught(Down(y), gains, SLUGGISH) == Gains(0.2, gains.slow)
    ensures After(Down(y), gains, SLUGGISH) == Down(Nearer(y, 134.0))
  {
    FullNet(y, gains);
    assert Times(0.2, 670) == 134.0 && Times(0.2, -670) == -134.0 && Times(0.2, 0) == 0.0;
  }

  lemma FullNet(y: real, gains: Gains)
    requires InRange(gains) && Abs(y) > FAST_ABOVE_PX
    requires (gains.fast == 0.2 && Abs(y) >= 134.0) || (gains.fast == 1.2 && Abs(y) >= 804.0)
    ensures NetMove(Down(y), gains) == Delta(0, if y > 0.0 then 670 else -670)
  {
    assert 0.0 / gains.fast == 0.0;
    assert y > 0.0 ==> y / gains.fast >= 670.0;
    assert y < 0.0 ==> y / gains.fast <= -670.0;
  }

  lemma SlowOvershoots()
    ensures Taught(Down(120.0), Gains(0.2, 0.6), SLUGGISH) == SLUGGISH
    ensures After(Down(120.0), Gains(0.2, 0.6), SLUGGISH) == Down(-680.0)
  {
    assert 0.0 / 0.6 == 0.0 && 120.0 / 0.6 == 200.0 && Round(200.0) == 200 && Round(0.0) == 0;
    assert Times(4.0, 200) == 800.0 && Times(4.0, 0) == 0.0;
  }

  /** What is left after each attempt: eight times a full swipe less, but for the slow miss from 120 pixels. */
  function WayLeft(i: nat): real {
    if i <= 7 then 1058.0 - 134.0 * i as real else -680.0 + 134.0 * (i - 8) as real
  }

  function Known(i: nat): (gains: Gains)
    ensures InRange(gains)
  {
    if i == 0 then FIRST_GAINS else if i <= 7 then Gains(0.2, 0.6) else SLUGGISH
  }

  lemma WayGoesOn(i: nat)
    requires i < 13
    ensures TOLERANCE_PX < Norm(Down(WayLeft(i)))
    ensures After(Down(WayLeft(i)), Known(i), SLUGGISH) == Down(WayLeft(i + 1))
    ensures Taught(Down(WayLeft(i)), Known(i), SLUGGISH) == Known(i + 1)
  {
    if i == 7 {
      SlowOvershoots();
    } else {
      FullSwipe(WayLeft(i), Known(i));
    }
  }

  lemma {:induction false} WayMissed(i: nat, attempts: nat)
    requires i + attempts == 13
    ensures !Places(Down(WayLeft(i)), Known(i), SLUGGISH, attempts)
    decreases attempts
  {
    if attempts == 0 {
      assert Norm(Down(WayLeft(i))) == 10.0;
    } else {
      WayGoesOn(i);
      PlacesNext(Down(WayLeft(i)), Known(i), SLUGGISH, attempts);
      WayMissed(i + 1, attempts - 1);
    }
  }

  lemma MissedRun(h: Hand, origin: Point, truth: Gains, target: Point, delta: Point, gains: Gains, attempts: nat)
    requires InRange(gains) && InRange(truth) && h.gains == gains && Left(h, origin, truth, target) == delta
    requires !Places(delta, gains, truth, attempts)
    ensures !Run(h, LinearWorld(origin, truth), target, attempts).1
  {
    RunPlaces(h, origin, truth, target, attempts);
  }

  /** From 1058 pixels above its target, a pointer with the slowest fast and the fastest slow swipes is not placed in
      one attempt fewer. */
  lemma OneFewerFallsShort(h: Hand, origin: Point, truth: Gains, target: Point, attempts: nat)
    requires h.gains == Gains(1.2, 0.6) && truth == Gains(0.2, 4.0) && attempts == 13
    requires Left(h, origin, truth, target) == Down(1058.0)
    ensures !Run(h, LinearWorld(origin, truth), target, attempts).1
  {
    WayMissed(0, attempts);
    MissedRun(h, origin, truth, target, Down(1058.0), FIRST_GAINS, attempts);
  }
}
