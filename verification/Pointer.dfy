/** The closed-loop pointer placement of src/wayland_vnc/android_viewer.py: `move_cursor_to`,
    `_step_toward`, `_swipe`, `_start_for` and the points of `drag`. What the pointer does is arbitrary: a
    report may depend on every swipe so far and on when it is asked for, and may be missing. Positions
    and gains are reals, swipes are whole pixels. */
module Pointer {
  import opened Results
  import opened Rounding

  datatype Point = Point(x: real, y: real)

  datatype Delta = Delta(x: int, y: int)

  datatype Speed = Fast | Slow

  datatype Gains = Gains(fast: real, slow: real) {
    function Of(speed: Speed): real {
      if speed == Fast then fast else slow
    }

    function With(speed: Speed, gain: real): Gains {
      if speed == Fast then this.(fast := gain) else this.(slow := gain)
    }
  }

  /** One `input swipe`: where it starts, how far it goes and for how many milliseconds. */
  datatype Swipe = Swipe(startX: int, startY: int, delta: Delta, speed: Speed, duration: int)

  /** What the viewer's pointer says after some swipes, the n-th time it is asked. */
  type World = (seq<Swipe>, nat) -> Option<Point>

  const SAFE_LEFT := 160
  const SAFE_TOP := 230
  const SAFE_RIGHT := 1760
  const SAFE_BOTTOM := 900
  const TOLERANCE_PX := 6.0
  const FAST_ABOVE_PX := 120.0
  const SLOW_MIN_PX := 40
  const GAIN_MIN := 0.2
  const GAIN_MAX := 4.0
  const FIRST_GAINS := Gains(1.2, 0.6)

  // ----- arithmetic

  function Max(x: real, y: real): real {
    if x < y then y else x
  }

  function AbsInt(n: int): nat {
    if n < 0 then -n else n
  }

  function MaxInt(m: int, n: int): int {
    if m < n then n else m
  }

  function Clamp(n: int, limit: int): (r: int)
    requires limit >= 0
    ensures -limit <= r <= limit
    ensures -limit <= n <= limit ==> r == n
    ensures AbsInt(r) <= AbsInt(n) && (n >= 0 ==> r >= 0) && (n <= 0 ==> r <= 0)
  {
    MaxInt(-limit, if n < limit then n else limit)
  }

  function Norm(p: Point): real {
    Max(Abs(p.x), Abs(p.y))
  }

  function Minus(p: Point, q: Point): Point {
    Point(p.x - q.x, p.y - q.y)
  }

  function Length(d: Delta): int {
    MaxInt(AbsInt(d.x), AbsInt(d.y))
  }

  // ----- one swipe

  /** `m` out of `n` pixels, when `n` become the minimum. */
  function Scaled(m: int, n: int): int
    requires n > 0
  {
    var scale := SLOW_MIN_PX as real / n as real;
    Round(m as real * scale)
  }

  function Stretch(d: Delta, speed: Speed): Delta {
    if speed == Slow && 0 < Length(d) < SLOW_MIN_PX then Delta(Scaled(d.x, Length(d)), Scaled(d.y, Length(d))) else d
  }

  /** The delta `_swipe` commands for a wanted one: none for no move at all. */
  function Commanded(wanted: Delta, speed: Speed): Option<Delta> {
    var clamped := Delta(Clamp(wanted.x, SAFE_RIGHT - SAFE_LEFT), Clamp(wanted.y, SAFE_BOTTOM - SAFE_TOP));
    if clamped == Delta(0, 0) then None else Some(Stretch(clamped, speed))
  }

  function StartFor(d: Delta): (int, int) {
    (if d.x >= 0 then SAFE_LEFT else SAFE_RIGHT, if d.y >= 0 then SAFE_TOP else SAFE_BOTTOM)
  }

  function SwipeOf(d: Delta, speed: Speed): Swipe {
    var duration := if speed == Fast then Length(d) else Length(d) * 4;
    Swipe(StartFor(d).0, StartFor(d).1, d, speed, MaxInt(100, duration))
  }

  predicate Safe(x: int, y: int) {
    SAFE_LEFT <= x <= SAFE_RIGHT && SAFE_TOP <= y <= SAFE_BOTTOM
  }

  /** Both ends of a swipe, and so all of it, are in the safe zone. */
  predicate Inside(s: Swipe) {
    Safe(s.startX, s.startY) && Safe(s.startX + s.delta.x, s.startY + s.delta.y)
  }

  lemma ScaledBounds(m: int, n: int)
    requires 0 < n && -n <= m <= n
    ensures -SLOW_MIN_PX <= Scaled(m, n) <= SLOW_MIN_PX
    ensures AbsInt(m) == n ==> AbsInt(Scaled(m, n)) == SLOW_MIN_PX
  {
    var scale := SLOW_MIN_PX as real / n as real;
    ScaleTo(SLOW_MIN_PX as real, n as real);
    ProductBounds(m as real, n as real, scale);
    if m == -n {
      assert m as real * scale == -(n as real * scale);
    }
  }

  lemma ScaleTo(whole: real, n: real)
    requires whole > 0.0 && n > 0.0
    ensures whole / n > 0.0 && n * (whole / n) == whole
  {
  }

  lemma ProductBounds(m: real, n: real, scale: real)
    requires scale > 0.0 && -n <= m <= n
    ensures -(n * scale) <= m * scale <= n * scale
  {
    assert (n - m) * scale >= 0.0 && (n + m) * scale >= 0.0;
  }

  lemma StretchedLength(d: Delta)
    requires 0 < Length(d) < SLOW_MIN_PX
    ensures Length(Stretch(d, Slow)) == SLOW_MIN_PX
  {
    ScaledBounds(d.x, Length(d));
    ScaledBounds(d.y, Length(d));
  }

  /** Whatever is wanted, a swipe stays in the safe zone, and a slow one is no tap. */
  lemma SwipeInside(wanted: Delta, speed: Speed)
    requires Commanded(wanted, speed).Some?
    ensures Inside(SwipeOf(Commanded(wanted, speed).value, speed))
    ensures speed == Slow ==> Length(Commanded(wanted, speed).value) >= SLOW_MIN_PX
  {
    var clamped := Delta(Clamp(wanted.x, SAFE_RIGHT - SAFE_LEFT), Clamp(wanted.y, SAFE_BOTTOM - SAFE_TOP));
    if speed == Slow && Length(clamped) < SLOW_MIN_PX {
      StretchedLength(clamped);
    }
  }

  // ----- the loop

  /** What the viewer object has learnt and done. */
  datatype Hand = Hand(gains: Gains, swipes: seq<Swipe>, polls: nat)

  function Report(h: Hand, world: World): Option<Point> {
    world(h.swipes, h.polls)
  }

  function Polled(h: Hand): Hand {
    h.(polls := h.polls + 1)
  }

  function Swiped(h: Hand, wanted: Delta, speed: Speed): Hand {
    match Commanded(wanted, speed)
    case None => h
    case Some(d) => h.(swipes := h.swipes + [SwipeOf(d, speed)])
  }

  /** Along one axis, the shortest swipe that registers, in the direction opposite to the move. */
  function Away(wanted: int): int {
    if wanted == 0 then 0 else if wanted > 0 then -SLOW_MIN_PX else SLOW_MIN_PX
  }

  predicate NeedsDetour(wanted: Delta, speed: Speed) {
    speed == Slow && 0 < Length(wanted) < SLOW_MIN_PX
  }

  function WantedFor(delta: Point, gain: real): Delta
    requires gain > 0.0
  {
    Delta(Round(delta.x / gain), Round(delta.y / gain))
  }

  /** `_step_toward`: the hand after the step, where its last swipe started, and what it wanted last. */
  datatype Step = Step(hand: Hand, from: Point, wanted: Delta)

  function StepToward(h: Hand, world: World, current: Point, wanted: Delta, speed: Speed): Step {
    if !NeedsDetour(wanted, speed) then Step(Swiped(h, wanted, speed), current, wanted)
    else
      var away := Delta(Away(wanted.x), Away(wanted.y));
      var back := Delta(wanted.x - away.x, wanted.y - away.y);
      var gone := Swiped(h, away, Slow);
      var seen := Report(gone, world);
      Step(Swiped(Polled(gone), back, speed), if seen.Some? then seen.value else current, back)
  }

  /** The gain a move shows, kept within bounds. */
  function Learnt(gain: real, from: Point, after: Option<Point>, commanded: Option<Delta>): real {
    if after.None? || commanded.None? || after.value == from || Length(commanded.value) == 0 then gain
    else
      var shown := Norm(Minus(after.value, from)) / Length(commanded.value) as real;
      var atLeast := Max(GAIN_MIN, shown);
      if GAIN_MAX < atLeast then GAIN_MAX else atLeast
  }

  predicate Close(p: Point, target: Point) {
    Norm(Minus(target, p)) <= TOLERANCE_PX
  }

  function SpeedFor(delta: Point): Speed {
    if Norm(delta) > FAST_ABOVE_PX then Fast else Slow
  }

  predicate InRange(gains: Gains) {
    GAIN_MIN <= gains.fast <= GAIN_MAX && GAIN_MIN <= gains.slow <= GAIN_MAX
  }

  /** The swipes of one attempt from a known position, and what they taught. */
  function Corrected(h: Hand, world: World, current: Point, target: Point): Hand
    requires InRange(h.gains)
  {
    var delta := Minus(target, current);
    var speed := SpeedFor(delta);
    var step := StepToward(h, world, current, WantedFor(delta, h.gains.Of(speed)), speed);
    var gain := Learnt(h.gains.Of(speed), step.from, Report(step.hand, world), Commanded(step.wanted, speed));
    Polled(step.hand).(gains := h.gains.With(speed, gain))
  }

  /** One pass of the loop: whether the pointer was already close, and the hand afterwards. */
  function Attempt(h: Hand, world: World, target: Point): (Hand, bool)
    requires InRange(h.gains)
  {
    match Report(h, world)
    case None => (Swiped(Polled(h), Delta(SLOW_MIN_PX, SLOW_MIN_PX), Slow), false)
    case Some(current) =>
      if Close(current, target) then (Polled(h), true) else (Corrected(Polled(h), world, current, target), false)
  }

  lemma LearntInRange(gain: real, from: Point, after: Option<Point>, commanded: Option<Delta>)
    requires GAIN_MIN <= gain <= GAIN_MAX
    ensures GAIN_MIN <= Learnt(gain, from, after, commanded) <= GAIN_MAX
  {
  }

  lemma AttemptKeepsRange(h: Hand, world: World, target: Point)
    requires InRange(h.gains)
    ensures InRange(Attempt(h, world, target).0.gains)
  {
    if Report(h, world).Some? && !Close(Report(h, world).value, target) {
      var delta := Minus(target, Report(h, world).value);
      var speed := SpeedFor(delta);
      var step := StepToward(Polled(h), world, Report(h, world).value, WantedFor(delta, h.gains.Of(speed)), speed);
      LearntInRange(h.gains.Of(speed), step.from, Report(step.hand, world), Commanded(step.wanted, speed));
    }
  }

  /** `move_cursor_to`: attempts until one finds the pointer close, and a last look. */
  function Run(h: Hand, world: World, target: Point, attempts: nat): (Hand, bool)
    requires InRange(h.gains)
    decreases attempts
  {
    if attempts == 0 then
      var last := Report(h, world);
      (Polled(h), last.Some? && Close(last.value, target))
    else
      var (next, close) := Attempt(h, world, target);
      AttemptKeepsRange(h, world, target);
      if close then (next, true) else Run(next, world, target, attempts - 1)
  }

  class AndroidViewer {
    const world: World
    var gains: Gains
    var swipes: seq<Swipe>
    var polls: nat

    constructor (world: World)
      ensures this.world == world && State() == Hand(FIRST_GAINS, [], 0)
    {
      this.world := world;
      gains := FIRST_GAINS;
      swipes := [];
      polls := 0;
    }

    function State(): Hand
      reads this
    {
      Hand(gains, swipes, polls)
    }

    method PointerReport() returns (seen: Option<Point>)
      modifies this`polls
      ensures seen == Report(old(State()), world) && State() == Polled(old(State()))
    {
      seen := world(swipes, polls);
      polls := polls + 1;
    }

    method SwipeBy(wanted: Delta, speed: Speed) returns (commanded: Option<Delta>)
      modifies this`swipes
      ensures commanded == Commanded(wanted, speed) && State() == Swiped(old(State()), wanted, speed)
      ensures commanded.Some? ==> Inside(swipes[|swipes| - 1])
    {
      commanded := Commanded(wanted, speed);
      if commanded.Some? {
        SwipeInside(wanted, speed);
        swipes := swipes + [SwipeOf(commanded.value, speed)];
      }
    }

    method TakeStep(current: Point, delta: Point, speed: Speed) returns (from: Point, commanded: Option<Delta>)
      requires InRange(gains)
      modifies this`polls, this`swipes
      ensures var step := StepToward(old(State()), world, current, WantedFor(delta, old(gains).Of(speed)), speed);
        State() == step.hand && from == step.from && commanded == Commanded(step.wanted, speed)
    {
      var wanted := WantedFor(delta, gains.Of(speed));
      from := current;
      if NeedsDetour(wanted, speed) {
        wanted, from := Detour(current, wanted);
      }
      commanded := SwipeBy(wanted, speed);
    }

    /** The swipe away, what is then wanted, and where the pointer is then. */
    method Detour(current: Point, wanted: Delta) returns (back: Delta, from: Point)
      modifies this`polls, this`swipes
      ensures var away := Delta(Away(wanted.x), Away(wanted.y));
        var gone := Swiped(old(State()), away, Slow);
        && State() == Polled(gone) && back == Delta(wanted.x - away.x, wanted.y - away.y)
        && from == if Report(gone, world).Some? then Report(gone, world).value else current
    {
      var away := Delta(Away(wanted.x), Away(wanted.y));
      var _ := SwipeBy(away, Slow);
      back := Delta(wanted.x - away.x, wanted.y - away.y);
      var seen := PointerReport();
      from := if seen.Some? then seen.value else current;
    }

    /** Done only when a report is within the tolerance; the gains stay in their range and every swipe
        in the safe zone, whatever the pointer does. */
    method MoveCursorTo(target: Point, attempts: nat) returns (placed: bool)
      requires InRange(gains)
      modifies this`gains, this`swipes, this`polls
      ensures (State(), placed) == Run(old(State()), world, target, attempts)
      ensures InRange(gains)
    {
      for i := 0 to attempts
        invariant InRange(gains)
        invariant Run(old(State()), world, target, attempts) == Run(State(), world, target, attempts - i)
      {
        ghost var before := State();
        AttemptKeepsRange(before, world, target);
        var seen := PointerReport();
        if seen.None? {
          var _ := SwipeBy(Delta(SLOW_MIN_PX, SLOW_MIN_PX), Slow);
        } else {
          if Close(seen.value, target) {
            return true;
          }
          Correct(seen.value, target);
        }
      }
      var last := PointerReport();
      placed := last.Some? && Close(last.value, target);
    }

    /** The step of one attempt, and the gain it teaches. */
    method Correct(current: Point, target: Point)
      requires InRange(gains)
      modifies this`gains, this`swipes, this`polls
      ensures State() == Corrected(old(State()), world, current, target)
    {
      var delta := Minus(target, current);
      var speed := SpeedFor(delta);
      var from, commanded := TakeStep(current, delta, speed);
      var after := PointerReport();
      gains := gains.With(speed, Learnt(gains.Of(speed), from, after, commanded));
    }
  }

  // ----- every run, whatever the pointer does

  predicate AllInside(swipes: seq<Swipe>) {
    forall i | 0 <= i < |swipes| :: Inside(swipes[i])
  }

  lemma SwipedInside(h: Hand, wanted: Delta, speed: Speed)
    requires AllInside(h.swipes)
    ensures AllInside(Swiped(h, wanted, speed).swipes)
  {
    if Commanded(wanted, speed).Some? {
      SwipeInside(wanted, speed);
    }
  }

  lemma AttemptInside(h: Hand, world: World, target: Point)
    requires InRange(h.gains) && AllInside(h.swipes)
    ensures AllInside(Attempt(h, world, target).0.swipes)
  {
    var seen := Report(h, world);
    if seen.None? {
      SwipedInside(Polled(h), Delta(SLOW_MIN_PX, SLOW_MIN_PX), Slow);
    } else if !Close(seen.value, target) {
      var delta := Minus(target, seen.value);
      var speed := SpeedFor(delta);
      StepInside(Polled(h), world, seen.value, WantedFor(delta, h.gains.Of(speed)), speed);
    }
  }

  lemma StepInside(h: Hand, world: World, current: Point, wanted: Delta, speed: Speed)
    requires AllInside(h.swipes)
    ensures AllInside(StepToward(h, world, current, wanted, speed).hand.swipes)
  {
    if NeedsDetour(wanted, speed) {
      var away := Delta(Away(wanted.x), Away(wanted.y));
      SwipedInside(h, away, Slow);
      SwipedInside(Polled(Swiped(h, away, Slow)), Delta(wanted.x - away.x, wanted.y - away.y), speed);
    } else {
      SwipedInside(h, wanted, speed);
    }
  }

  /** For every pointer: gains in range, swipes in the safe zone, and success only on a report within the tolerance. */
  lemma {:induction false} RunIsSafe(h: Hand, world: World, target: Point, attempts: nat)
    requires InRange(h.gains) && AllInside(h.swipes)
    ensures var (last, placed) := Run(h, world, target, attempts);
      && InRange(last.gains) && AllInside(last.swipes) && h.polls < last.polls
      && (placed <==> SeenClose(world, last.swipes, last.polls - 1, target))
    decreases attempts
  {
    if attempts == 0 {
    } else {
      var (next, close) := Attempt(h, world, target);
      AttemptKeepsRange(h, world, target);
      AttemptInside(h, world, target);
      AttemptLooks(h, world, target);
      if !close {
        RunIsSafe(next, world, target, attempts - 1);
      }
    }
  }

  /** Close is six pixels along each axis. */
  lemma CloseExactly(p: Point, target: Point)
    ensures Close(p, target) <==> -6.0 <= target.x - p.x <= 6.0 && -6.0 <= target.y - p.y <= 6.0
  {
  }

  /** Every swipe the viewer makes, in numbers: from the corner of 160..1760 by 230..900 that leaves room for
      it, at a pixel a millisecond when fast but for 100 at least, and at four milliseconds a pixel over forty
      pixels or more when slow. */
  lemma SwipeExactly(wanted: Delta, speed: Speed)
    requires Commanded(wanted, speed).Some?
    ensures var d := Commanded(wanted, speed).value;
      var s := SwipeOf(d, speed);
      && s.delta == d && s.speed == speed
      && s.startX == (if d.x >= 0 then 160 else 1760) && s.startY == (if d.y >= 0 then 230 else 900)
      && 160 <= s.startX + d.x <= 1760 && 230 <= s.startY + d.y <= 900
      && if speed == Slow then 40 <= Length(d) && s.duration == 4 * Length(d)
         else 100 <= s.duration && (s.duration == 100 || s.duration == Length(d)) && Length(d) <= s.duration
  {
    SwipeInside(wanted, speed);
  }

  /** No move is the only one that is not commanded, and one that fits and is not short goes as wanted. */
  lemma CommandedExactly(wanted: Delta, speed: Speed)
    ensures Commanded(wanted, speed).None? <==> wanted == Delta(0, 0)
    ensures -1600 <= wanted.x <= 1600 && -670 <= wanted.y <= 670 && Length(wanted) >= (if speed == Slow then 40 else 1)
      ==> Commanded(wanted, speed) == Some(wanted)
  {
    if wanted != Delta(0, 0) {
      ClampZero(wanted.x, 1600);
      ClampZero(wanted.y, 670);
    }
  }

  lemma ClampZero(n: int, limit: int)
    requires limit > 0
    ensures Clamp(n, limit) == 0 <==> n == 0
  {
  }

  /** A viewer that is told nothing provokes a report with one slow swipe of forty pixels each way. */
  lemma NoReportProvokesOne(h: Hand, world: World, target: Point)
    requires InRange(h.gains) && world(h.swipes, h.polls).None?
    ensures Attempt(h, world, target) ==
      (Hand(h.gains, h.swipes + [Swipe(160, 230, Delta(40, 40), Slow, 160)], h.polls + 1), false)
  {
  }

  /** A move starts from where the pointer was last seen: after the detour of a slow move under forty pixels, whose legs
      are two swipes with one look between them, if it was seen there. */
  lemma StepFrom(h: Hand, world: World, current: Point, wanted: Delta, speed: Speed)
    requires wanted != Delta(0, 0)
    ensures var step := StepToward(h, world, current, wanted, speed);
      && step.hand.gains == h.gains && h.swipes <= step.hand.swipes
      && if speed == Slow && Length(wanted) < 40 then
           && |step.hand.swipes| == |h.swipes| + 2 && step.hand.polls == h.polls + 1
           && var seen := world(step.hand.swipes[..|h.swipes| + 1], h.polls);
              step.from == if seen.Some? then seen.value else current
         else |step.hand.swipes| == |h.swipes| + 1 && step.hand.polls == h.polls && step.from == current
  {
    if NeedsDetour(wanted, speed) {
      var away := Delta(Away(wanted.x), Away(wanted.y));
      CommandedExactly(away, Slow);
      CommandedExactly(Delta(wanted.x - away.x, wanted.y - away.y), Slow);
      assert StepToward(h, world, current, wanted, speed).hand.swipes[..|h.swipes| + 1] == Swiped(h, away, Slow).swipes;
    } else {
      CommandedExactly(wanted, speed);
    }
  }

  /** A distance of more than 120 pixels along either axis is covered fast. */
  lemma SpeedExactly(delta: Point)
    ensures SpeedFor(delta) == Fast <==> delta.x > 120.0 || delta.x < -120.0 || delta.y > 120.0 || delta.y < -120.0
  {
  }

  /** A move that is not seen, or not commanded, teaches nothing; any other teaches how far the pointer went a
      pixel, but never less than 0.2 nor more than 4. */
  lemma LearntBounded(gain: real, from: Point, after: Option<Point>, commanded: Option<Delta>)
    ensures after == None || after == Some(from) || commanded == None ==> Learnt(gain, from, after, commanded) == gain
    ensures after.Some? && after.value != from && commanded.Some? && Length(commanded.value) > 0 ==>
      var shown := Norm(Minus(after.value, from)) / Length(commanded.value) as real;
      var learnt := Learnt(gain, from, after, commanded);
      && (shown < 0.2 ==> learnt == 0.2) && (shown > 4.0 ==> learnt == 4.0)
      && (0.2 <= shown <= 4.0 ==> learnt == shown)
  {
  }

  predicate SeenClose(world: World, swipes: seq<Swipe>, poll: nat, target: Point) {
    world(swipes, poll).Some? && Close(world(swipes, poll).value, target)
  }

  lemma AttemptLooks(h: Hand, world: World, target: Point)
    requires InRange(h.gains)
    ensures var (next, close) := Attempt(h, world, target);
      h.polls < next.polls && (close ==> SeenClose(world, next.swipes, next.polls - 1, target))
  {
    StepPolls(Polled(h), world);
  }

  lemma StepPolls(h: Hand, world: World)
    ensures forall current, wanted, speed :: h.polls <= StepToward(h, world, current, wanted, speed).hand.polls
  {
  }

  // ----- what an attempt that has not arrived commands

  /** The whole move an attempt wants of the pointer, in swipe pixels. */
  function NetMove(delta: Point, gains: Gains): Delta
    requires InRange(gains)
  {
    var wanted := WantedFor(delta, gains.Of(SpeedFor(delta)));
    if SpeedFor(delta) == Slow then wanted
    else Delta(Clamp(wanted.x, SAFE_RIGHT - SAFE_LEFT), Clamp(wanted.y, SAFE_BOTTOM - SAFE_TOP))
  }

  lemma Monotone(q: real, a: real, b: real)
    requires 0.0 <= q && a <= b
    ensures q * a <= q * b
  {
    assert q * (b - a) >= 0.0;
  }

  lemma StrictlyMonotone(q: real, a: real, b: real)
    requires 0.0 < q && a < b
    ensures q * a < q * b
  {
    assert q * (b - a) > 0.0;
  }

  lemma Commuted(a: real, b: real)
    ensures a * b == b * a
  {
  }

  lemma AbsProduct(q: real, gain: real)
    requires 0.0 <= gain
    ensures Abs(q * gain) == Abs(q) * gain
  {
    Monotone(Abs(q), 0.0, gain);
    if q < 0.0 {
      assert (-q) * gain == -(q * gain);
    }
  }

  lemma QuotientBounds(d: real, gain: real)
    requires 0.0 <= d && 0.2 <= gain <= 4.0
    ensures d <= 4.0 * (d / gain) && 0.2 * (d / gain) <= d && 0.0 <= d / gain
  {
    var q := d / gain;
    assert q * gain == d;
    assert q >= 0.0;
    Monotone(q, gain, 4.0);
    Monotone(q, 0.2, gain);
  }

  lemma QuotientNegated(d: real, gain: real)
    requires 0.0 < gain
    ensures (-d) / gain == -(d / gain)
  {
    var q := d / gain;
    assert q * gain == d;
    assert (-q) * gain == -d;
  }

  lemma RoundBounds(q: real)
    ensures Abs(q) > 1.0 ==> AbsInt(Round(q)) >= 1
    ensures Abs(q) > 30.0 ==> AbsInt(Round(q)) >= 30
    ensures Abs(q) <= 600.0 ==> AbsInt(Round(q)) <= 600
  {
  }

  lemma WantedBounds(d: real, gain: real)
    requires GAIN_MIN <= gain <= GAIN_MAX
    ensures Abs(d) > TOLERANCE_PX ==> AbsInt(Round(d / gain)) >= 1
    ensures Abs(d) > FAST_ABOVE_PX ==> AbsInt(Round(d / gain)) >= 30
    ensures Abs(d) <= FAST_ABOVE_PX ==> AbsInt(Round(d / gain)) <= 600
  {
    QuotientBounds(Abs(d), gain);
    QuotientNegated(d, gain);
    assert Abs(d / gain) == Abs(d) / gain;
    RoundBounds(d / gain);
  }

  lemma NetMoveBounds(delta: Point, gains: Gains)
    requires InRange(gains) && Norm(delta) > TOLERANCE_PX
    ensures var wanted := WantedFor(delta, gains.Of(SpeedFor(delta)));
      && (SpeedFor(delta) == Slow ==> 0 < Length(wanted) <= 600)
      && (SpeedFor(delta) == Fast ==> Length(wanted) >= 30 && Length(NetMove(delta, gains)) >= 30)
  {
    var gain := gains.Of(SpeedFor(delta));
    WantedBounds(delta.x, gain);
    WantedBounds(delta.y, gain);
  }

  function Sum(d: Delta, e: Delta): Delta {
    Delta(d.x + e.x, d.y + e.y)
  }

  /** One swipe, or for a slow move shorter than a swipe may be, one away and one back. */
  function Legs(net: Delta, speed: Speed): seq<Delta> {
    if !NeedsDetour(net, speed) then [net]
    else
      var away := Delta(Away(net.x), Away(net.y));
      [away, Delta(net.x - away.x, net.y - away.y)]
  }

  lemma LegsSum(net: Delta, speed: Speed)
    requires 0 < Length(net)
    ensures var legs := Legs(net, speed);
      && (|legs| == 1 ==> legs[0] == net) && (|legs| == 2 ==> Sum(legs[0], legs[1]) == net)
      && (speed == Slow ==> forall i | 0 <= i < |legs| :: SLOW_MIN_PX <= Length(legs[i]))
  {
  }

  lemma LegCommanded(leg: Delta, speed: Speed)
    requires 0 < Length(leg) && -1600 <= leg.x <= 1600 && -670 <= leg.y <= 670
    requires speed == Slow ==> Length(leg) >= SLOW_MIN_PX
    ensures Commanded(leg, speed) == Some(leg)
  {
  }

  lemma SlowCommanded(net: Delta)
    requires 0 < Length(net) <= 600
    ensures forall i | 0 <= i < |Legs(net, Slow)| :: Commanded(Legs(net, Slow)[i], Slow) == Some(Legs(net, Slow)[i])
  {
    var legs := Legs(net, Slow);
    LegsSum(net, Slow);
    forall i | 0 <= i < |legs| ensures Commanded(legs[i], Slow) == Some(legs[i]) {
      LegCommanded(legs[i], Slow);
    }
  }

  lemma FastCommanded(wanted: Delta)
    requires 0 < Length(wanted)
    ensures Commanded(wanted, Fast) ==
      Some(Delta(Clamp(wanted.x, SAFE_RIGHT - SAFE_LEFT), Clamp(wanted.y, SAFE_BOTTOM - SAFE_TOP)))
  {
  }

  function SwipesOf(legs: seq<Delta>, speed: Speed): seq<Swipe> {
    if legs == [] then [] else SwipesOf(legs[..|legs| - 1], speed) + [SwipeOf(legs[|legs| - 1], speed)]
  }

  lemma SwipesOfLegs(net: Delta, speed: Speed)
    ensures var legs := Legs(net, speed);
      && (|legs| == 1 ==> SwipesOf(legs, speed) == [SwipeOf(legs[0], speed)])
      && (|legs| == 2 ==> SwipesOf(legs, speed) == [SwipeOf(legs[0], speed), SwipeOf(legs[1], speed)])
  {
    var legs := Legs(net, speed);
    if |legs| == 2 {
      assert legs[..1] == [legs[0]] && legs[..1][..0] == [];
      assert SwipesOf(legs[..1], speed) == [SwipeOf(legs[0], speed)];
    }
  }

  /** An attempt that sees the pointer elsewhere swipes by exactly the legs of its move: at least thirty
      pixels when fast, at least the minimum on every leg when slow, and slow moves are never clamped. */
  lemma AttemptCommands(h: Hand, world: World, target: Point)
    requires InRange(h.gains)
    requires Report(h, world).Some? && !Close(Report(h, world).value, target)
    ensures var delta := Minus(target, Report(h, world).value);
      var net := NetMove(delta, h.gains);
      && Attempt(h, world, target).0.swipes == h.swipes + SwipesOf(Legs(net, SpeedFor(delta)), SpeedFor(delta))
      && 0 < Length(net) && (SpeedFor(delta) == Fast ==> Length(net) >= 30)
  {
    var delta := Minus(target, Report(h, world).value);
    var speed := SpeedFor(delta);
    var wanted := WantedFor(delta, h.gains.Of(speed));
    NetMoveBounds(delta, h.gains);
    SwipesOfLegs(NetMove(delta, h.gains), speed);
    if speed == Fast {
      FastCommanded(wanted);
    } else {
      LegsSum(wanted, Slow);
      SlowCommanded(wanted);
      StepLegs(Polled(h), world, Report(h, world).value, wanted);
    }
  }

  lemma StepLegs(h: Hand, world: World, current: Point, wanted: Delta)
    requires 0 < Length(wanted) <= 600
    ensures var step := StepToward(h, world, current, wanted, Slow);
      step.hand.swipes == h.swipes + SwipesOf(Legs(wanted, Slow), Slow)
  {
    LegsSum(wanted, Slow);
    SlowCommanded(wanted);
    SwipesOfLegs(wanted, Slow);
    var legs := Legs(wanted, Slow);
    assert Commanded(legs[0], Slow) == Some(legs[0]);
    if |legs| == 2 {
      assert Commanded(legs[1], Slow) == Some(legs[1]);
      assert h.swipes + [SwipeOf(legs[0], Slow)] + [SwipeOf(legs[1], Slow)] ==
        h.swipes + [SwipeOf(legs[0], Slow), SwipeOf(legs[1], Slow)];
    }
  }

  // ----- a linear pointer

  /** The pointer that moves by its class's true gain times every swipe. */
  function LinearAt(origin: Point, truth: Gains, swipes: seq<Swipe>): Point {
    if swipes == [] then origin
    else
      var before := LinearAt(origin, truth, swipes[..|swipes| - 1]);
      Moved(before, swipes[|swipes| - 1].delta, truth.Of(swipes[|swipes| - 1].speed))
  }

  function Times(gain: real, pixels: int): real {
    gain * pixels as real
  }

  function Moved(p: Point, d: Delta, gain: real): Point {
    Point(p.x + Times(gain, d.x), p.y + Times(gain, d.y))
  }

  function LinearWorld(origin: Point, truth: Gains): World {
    (swipes, polls) => Some(LinearAt(origin, truth, swipes))
  }

  function Left(h: Hand, origin: Point, truth: Gains, target: Point): Point {
    Minus(target, LinearAt(origin, truth, h.swipes))
  }

  lemma LinearSwipe(h: Hand, origin: Point, truth: Gains, wanted: Delta, speed: Speed, commanded: Delta)
    requires Commanded(wanted, speed) == Some(commanded)
    ensures LinearAt(origin, truth, Swiped(h, wanted, speed).swipes) ==
      Moved(LinearAt(origin, truth, h.swipes), commanded, truth.Of(speed))
  {
    var swipes := Swiped(h, wanted, speed).swipes;
    assert swipes[..|swipes| - 1] == h.swipes;
  }

  lemma TimesAbs(gain: real, n: int)
    requires gain > 0.0
    ensures Abs(Times(gain, n)) == Times(gain, AbsInt(n))
    ensures n != 0 ==> Times(gain, AbsInt(n)) > 0.0
  {
    TimesNegated(gain, n);
    Monotone(gain, 0.0, AbsInt(n) as real);
  }

  lemma TimesNegated(gain: real, n: int)
    ensures Times(gain, -n) == -Times(gain, n)
  {
  }

  lemma TimesMonotone(gain: real, m: int, n: int)
    requires gain > 0.0 && m <= n
    ensures Times(gain, m) <= Times(gain, n)
  {
    Monotone(gain, m as real, n as real);
  }

  lemma TimesSum(gain: real, m: int, n: int)
    ensures Times(gain, m) + Times(gain, n) == Times(gain, m + n)
  {
    assert (m + n) as real == m as real + n as real;
    Distributed(gain, m as real, n as real);
  }

  lemma Distributed(gain: real, a: real, b: real)
    ensures gain * a + gain * b == gain * (a + b)
  {
  }

  lemma TimesOver(gain: real, n: int)
    requires gain > 0.0 && n > 0
    ensures Times(gain, n) / n as real == gain && Times(gain, n) > 0.0
  {
  }

  lemma ShiftNorm(d: Delta, gain: real)
    requires gain > 0.0
    ensures Norm(Point(Times(gain, d.x), Times(gain, d.y))) == Times(gain, Length(d))
  {
    TimesAbs(gain, d.x);
    TimesAbs(gain, d.y);
    if AbsInt(d.x) < AbsInt(d.y) {
      TimesMonotone(gain, AbsInt(d.x), AbsInt(d.y));
    } else {
      TimesMonotone(gain, AbsInt(d.y), AbsInt(d.x));
    }
  }

  lemma ShownGain(from: Point, d: Delta, gain: real)
    requires 0 < Length(d) && gain > 0.0
    ensures Norm(Minus(Moved(from, d, gain), from)) / Length(d) as real == gain
    ensures Moved(from, d, gain) != from
  {
    assert Minus(Moved(from, d, gain), from) == Point(Times(gain, d.x), Times(gain, d.y));
    ShiftNorm(d, gain);
    TimesOver(gain, Length(d));
    assert Norm(Minus(from, from)) == 0.0;
  }

  /** One move that was commanded at all teaches the gain exactly, clamped or not. */
  lemma LearntExactly(learnt: real, from: Point, d: Delta, gain: real)
    requires 0 < Length(d) && GAIN_MIN <= gain <= GAIN_MAX
    ensures Learnt(learnt, from, Some(Moved(from, d, gain)), Some(d)) == gain
  {
    ShownGain(from, d, gain);
  }

  lemma MovedTwice(p: Point, d: Delta, e: Delta, gain: real)
    ensures Moved(Moved(p, d, gain), e, gain) == Moved(p, Sum(d, e), gain)
  {
    TimesSum(gain, d.x, e.x);
    TimesSum(gain, d.y, e.y);
  }

  /** A step of a linear pointer moves it by the net move, and its last leg shows the true gain. */
  ghost predicate StepMoves(step: Step, speed: Speed, net: Delta, current: Point, origin: Point, truth: Gains) {
    && LinearAt(origin, truth, step.hand.swipes) == Moved(current, net, truth.Of(speed))
    && Commanded(step.wanted, speed).Some? && 0 < Length(Commanded(step.wanted, speed).value)
    && LinearAt(origin, truth, step.hand.swipes) ==
         Moved(step.from, Commanded(step.wanted, speed).value, truth.Of(speed))
  }

  lemma LinearDirect(h: Hand, origin: Point, truth: Gains, wanted: Delta, speed: Speed, net: Delta)
    requires !NeedsDetour(wanted, speed) && 0 < Length(net) && Commanded(wanted, speed) == Some(net)
    ensures var current := LinearAt(origin, truth, h.swipes);
      StepMoves(StepToward(h, LinearWorld(origin, truth), current, wanted, speed), speed, net, current, origin, truth)
  {
    LinearSwipe(h, origin, truth, wanted, speed, net);
  }

  lemma LinearDetour(h: Hand, origin: Point, truth: Gains, wanted: Delta)
    requires NeedsDetour(wanted, Slow)
    ensures var current := LinearAt(origin, truth, h.swipes);
      StepMoves(StepToward(h, LinearWorld(origin, truth), current, wanted, Slow), Slow, wanted, current, origin, truth)
  {
    var current := LinearAt(origin, truth, h.swipes);
    var (away, back) := DetourLegs(wanted);
    LinearSwipe(h, origin, truth, away, Slow, away);
    LinearSwipePolled(Swiped(h, away, Slow), origin, truth, back, Slow, back);
    MovedTwice(current, away, back, truth.slow);
    DetourStep(h, LinearWorld(origin, truth), current, wanted, away, back);
  }

  function DetourLegs(wanted: Delta): (legs: (Delta, Delta))
    requires NeedsDetour(wanted, Slow)
    ensures Legs(wanted, Slow) == [legs.0, legs.1] && Sum(legs.0, legs.1) == wanted && 0 < Length(legs.1)
    ensures Commanded(legs.0, Slow) == Some(legs.0) && Commanded(legs.1, Slow) == Some(legs.1)
  {
    LegsSum(wanted, Slow);
    SlowCommanded(wanted);
    var legs := Legs(wanted, Slow);
    assert Commanded(legs[0], Slow) == Some(legs[0]) && Commanded(legs[1], Slow) == Some(legs[1]);
    (legs[0], legs[1])
  }

  lemma DetourStep(h: Hand, world: World, current: Point, wanted: Delta, away: Delta, back: Delta)
    requires NeedsDetour(wanted, Slow) && Legs(wanted, Slow) == [away, back]
    ensures var gone := Swiped(h, away, Slow);
      StepToward(h, world, current, wanted, Slow) ==
      Step(Swiped(Polled(gone), back, Slow), if Report(gone, world).Some? then Report(gone, world).value else current, back)
  {
  }

  lemma LinearSwipePolled(h: Hand, origin: Point, truth: Gains, wanted: Delta, speed: Speed, commanded: Delta)
    requires Commanded(wanted, speed) == Some(commanded)
    ensures LinearAt(origin, truth, Swiped(Polled(h), wanted, speed).swipes) ==
      Moved(LinearAt(origin, truth, h.swipes), commanded, truth.Of(speed))
  {
    LinearSwipe(Polled(h), origin, truth, wanted, speed, commanded);
  }

  lemma LinearStep(h: Hand, origin: Point, truth: Gains, delta: Point)
    requires InRange(h.gains) && InRange(truth) && Norm(delta) > TOLERANCE_PX
    ensures var current := LinearAt(origin, truth, h.swipes);
      var speed := SpeedFor(delta);
      var step := StepToward(h, LinearWorld(origin, truth), current, WantedFor(delta, h.gains.Of(speed)), speed);
      StepMoves(step, speed, NetMove(delta, h.gains), current, origin, truth)
  {
    var speed := SpeedFor(delta);
    var wanted := WantedFor(delta, h.gains.Of(speed));
    NetMoveBounds(delta, h.gains);
    if speed == Fast {
      FastCommanded(wanted);
      LinearDirect(h, origin, truth, wanted, Fast, NetMove(delta, h.gains));
    } else if NeedsDetour(wanted, Slow) {
      LinearDetour(h, origin, truth, wanted);
    } else {
      LegCommanded(wanted, Slow);
      LinearDirect(h, origin, truth, wanted, Slow, wanted);
    }
  }

  /** What is left of the way after a net move. */
  function Rest(delta: Point, net: Delta, gain: real): Point {
    Point(delta.x - Times(gain, net.x), delta.y - Times(gain, net.y))
  }

  /** On a linear pointer an attempt that has not arrived makes its net move exactly, detour or not, and
      from then on knows the true gain of the speed it used. */
  lemma LinearAttempt(h: Hand, origin: Point, truth: Gains, target: Point)
    requires InRange(h.gains) && InRange(truth) && Norm(Left(h, origin, truth, target)) > TOLERANCE_PX
    ensures var delta := Left(h, origin, truth, target);
      var speed := SpeedFor(delta);
      var (next, close) := Attempt(h, LinearWorld(origin, truth), target);
      && !close && next.gains == h.gains.With(speed, truth.Of(speed))
      && Left(next, origin, truth, target) == Rest(delta, NetMove(delta, h.gains), truth.Of(speed))
  {
    var current := LinearAt(origin, truth, h.swipes);
    var delta := Minus(target, current);
    var speed := SpeedFor(delta);
    var step := StepToward(Polled(h), LinearWorld(origin, truth), current, WantedFor(delta, h.gains.Of(speed)), speed);
    LinearStep(Polled(h), origin, truth, delta);
    LearntExactly(h.gains.Of(speed), step.from, Commanded(step.wanted, speed).value, truth.Of(speed));
  }

  // ----- one axis

  lemma NearStep(q: real, n: int, gain: real)
    requires Abs(q - n as real) <= 0.5 && gain > 0.0
    ensures Abs(q * gain - Times(gain, n)) <= gain / 2.0
  {
    var e := q - n as real;
    AbsProduct(e, gain);
    Monotone(gain, Abs(e), 0.5);
    assert e * gain == q * gain - Times(gain, n);
  }

  lemma FarStep(q: real, limit: int, gain: real)
    requires q >= limit as real + 0.5 && gain > 0.0
    ensures q * gain > Times(gain, limit)
  {
    StrictlyMonotone(gain, limit as real, q);
    Commuted(gain, q);
  }

  /** What is left on one axis after a clamped move with a known gain. */
  function AxisRest(d: real, gain: real, limit: int): real
    requires gain > 0.0 && limit >= 0
  {
    d - Times(gain, Clamp(Round(d / gain), limit))
  }

  predicate AxisInReach(d: real, gain: real, limit: int)
    requires gain > 0.0
  {
    AbsInt(Round(d / gain)) <= limit
  }

  lemma AxisNear(d: real, gain: real, limit: int)
    requires gain > 0.0 && limit >= 0 && AxisInReach(d, gain, limit)
    ensures Abs(AxisRest(d, gain, limit)) <= gain / 2.0
  {
    var q := d / gain;
    assert q * gain == d;
    NearStep(q, Round(q), gain);
  }

  lemma AxisFar(d: real, gain: real, limit: int)
    requires gain > 0.0 && limit >= 0 && !AxisInReach(d, gain, limit)
    ensures Abs(AxisRest(d, gain, limit)) == Abs(d) - Times(gain, limit) > 0.0
    ensures AxisRest(d, gain, limit) > 0.0 <==> d > 0.0
  {
    var q := d / gain;
    assert q * gain == d;
    TimesMonotone(gain, 0, limit);
    if Round(q) > limit {
      FarStep(q, limit, gain);
    } else {
      FarStep(-q, limit, gain);
      assert (-q) * gain == -d;
      TimesNegated(gain, limit);
    }
  }

  /** With the true gain an unclamped axis comes within half a gain of the target; a clamped one comes
      strictly closer by the whole reach, and does not overshoot. */
  lemma AxisStep(d: real, gain: real, limit: int)
    requires GAIN_MIN <= gain <= GAIN_MAX && 0 < limit
    ensures var rest := AxisRest(d, gain, limit);
      if AxisInReach(d, gain, limit) then Abs(rest) <= gain / 2.0
      else Abs(rest) == Abs(d) - Times(gain, limit) && 0.0 < Abs(rest) < Abs(d) && (rest > 0.0 <==> d > 0.0)
  {
    if AxisInReach(d, gain, limit) {
      AxisNear(d, gain, limit);
    } else {
      AxisFar(d, gain, limit);
      TimesAbs(gain, limit);
    }
  }

  // ----- convergence

  const REACH_X := SAFE_RIGHT - SAFE_LEFT
  const REACH_Y := SAFE_BOTTOM - SAFE_TOP

  /** Within the move of `k` full fast swipes. */
  predicate Reach(delta: Point, gain: real, k: nat) {
    Abs(delta.x) <= Times(gain, REACH_X * k) && Abs(delta.y) <= Times(gain, REACH_Y * k)
  }

  lemma AxisShrinks(d: real, gain: real, limit: int, k: nat)
    requires GAIN_MIN <= gain <= GAIN_MAX && 0 < limit && 0 < k && Abs(d) <= Times(gain, limit * k)
    ensures var rest := Abs(AxisRest(d, gain, limit));
      rest <= gain / 2.0 || (2 <= k && rest <= Times(gain, limit * (k - 1)))
    ensures gain / 2.0 <= Times(gain, limit)
  {
    assert k == 1 ==> limit * k == limit;
    AxisStep(d, gain, limit);
    TimesSum(gain, limit * (k - 1), limit);
    assert limit * (k - 1) + limit == limit * k;
    TimesMonotone(gain, 1, limit);
  }

  lemma ReachAtLeast(gain: real, limit: int, k: nat)
    requires GAIN_MIN <= gain && 0 < limit && 1 <= k
    ensures Times(gain, limit) <= Times(gain, limit * k)
  {
    assert limit <= limit * k by {
      assert limit * k == limit + limit * (k - 1);
    }
    TimesMonotone(gain, limit, limit * k);
  }

  /** A fast attempt with the true gain arrives, or is one swipe nearer. */
  lemma FastShrinks(delta: Point, gain: real, k: nat)
    requires GAIN_MIN <= gain <= GAIN_MAX && 0 < k && Reach(delta, gain, k)
    ensures var rest := Point(AxisRest(delta.x, gain, REACH_X), AxisRest(delta.y, gain, REACH_Y));
      Norm(rest) <= TOLERANCE_PX || (2 <= k && Reach(rest, gain, k - 1))
  {
    AxisShrinks(delta.x, gain, REACH_X, k);
    AxisShrinks(delta.y, gain, REACH_Y, k);
    if 2 <= k {
      ReachAtLeast(gain, REACH_X, k - 1);
      ReachAtLeast(gain, REACH_Y, k - 1);
    }
  }

  /** A fast attempt with a wrong gain misses by at most one more swipe. */
  lemma FastMisses(delta: Point, net: Delta, gain: real, k: nat)
    requires GAIN_MIN <= gain && Reach(delta, gain, k)
    requires -REACH_X <= net.x <= REACH_X && -REACH_Y <= net.y <= REACH_Y
    ensures Reach(Rest(delta, net, gain), gain, k + 1)
  {
    AxisMisses(delta.x, net.x, gain, REACH_X, k);
    AxisMisses(delta.y, net.y, gain, REACH_Y, k);
  }

  lemma AxisMisses(d: real, n: int, gain: real, limit: int, k: nat)
    requires GAIN_MIN <= gain && Abs(d) <= Times(gain, limit * k) && -limit <= n <= limit
    ensures Abs(d - Times(gain, n)) <= Times(gain, limit * (k + 1))
  {
    TimesSum(gain, limit * k, limit);
    assert limit * k + limit == limit * (k + 1);
    TimesMonotone(gain, n, limit);
    TimesMonotone(gain, -limit, n);
    TimesNegated(gain, limit);
  }

  const SLOW_MISS := 19

  /** A slow attempt with a wrong gain leaves at most the way of this many fast swipes. */
  lemma SlowMisses(delta: Point, net: Delta, slow: real, fast: real)
    requires GAIN_MIN <= slow <= GAIN_MAX && GAIN_MIN <= fast
    requires Norm(delta) <= FAST_ABOVE_PX && Length(net) <= 600
    ensures Reach(Rest(delta, net, slow), fast, SLOW_MISS)
  {
    AxisSlowMisses(delta.x, net.x, slow);
    AxisSlowMisses(delta.y, net.y, slow);
    LongReach(fast, REACH_X * SLOW_MISS);
    LongReach(fast, REACH_Y * SLOW_MISS);
  }

  lemma AxisSlowMisses(d: real, n: int, slow: real)
    requires GAIN_MIN <= slow <= GAIN_MAX && Abs(d) <= FAST_ABOVE_PX && AbsInt(n) <= 600
    ensures Abs(d - Times(slow, n)) <= 2520.0
  {
    TimesAbs(slow, n);
    TimesMonotone(slow, AbsInt(n), 600);
    assert Times(slow, 600) <= 2400.0;
  }

  lemma LongReach(fast: real, n: int)
    requires GAIN_MIN <= fast && 12730 <= n
    ensures 2520.0 <= Times(fast, n)
  {
    TimesMonotone(fast, 12730, n);
    assert Times(fast, 12730) >= 0.2 * 12730.0;
  }

  /** What an attempt leaves when it uses the true gain of its speed. */
  lemma KnownRest(delta: Point, gains: Gains, truth: Gains)
    requires InRange(gains) && InRange(truth) && Norm(delta) > TOLERANCE_PX
    requires gains.Of(SpeedFor(delta)) == truth.Of(SpeedFor(delta))
    ensures var rest := Rest(delta, NetMove(delta, gains), truth.Of(SpeedFor(delta)));
      if SpeedFor(delta) == Slow then Norm(rest) <= TOLERANCE_PX
      else rest == Point(AxisRest(delta.x, truth.fast, REACH_X), AxisRest(delta.y, truth.fast, REACH_Y))
  {
    if SpeedFor(delta) == Slow {
      NetMoveBounds(delta, gains);
      AxisNear(delta.x, truth.slow, 600);
      AxisNear(delta.y, truth.slow, 600);
    }
  }

  /** The attempts that are enough: one per full swipe of the way, and some for each gain not yet known. */
  function Enough(gains: Gains, truth: Gains, k: nat): nat {
    k + (if gains.slow == truth.slow then 0 else SLOW_MISS + 1) + (if gains.fast == truth.fast then 0 else 2)
  }

  lemma ArrivedRun(h: Hand, origin: Point, truth: Gains, target: Point, attempts: nat)
    requires InRange(h.gains) && Norm(Left(h, origin, truth, target)) <= TOLERANCE_PX
    ensures Run(h, LinearWorld(origin, truth), target, attempts).1
  {
  }

  lemma NothingLeft(delta: Point, gain: real)
    requires Reach(delta, gain, 0)
    ensures Norm(delta) <= TOLERANCE_PX
  {
  }

  lemma NetMoveClamped(delta: Point, gains: Gains)
    requires InRange(gains) && SpeedFor(delta) == Fast
    ensures var net := NetMove(delta, gains); -REACH_X <= net.x <= REACH_X && -REACH_Y <= net.y <= REACH_Y
  {
  }

  /** One attempt on a linear pointer arrives, or leaves a way for which the attempts left are enough. */
  lemma AttemptProgress(h: Hand, origin: Point, truth: Gains, target: Point, k: nat) returns (next: nat)
    requires InRange(h.gains) && InRange(truth) && Reach(Left(h, origin, truth, target), truth.fast, k)
    requires Norm(Left(h, origin, truth, target)) > TOLERANCE_PX
    ensures var after := Attempt(h, LinearWorld(origin, truth), target).0;
      && Enough(h.gains, truth, k) > 0
      && (Norm(Left(after, origin, truth, target)) <= TOLERANCE_PX ||
          (Reach(Left(after, origin, truth, target), truth.fast, next) &&
           Enough(after.gains, truth, next) < Enough(h.gains, truth, k)))
  {
    var delta := Left(h, origin, truth, target);
    LinearAttempt(h, origin, truth, target);
    if k == 0 {
      NothingLeft(delta, truth.fast);
    }
    if h.gains.Of(SpeedFor(delta)) == truth.Of(SpeedFor(delta)) {
      KnownRest(delta, h.gains, truth);
      FastShrinks(delta, truth.fast, k);
      next := k - 1;
    } else if SpeedFor(delta) == Fast {
      NetMoveClamped(delta, h.gains);
      FastMisses(delta, NetMove(delta, h.gains), truth.fast, k);
      next := k + 1;
    } else {
      NetMoveBounds(delta, h.gains);
      SlowMisses(delta, NetMove(delta, h.gains), truth.slow, truth.fast);
      next := SLOW_MISS;
    }
  }

  lemma RunGoesOn(h: Hand, world: World, target: Point, attempts: nat)
    requires InRange(h.gains) && 0 < attempts
    requires Report(h, world).Some? && !Close(Report(h, world).value, target)
    ensures var after := Attempt(h, world, target).0;
      InRange(after.gains) && Run(h, world, target, attempts) == Run(after, world, target, attempts - 1)
  {
    AttemptKeepsRange(h, world, target);
  }

  /** On every linear pointer the loop arrives: after as many attempts as full fast swipes make up the
      way, once both gains are known, and after a fixed number more from any gains. */
  lemma {:induction false} Converges(h: Hand, origin: Point, truth: Gains, target: Point, k: nat, attempts: nat)
    requires InRange(h.gains) && InRange(truth)
    requires Reach(Left(h, origin, truth, target), truth.fast, k) && Enough(h.gains, truth, k) <= attempts
    ensures Run(h, LinearWorld(origin, truth), target, attempts).1
    decreases attempts
  {
    if Norm(Left(h, origin, truth, target)) <= TOLERANCE_PX {
      ArrivedRun(h, origin, truth, target, attempts);
    } else {
      var after := Attempt(h, LinearWorld(origin, truth), target).0;
      var next := AttemptProgress(h, origin, truth, target, k);
      RunGoesOn(h, LinearWorld(origin, truth), target, attempts);
      if Norm(Left(after, origin, truth, target)) <= TOLERANCE_PX {
        ArrivedRun(after, origin, truth, target, attempts - 1);
      } else {
        Converges(after, origin, truth, target, next, attempts - 1);
      }
    }
  }

  const ATTEMPTS := 14

  /** Across the whole 1920x1080 screen the default number of attempts is enough once the gains are
      known, and 31 are enough from any gains. */
  lemma ScreenConverges(h: Hand, origin: Point, truth: Gains, target: Point, attempts: nat)
    requires InRange(h.gains) && InRange(truth)
    requires var delta := Left(h, origin, truth, target); Abs(delta.x) <= 1920.0 && Abs(delta.y) <= 1080.0
    requires attempts >= if h.gains == truth then ATTEMPTS else 31
    ensures Run(h, LinearWorld(origin, truth), target, attempts).1
  {
    ScreenReach(truth.fast);
    Converges(h, origin, truth, target, 9, attempts);
  }

  lemma ScreenReach(fast: real)
    requires GAIN_MIN <= fast
    ensures 1920.0 <= Times(fast, REACH_X * 9) && 1080.0 <= Times(fast, REACH_Y * 9)
  {
    assert fast * (REACH_X * 9) as real >= 0.2 * 14400.0;
    assert fast * (REACH_Y * 9) as real >= 0.2 * 6030.0;
  }

  // ----- the held drag

  /** The points of a held drag: from the start over eight steps, dividing as Python does. */
  function DragPoint(d: Delta, step: nat): (int, int) {
    var (x, y) := StartFor(d);
    (x + d.x * step / 8, y + d.y * step / 8)
  }

  lemma PartWay(n: int, step: nat)
    requires step <= 8
    ensures 0 <= n ==> 0 <= n * step / 8 <= n
    ensures n <= 0 ==> n <= n * step / 8 <= 0
  {
    assert 0 <= n ==> 0 <= n * step <= n * 8;
    assert n <= 0 ==> n * 8 <= n * step <= 0;
  }

  /** Unlike a swipe a drag is not clamped: it stays in the safe zone exactly if its whole move fits. */
  lemma DragInside(d: Delta)
    ensures (forall step: nat | step <= 8 :: Safe(DragPoint(d, step).0, DragPoint(d, step).1)) <==>
      -1600 <= d.x <= 1600 && -670 <= d.y <= 670
  {
    if AbsInt(d.x) <= REACH_X && AbsInt(d.y) <= REACH_Y {
      forall step: nat | step <= 8 ensures Safe(DragPoint(d, step).0, DragPoint(d, step).1) {
        PartWay(d.x, step);
        PartWay(d.y, step);
      }
    } else {
      assert DragPoint(d, 8) == (StartFor(d).0 + d.x, StartFor(d).1 + d.y);
      assert !Safe(DragPoint(d, 8).0, DragPoint(d, 8).1);
    }
  }
}
