/** The pixel checks of src/wayland_vnc/image_evidence.py. An image is its rows of red, green and blue
    values; a row is sampled every `max(1, height // 120)` rows. */
module ImageEvidence {
  import opened Results
  import opened Markers

  datatype Color = Color(red: int, green: int, blue: int)

  type Row = seq<Color>

  datatype Image = Image(width: nat, rows: seq<Row>) {
    predicate Valid() {
      forall y | 0 <= y < |rows| :: |rows[y]| == width
    }
  }

  const RED := Color(255, 0, 0)
  const GREEN := Color(0, 255, 0)
  const BLUE := Color(0, 0, 255)
  const WHITE := Color(255, 255, 255)
  const TARGETS := [RED, GREEN, BLUE, WHITE]

  function Distance(a: int, b: int): nat {
    if a < b then b - a else a - b
  }

  predicate Near(pixel: Color, target: Color, tolerance: int) {
    && Distance(pixel.red, target.red) <= tolerance
    && Distance(pixel.green, target.green) <= tolerance
    && Distance(pixel.blue, target.blue) <= tolerance
  }

  /** Near is at most the tolerance away in each of the three channels; with none, it is the colour itself. */
  lemma NearExactly(pixel: Color, target: Color, tolerance: int)
    ensures Near(pixel, target, tolerance) <==>
      && target.red - tolerance <= pixel.red <= target.red + tolerance
      && target.green - tolerance <= pixel.green <= target.green + tolerance
      && target.blue - tolerance <= pixel.blue <= target.blue + tolerance
    ensures Near(pixel, target, 0) <==> pixel == target
  {
  }

  // ----- one row

  /** Which pixels of a row are near the target. */
  type Hits = seq<bool>

  function HitsOf(row: Row, target: Color, tolerance: int): (hits: Hits)
    ensures |hits| == |row| && forall x | 0 <= x < |row| :: hits[x] == Near(row[x], target, tolerance)
  {
    seq(|row|, x requires 0 <= x < |row| => Near(row[x], target, tolerance))
  }

  function AllHits(row: Row, targets: seq<Color>, tolerance: int): (all: seq<Hits>)
    ensures |all| == |targets| && forall k | 0 <= k < |targets| :: all[k] == HitsOf(row, targets[k], tolerance)
  {
    seq(|targets|, k requires 0 <= k < |targets| => HitsOf(row, targets[k], tolerance))
  }

  /** The columns `from` up to `to`. */
  datatype Span = Span(from: int, to: int)

  predicate Every(hits: Hits, from: int, to: int, hit: bool)
    requires 0 <= from && to <= |hits|
  {
    forall x | from <= x < to :: hits[x] == hit
  }

  /** The first run of hits at or after a column, and all of it. */
  predicate FirstRun(hits: Hits, cursor: int, span: Span) {
    && 0 <= cursor <= span.from <= span.to <= |hits|
    && Every(hits, cursor, span.from, false) && Every(hits, span.from, span.to, true)
    && (span.from < |hits| ==> span.from < span.to)
    && (span.to < |hits| ==> !hits[span.to])
  }

  lemma FirstRunUnique(hits: Hits, cursor: int, a: Span, b: Span)
    requires FirstRun(hits, cursor, a) && FirstRun(hits, cursor, b)
    ensures a == b
  {
    assert a.from < |hits| ==> hits[a.from];
    assert b.from < |hits| ==> hits[b.from];
    assert a.from == b.from;
    assert a.to < |hits| ==> !hits[a.to];
    assert b.to < |hits| ==> !hits[b.to];
  }

  function End(spans: seq<Span>): int {
    if spans == [] then 0 else spans[|spans| - 1].to
  }

  predicate WideRun(hits: Hits, cursor: int, span: Span, minimum: int) {
    FirstRun(hits, cursor, span) && minimum <= span.to - span.from
  }

  /** The first targets each have their first run, one after the other, at least `minimum` wide. */
  ghost predicate Bars(all: seq<Hits>, minimum: int, spans: seq<Span>) {
    spans == [] ||
    (var n := |spans| - 1;
     |spans| <= |all| && Bars(all, minimum, spans[..n]) && WideRun(all[n], End(spans[..n]), spans[n], minimum))
  }

  function Center(span: Span): int {
    (span.from + span.to - 1) / 2
  }

  function Centers(spans: seq<Span>): seq<int> {
    if spans == [] then [] else Centers(spans[..|spans| - 1]) + [Center(spans[|spans| - 1])]
  }

  /** The next target has a first run, but too narrow a one. */
  ghost predicate Narrow(all: seq<Hits>, minimum: int, spans: seq<Span>)
    requires |spans| < |all|
  {
    exists span :: FirstRun(all[|spans|], End(spans), span) && span.to - span.from < minimum
  }

  /** The loop over the targets. It stops at the first one without a wide enough run. */
  method ScanRow(row: Row, targets: seq<Color>, tolerance: int, minimum: int)
      returns (centers: seq<int>, ghost spans: seq<Span>)
    ensures centers == Centers(spans) && Bars(AllHits(row, targets, tolerance), minimum, spans)
    ensures |spans| == |targets| || Narrow(AllHits(row, targets, tolerance), minimum, spans)
  {
    centers, spans := [], [];
    ghost var all := AllHits(row, targets, tolerance);
    var cursor := 0;
    for k := 0 to |targets|
      invariant |spans| == k && cursor == End(spans) && 0 <= cursor <= |row|
      invariant centers == Centers(spans) && Bars(all, minimum, spans)
    {
      var start, stop := NextRun(row, cursor, targets[k], tolerance);
      assert all[k] == HitsOf(row, targets[k], tolerance);
      if stop - start < minimum {
        assert FirstRun(all[k], End(spans), Span(start, stop));
        return;
      }
      BarsMore(all, minimum, spans, Span(start, stop));
      assert (spans + [Span(start, stop)])[..k] == spans;
      centers := centers + [(start + stop - 1) / 2];
      spans := spans + [Span(start, stop)];
      cursor := stop;
    }
  }

  /** `_row_centers`: a centre for every target exactly if the row can be cut into wide enough runs; the
      centres found always rise and lie on pixels near their targets. */
  method RowCenters(row: Row, targets: seq<Color>, tolerance: int, minimum: int) returns (centers: seq<int>)
    ensures |centers| == |targets| <==> Complete(AllHits(row, targets, tolerance), minimum)
    ensures 1 <= minimum ==> Fit(row, targets, tolerance, centers)
  {
    ghost var spans: seq<Span>;
    centers, spans := ScanRow(row, targets, tolerance, minimum);
    SpansFit(row, targets, tolerance, minimum, spans);
    if |spans| < |targets| {
      StoppedShort(AllHits(row, targets, tolerance), minimum, spans);
    }
  }

  /** Columns that rise from one target to the next, each of a pixel near its target. */
  predicate Fit(row: Row, targets: seq<Color>, tolerance: int, centers: seq<int>) {
    && |centers| <= |targets|
    && (forall k | 0 <= k < |centers| :: 0 <= centers[k] < |row| && Near(row[centers[k]], targets[k], tolerance))
    && forall i, j | 0 <= i < j < |centers| :: centers[i] < centers[j]
  }

  lemma SpansFit(row: Row, targets: seq<Color>, tolerance: int, minimum: int, spans: seq<Span>)
    requires Bars(AllHits(row, targets, tolerance), minimum, spans)
    ensures |Centers(spans)| == |spans|
    ensures 1 <= minimum ==> Fit(row, targets, tolerance, Centers(spans))
  {
    var all := AllHits(row, targets, tolerance);
    if spans != [] {
      CenterAt(spans, 0);
    }
    if 1 <= minimum {
      forall k | 0 <= k < |spans|
        ensures 0 <= Centers(spans)[k] < |row| && Near(row[Centers(spans)[k]], targets[k], tolerance)
      {
        CenterAt(spans, k);
        BarsInOrder(all, minimum, spans, k, k);
        assert all[k] == HitsOf(row, targets[k], tolerance);
      }
      forall i, j | 0 <= i < j < |spans| ensures Centers(spans)[i] < Centers(spans)[j] {
        CenterAt(spans, i);
        CenterAt(spans, j);
        BarsInOrder(all, minimum, spans, i, j);
      }
    }
  }

  /** The two inner loops: to the first pixel near the target, and past the last of its run. */
  method NextRun(row: Row, from: int, target: Color, tolerance: int) returns (start: int, stop: int)
    requires 0 <= from <= |row|
    ensures FirstRun(HitsOf(row, target, tolerance), from, Span(start, stop))
  {
    ghost var hits := HitsOf(row, target, tolerance);
    var cursor := from;
    while cursor < |row| && !Near(row[cursor], target, tolerance)
      invariant from <= cursor <= |row| && Every(hits, from, cursor, false)
    {
      cursor := cursor + 1;
    }
    start := cursor;
    while cursor < |row| && Near(row[cursor], target, tolerance)
      invariant start <= cursor <= |row| && Every(hits, start, cursor, true)
      invariant start < |row| && cursor == start ==> hits[start]
    {
      cursor := cursor + 1;
    }
    stop := cursor;
  }

  lemma {:induction false} CenterAt(spans: seq<Span>, k: nat)
    requires k < |spans|
    ensures |Centers(spans)| == |spans| && Centers(spans)[k] == Center(spans[k])
  {
    var n := |spans| - 1;
    if n > 0 {
      CenterAt(spans[..n], if k < n then k else 0);
    }
  }

  lemma BarsMore(all: seq<Hits>, minimum: int, spans: seq<Span>, span: Span)
    requires |spans| < |all| && Bars(all, minimum, spans) && WideRun(all[|spans|], End(spans), span, minimum)
    ensures Bars(all, minimum, spans + [span])
  {
    assert (spans + [span])[..|spans|] == spans;
  }

  lemma {:induction false} BarsFirst(all: seq<Hits>, minimum: int, spans: seq<Span>, k: nat)
    requires Bars(all, minimum, spans) && k <= |spans|
    ensures Bars(all, minimum, spans[..k])
  {
    if k < |spans| {
      BarsFirst(all, minimum, spans[..|spans| - 1], k);
      assert spans[..|spans| - 1][..k] == spans[..k];
    } else {
      assert spans[..k] == spans;
    }
  }

  /** There is only one way to cut a row. */
  lemma {:induction false} BarsUnique(all: seq<Hits>, minimum: int, a: seq<Span>, b: seq<Span>)
    requires Bars(all, minimum, a) && Bars(all, minimum, b) && |a| == |b|
    ensures a == b
  {
    if a == [] {
    } else {
      var n := |a| - 1;
      BarsUnique(all, minimum, a[..n], b[..n]);
      FirstRunUnique(all[n], End(a[..n]), a[n], b[n]);
      assert a == a[..n] + [a[n]] && b == b[..n] + [b[n]];
    }
  }

  ghost predicate Complete(all: seq<Hits>, minimum: int) {
    exists spans :: |spans| == |all| && Bars(all, minimum, spans)
  }

  /** A scan that stopped short means that no cut of the row has all the targets. */
  lemma StoppedShort(all: seq<Hits>, minimum: int, spans: seq<Span>)
    requires |spans| < |all| && Bars(all, minimum, spans) && Narrow(all, minimum, spans)
    ensures !Complete(all, minimum)
  {
    var k := |spans|;
    var short :| FirstRun(all[k], End(spans), short) && short.to - short.from < minimum;
    forall whole: seq<Span> | |whole| == |all| ensures !Bars(all, minimum, whole) {
      if Bars(all, minimum, whole) {
        BarsFirst(all, minimum, whole, k + 1);
        BarsUnique(all, minimum, spans, whole[..k + 1][..k]);
        FirstRunUnique(all[k], End(spans), short, whole[..k + 1][k]);
      }
    }
  }

  /** The runs do not overlap, their centres rise, and each centre is a pixel near its target. */
  lemma {:induction false} BarsInOrder(all: seq<Hits>, minimum: int, spans: seq<Span>, i: nat, j: nat)
    requires Bars(all, minimum, spans) && 1 <= minimum && i <= j < |spans|
    ensures 0 <= spans[j].from <= Center(spans[j]) < spans[j].to <= |all[j]| && all[j][Center(spans[j])]
    ensures minimum <= spans[j].to - spans[j].from
    ensures i < j ==> spans[i].to <= spans[j].from && Center(spans[i]) < Center(spans[j])
    ensures var left, right := Center(spans[j]) - spans[j].from, spans[j].to - 1 - Center(spans[j]);
      left <= right <= left + 1
    decreases |spans|
  {
    var n := |spans| - 1;
    if j < n {
      BarsInOrder(all, minimum, spans[..n], i, j);
    } else if i < n {
      BarsInOrder(all, minimum, spans[..n], i, n - 1);
    }
  }

  // ----- the sampled rows of an image

  function Step(height: nat): nat {
    if height / 120 < 1 then 1 else height / 120
  }

  predicate OnStep(height: nat, y: nat) {
    y % Step(height) == 0
  }

  predicate Sampled(height: nat, y: nat) {
    y < height && OnStep(height, y)
  }

  /** The rows are sampled as far apart as still gives 120 of them, or one by one where there are not as many. */
  lemma StepExactly(height: nat)
    ensures 1 <= Step(height)
    ensures if height < 120 then Step(height) == 1 else 120 * Step(height) <= height < 120 * (Step(height) + 1)
  {
  }

  /** As many rows as the step always include a sampled one. */
  lemma SampleInBlock(height: nat, top: nat, rows: nat) returns (y: nat)
    requires Step(height) <= rows && top + rows <= height
    ensures top <= y < top + rows && Sampled(height, y)
  {
    var step := Step(height);
    y := if top % step == 0 then top else top - top % step + step;
    if top % step != 0 {
      NextMultiple(top, step);
    }
  }

  lemma Distributed(step: int, a: int, b: int)
    ensures step * a + step * b == step * (a + b)
  {
  }

  lemma AtLeastOnce(step: int, n: int)
    requires 0 < step && 1 <= n
    ensures step <= step * n
  {
  }

  lemma NextFactor(step: int, a: int, b: int)
    requires 0 < step && a < b
    ensures step * a + step <= step * b
  {
    Distributed(step, a, b - a);
    AtLeastOnce(step, b - a);
  }

  lemma MultipleOf(n: int, step: int, q: int)
    requires 0 < step && n == step * q
    ensures n % step == 0
  {
    var p := n / step;
    assert n == step * p + n % step;
    if p < q {
      NextFactor(step, p, q);
    } else if q < p {
      NextFactor(step, q, p);
    }
  }

  lemma NextMultiple(n: nat, step: nat)
    requires 0 < step
    ensures (n - n % step + step) % step == 0
  {
    Distributed(step, n / step, 1);
    MultipleOf(n - n % step + step, step, n / step + 1);
  }

  lemma NextOnStep(height: nat, y: nat)
    requires OnStep(height, y)
    ensures OnStep(height, y + Step(height))
  {
    NextMultiple(y, Step(height));
  }

  // ----- bands in a fixed order

  const SCENE_SHARE := 12

  datatype Match = Match(row: nat, centers: seq<int>)

  ghost predicate CompleteAt(image: Image, y: nat, targets: seq<Color>, tolerance: int, minimum: int) {
    y < |image.rows| && Complete(AllHits(image.rows[y], targets, tolerance), minimum)
  }

  /** The first sampled row that holds the whole band, of an image big enough to judge. */
  method FindBand(image: Image, targets: seq<Color>, share: nat, tolerance: int) returns (r: Result<Match>)
    requires image.Valid() && 0 < share <= 400
    ensures r.Ok? <==> 0 <= tolerance <= 64 && 400 <= image.width && 200 <= |image.rows| && exists y: nat ::
      Sampled(|image.rows|, y) && CompleteAt(image, y, targets, tolerance, image.width / share)
    ensures r.Ok? ==> Found(image, targets, tolerance, image.width / share, r.value)
  {
    if !(0 <= tolerance <= 64) {
      return Err("ValueError");
    }
    if image.width < 400 || |image.rows| < 200 {
      return Err("ValueError");
    }
    Share(image.width, share);
    var found := FindRow(image, targets, tolerance, image.width / share);
    r := if found.Some? then Ok(found.value) else Err("ValueError");
  }

  method FindRow(image: Image, targets: seq<Color>, tolerance: int, minimum: int) returns (found: Option<Match>)
    requires image.Valid() && 1 <= minimum
    ensures found.None? ==> NoneBefore(image, |image.rows|, targets, tolerance, minimum)
    ensures found.Some? ==> Found(image, targets, tolerance, minimum, found.value)
  {
    var y := 0;
    while y < |image.rows|
      invariant OnStep(|image.rows|, y) && NoneBefore(image, y, targets, tolerance, minimum)
    {
      var centers := RowCenters(image.rows[y], targets, tolerance, minimum);
      if |centers| == |targets| {
        return Some(Match(y, centers));
      }
      NoneUpTo(image, y, targets, tolerance, minimum);
      NextOnStep(|image.rows|, y);
      y := y + Step(|image.rows|);
    }
    found := None;
  }

  lemma Share(width: nat, share: nat)
    requires 0 < share <= 400 <= width
    ensures 1 <= width / share
  {
  }

  /** A match is on a sampled row, in order, on pixels near the targets, and no sampled row above holds the band. */
  ghost predicate Found(image: Image, targets: seq<Color>, tolerance: int, minimum: int, m: Match) {
    && Sampled(|image.rows|, m.row) && CompleteAt(image, m.row, targets, tolerance, minimum)
    && NoneBefore(image, m.row, targets, tolerance, minimum)
    && |m.centers| == |targets| && Fit(image.rows[m.row], targets, tolerance, m.centers)
  }

  ghost predicate NoneBefore(image: Image, y: nat, targets: seq<Color>, tolerance: int, minimum: int) {
    forall z: nat | z < y && Sampled(|image.rows|, z) :: !CompleteAt(image, z, targets, tolerance, minimum)
  }

  lemma NoneUpTo(image: Image, y: nat, targets: seq<Color>, tolerance: int, minimum: int)
    requires NoneBefore(image, y, targets, tolerance, minimum) && OnStep(|image.rows|, y)
    requires !CompleteAt(image, y, targets, tolerance, minimum)
    ensures NoneBefore(image, y + Step(|image.rows|), targets, tolerance, minimum)
  {
    forall z: nat | y < z < y + Step(|image.rows|) ensures !Sampled(|image.rows|, z) {
      NoMultipleBetween(y, z, Step(|image.rows|));
    }
  }

  lemma NoMultipleBetween(y: nat, z: nat, step: nat)
    requires 0 < step && y % step == 0 && y < z < y + step
    ensures z % step != 0
  {
    if z % step == 0 {
      if y / step < z / step {
        NextFactor(step, y / step, z / step);
      } else if z / step < y / step {
        NextFactor(step, z / step, y / step);
      }
    }
  }

  // ----- a block of solid bars is always found

  /** Solid bars from cut to cut, one per target, after a margin without the first target's colour. */
  predicate Solid(row: Row, targets: seq<Color>, tolerance: int, minimum: int, cuts: seq<int>) {
    && 0 < |targets| && |cuts| == |targets| + 1 && 0 <= cuts[0] && cuts[|targets|] <= |row|
    && (forall k | 0 <= k < |targets| :: cuts[k] + minimum <= cuts[k + 1])
    && (forall x | 0 <= x < cuts[0] <= |row| :: !Near(row[x], targets[0], tolerance))
    && forall k | 0 <= k < |targets| :: Bar(row, cuts[k], cuts[k + 1], targets[k])
  }

  predicate Bar(row: Row, from: int, to: int, color: Color) {
    0 <= from <= to <= |row| && forall x | from <= x < to :: row[x] == color
  }

  predicate FarApart(targets: seq<Color>, tolerance: int) {
    forall i, j | 0 <= i < |targets| && 0 <= j < |targets| :: Near(targets[i], targets[j], tolerance) <==> i == j
  }

  lemma TargetsFarApart(tolerance: int)
    requires 0 <= tolerance <= 64
    ensures FarApart(TARGETS, tolerance)
  {
  }

  /** The run that goes on from hits already seen. */
  lemma RunOn(hits: Hits, from: int, sofar: int) returns (to: int)
    requires 0 <= from < sofar <= |hits| && Every(hits, from, sofar, true)
    ensures sofar <= to <= |hits| && Every(hits, from, to, true) && (to < |hits| ==> !hits[to])
  {
    to := sofar;
    while to < |hits| && hits[to]
      invariant sofar <= to <= |hits| && Every(hits, from, to, true)
    {
      to := to + 1;
    }
  }

  lemma {:induction false} SolidSpans(row: Row, targets: seq<Color>, tolerance: int, minimum: int, cuts: seq<int>, k: nat)
      returns (spans: seq<Span>)
    requires 1 <= minimum && Solid(row, targets, tolerance, minimum, cuts)
    requires FarApart(targets, tolerance) && 0 < k <= |targets|
    ensures |spans| == k && Bars(AllHits(row, targets, tolerance), minimum, spans)
    ensures k < |targets| ==> End(spans) == cuts[k]
  {
    var all := AllHits(row, targets, tolerance);
    var hits := HitsOf(row, targets[k - 1], tolerance);
    var before: seq<Span> := [];
    if 1 < k {
      before := SolidSpans(row, targets, tolerance, minimum, cuts, k - 1);
    }
    BarHits(row, targets, tolerance, cuts[k - 1], cuts[k], k - 1, k - 1);
    var to := RunOn(hits, cuts[k - 1], cuts[k]);
    if k < |targets| {
      BarHits(row, targets, tolerance, cuts[k], cuts[k + 1], k, k - 1);
      assert Every(hits, cuts[k], cuts[k + 1], false) && !hits[cuts[k]];
      assert to == cuts[k];
    }
    var span := Span(cuts[k - 1], to);
    assert all[k - 1] == hits && WideRun(hits, End(before), span, minimum);
    BarsMore(all, minimum, before, span);
    spans := before + [span];
  }

  /** A bar of one target's colour holds hits of that target and of no other. */
  lemma BarHits(row: Row, targets: seq<Color>, tolerance: int, from: int, to: int, colored: nat, asked: nat)
    requires colored < |targets| && asked < |targets| && FarApart(targets, tolerance)
    requires Bar(row, from, to, targets[colored])
    ensures Every(HitsOf(row, targets[asked], tolerance), from, to, colored == asked)
  {
    assert Near(targets[colored], targets[asked], tolerance) <==> colored == asked;
  }

  lemma SolidComplete(row: Row, targets: seq<Color>, tolerance: int, minimum: int, cuts: seq<int>)
    requires 1 <= minimum && Solid(row, targets, tolerance, minimum, cuts)
    requires FarApart(targets, tolerance)
    ensures Complete(AllHits(row, targets, tolerance), minimum)
  {
    var spans := SolidSpans(row, targets, tolerance, minimum, cuts, |targets|);
  }

  ghost predicate SolidBlock(image: Image, tolerance: int, top: nat, rows: nat) {
    && top + rows <= |image.rows|
    && forall y | top <= y < top + rows ::
         exists cuts :: Solid(image.rows[y], TARGETS, tolerance, image.width / SCENE_SHARE, cuts)
  }

  /** A block of four solid bars, as many rows tall as the sampling step, passes at every tolerance. */
  lemma SolidBlockIsFound(image: Image, tolerance: int, top: nat, rows: nat) returns (y: nat)
    requires image.Valid() && 0 <= tolerance <= 64 && 400 <= image.width && 200 <= |image.rows|
    requires Step(|image.rows|) <= rows && SolidBlock(image, tolerance, top, rows)
    ensures Sampled(|image.rows|, y) && CompleteAt(image, y, TARGETS, tolerance, image.width / SCENE_SHARE)
  {
    y := SampleInBlock(|image.rows|, top, rows);
    var cuts :| Solid(image.rows[y], TARGETS, tolerance, image.width / SCENE_SHARE, cuts);
    TargetsFarApart(tolerance);
    Share(image.width, SCENE_SHARE);
    SolidComplete(image.rows[y], TARGETS, tolerance, image.width / SCENE_SHARE, cuts);
  }

  method VerifyScene(image: Image, tolerance: int) returns (r: Result<Match>)
    requires image.Valid()
    ensures r.Ok? <==> 0 <= tolerance <= 64 && 400 <= image.width && 200 <= |image.rows| && exists y: nat ::
      Sampled(|image.rows|, y) && CompleteAt(image, y, TARGETS, tolerance, image.width / 12)
    ensures r.Ok? ==> Found(image, TARGETS, tolerance, image.width / 12, r.value)
  {
    r := FindBand(image, TARGETS, SCENE_SHARE, tolerance);
  }

  const BLACK := Color(0, 0, 0)

  /** One stray pixel of the first colour before the bars hides them all, whatever follows it. */
  lemma StrayPixelHides(bars: Row, tolerance: int, minimum: int)
    requires 0 <= tolerance <= 64 && 2 <= minimum
    ensures !Complete(AllHits([RED, BLACK] + bars, TARGETS, tolerance), minimum)
  {
    var row := [RED, BLACK] + bars;
    var all := AllHits(row, TARGETS, tolerance);
    assert all[0] == HitsOf(row, RED, tolerance);
    assert row[0] == RED && row[1] == BLACK;
    assert FirstRun(all[0], End([]), Span(0, 1));
    StoppedShort(all, minimum, []);
  }

  /** Solid bars from cut to cut, one per target, after a margin that holds no colour but the first target's. */
  predicate SolidAfter(row: Row, targets: seq<Color>, tolerance: int, minimum: int, cuts: seq<int>) {
    && 0 < |targets| && |cuts| == |targets| + 1 && 0 <= cuts[0] <= |row| && cuts[|targets|] <= |row|
    && (forall k | 0 <= k < |targets| :: cuts[k] + minimum <= cuts[k + 1])
    && (forall k | 1 <= k < |targets| :: Every(HitsOf(row, targets[k], tolerance), 0, cuts[0], false))
    && forall k | 0 <= k < |targets| :: Bar(row, cuts[k], cuts[k + 1], targets[k])
  }

  /** Once the first run is taken, the bars after the first follow, wherever that run was. */
  lemma {:induction false} SpansAfter(row: Row, targets: seq<Color>, tolerance: int, minimum: int, cuts: seq<int>,
                                      first: Span, k: nat) returns (spans: seq<Span>)
    requires 1 <= minimum && SolidAfter(row, targets, tolerance, minimum, cuts) && FarApart(targets, tolerance)
    requires WideRun(HitsOf(row, targets[0], tolerance), 0, first, minimum) && 0 < k <= |targets|
    ensures |spans| == k && Bars(AllHits(row, targets, tolerance), minimum, spans)
    ensures k < |targets| ==> 0 <= End(spans) <= cuts[k] && Every(HitsOf(row, targets[k], tolerance), End(spans), cuts[k], false)
  {
    var all := AllHits(row, targets, tolerance);
    if k == 1 {
      assert all[0] == HitsOf(row, targets[0], tolerance);
      BarsMore(all, minimum, [], first);
      spans := [first];
      assert [] + [first] == spans;
      if 1 < |targets| {
        FirstEnds(row, targets, tolerance, minimum, cuts, first);
      }
    } else {
      var before := SpansAfter(row, targets, tolerance, minimum, cuts, first, k - 1);
      var span := NextBar(row, targets, tolerance, minimum, cuts, End(before), k - 1);
      assert all[k - 1] == HitsOf(row, targets[k - 1], tolerance);
      BarsMore(all, minimum, before, span);
      spans := before + [span];
    }
  }

  lemma FirstEnds(row: Row, targets: seq<Color>, tolerance: int, minimum: int, cuts: seq<int>, first: Span)
    requires 1 <= minimum && SolidAfter(row, targets, tolerance, minimum, cuts) && FarApart(targets, tolerance)
    requires WideRun(HitsOf(row, targets[0], tolerance), 0, first, minimum) && 1 < |targets|
    ensures 0 <= first.to <= cuts[1] && Every(HitsOf(row, targets[1], tolerance), first.to, cuts[1], false)
  {
    BarHits(row, targets, tolerance, cuts[0], cuts[1], 0, 0);
    BarHits(row, targets, tolerance, cuts[0], cuts[1], 0, 1);
    BarHits(row, targets, tolerance, cuts[1], cuts[2], 1, 0);
    var hits := HitsOf(row, targets[0], tolerance);
    assert hits[cuts[0]] && !hits[cuts[1]];
  }

  lemma NextBar(row: Row, targets: seq<Color>, tolerance: int, minimum: int, cuts: seq<int>, from: int, k: nat)
      returns (span: Span)
    requires 1 <= minimum && SolidAfter(row, targets, tolerance, minimum, cuts) && FarApart(targets, tolerance)
    requires k < |targets| && 0 <= from <= cuts[k] <= |row| && Every(HitsOf(row, targets[k], tolerance), from, cuts[k], false)
    ensures WideRun(HitsOf(row, targets[k], tolerance), from, span, minimum)
    ensures k + 1 < |targets| ==> span.to == cuts[k + 1]
  {
    var hits := HitsOf(row, targets[k], tolerance);
    BarHits(row, targets, tolerance, cuts[k], cuts[k + 1], k, k);
    var to := RunOn(hits, cuts[k], cuts[k + 1]);
    if k + 1 < |targets| {
      BarHits(row, targets, tolerance, cuts[k + 1], cuts[k + 2], k + 1, k);
      assert !hits[cuts[k + 1]];
    }
    span := Span(cuts[k], to);
  }

  /** Behind such a margin the bars are found exactly if the first run of the first colour, in the margin or not, is
      wide enough: a narrow one hides them, a wide one is taken for the first bar. */
  lemma FirstRunDecides(row: Row, targets: seq<Color>, tolerance: int, minimum: int, cuts: seq<int>, first: Span)
    requires 1 <= minimum && SolidAfter(row, targets, tolerance, minimum, cuts) && FarApart(targets, tolerance)
    requires FirstRun(HitsOf(row, targets[0], tolerance), 0, first)
    ensures Complete(AllHits(row, targets, tolerance), minimum) <==> minimum <= first.to - first.from
  {
    var all := AllHits(row, targets, tolerance);
    assert all[0] == HitsOf(row, targets[0], tolerance);
    if minimum <= first.to - first.from {
      var spans := SpansAfter(row, targets, tolerance, minimum, cuts, first, |targets|);
    } else {
      StoppedShort(all, minimum, []);
    }
  }

  // ----- markers on their own

  const MARKERS := [KeyboardMarker, PointerMarker, ScrollMarker, DragMarker]

  function ColorOf(marker: Marker): Color {
    match marker
    case KeyboardMarker => Color(0, 255, 255)
    case PointerMarker => Color(255, 0, 255)
    case ScrollMarker => Color(255, 255, 0)
    case DragMarker => Color(255, 170, 0)
  }

  /** The eight colours: the four of the scene, then those of the markers. */
  const COLORS := TARGETS + [ColorOf(KeyboardMarker), ColorOf(PointerMarker), ColorOf(ScrollMarker), ColorOf(DragMarker)]

  lemma ColorsExactly()
    ensures COLORS == [
      Color(255, 0, 0), Color(0, 255, 0), Color(0, 0, 255), Color(255, 255, 255),
      Color(0, 255, 255), Color(255, 0, 255), Color(255, 255, 0), Color(255, 170, 0)]
  {
  }

  /** No pixel counts for two of the colours. */
  ghost predicate CountsOnce(tolerance: int) {
    forall pixel, i, j | 0 <= i < j < 8 :: !(Near(pixel, COLORS[i], tolerance) && Near(pixel, COLORS[j], tolerance))
  }

  /** That is so at exactly the tolerances up to 42, the usual 24 among them: from 43 on, one orange counts both for
      the scroll marker and for the drag marker. */
  lemma CountsOnceExactly(tolerance: int)
    ensures CountsOnce(tolerance) <==> tolerance <= 42
  {
    ColorsExactly();
    if 42 < tolerance {
      var orange := Color(255, 212, 0);
      assert Near(orange, COLORS[6], tolerance) && Near(orange, COLORS[7], tolerance);
    } else {
      forall pixel, i, j | 0 <= i < j < 8
        ensures !(Near(pixel, COLORS[i], tolerance) && Near(pixel, COLORS[j], tolerance))
      {
        ChannelApart(i, j);
      }
    }
  }

  /** Any two of the colours are 85 or more apart in some channel. */
  lemma ChannelApart(i: nat, j: nat)
    requires i < j < 8
    ensures var a, b := COLORS[i], COLORS[j];
      85 <= Distance(a.red, b.red) || 85 <= Distance(a.green, b.green) || 85 <= Distance(a.blue, b.blue)
  {
    ColorsExactly();
  }

  predicate RunAt(hits: Hits, from: int, length: int) {
    0 <= from && from + length <= |hits| && Every(hits, from, from + length, true)
  }

  /** An unbroken run of as many hits, ended by a column. */
  ghost predicate RunBefore(hits: Hits, to: int, length: int) {
    exists from :: RunAt(hits, from, length) && from + length <= to
  }

  /** `_row_holds_run`: a counter finds a run of that length exactly if the row has one. */
  method RowHoldsRun(row: Row, target: Color, tolerance: int, minimum: int) returns (holds: bool)
    requires 1 <= minimum
    ensures holds <==> RunBefore(HitsOf(row, target, tolerance), |row|, minimum)
  {
    ghost var hits := HitsOf(row, target, tolerance);
    var run := 0;
    for x := 0 to |row|
      invariant 0 <= run <= x && run < minimum && Every(hits, x - run, x, true)
      invariant run < x ==> !hits[x - run - 1]
      invariant !RunBefore(hits, x, minimum)
    {
      ghost var before := run;
      run := if Near(row[x], target, tolerance) then run + 1 else 0;
      if run >= minimum {
        assert RunAt(hits, x + 1 - minimum, minimum);
        return true;
      }
      NoRunMore(hits, x, before, minimum);
    }
    holds := false;
  }

  lemma NoRunMore(hits: Hits, x: nat, run: nat, minimum: int)
    requires x < |hits| && run <= x && 1 <= minimum && !RunBefore(hits, x, minimum)
    requires run < x ==> !hits[x - run - 1]
    requires hits[x] ==> run + 1 < minimum
    ensures !RunBefore(hits, x + 1, minimum)
  {
    forall from | from + minimum <= x + 1 ensures !RunAt(hits, from, minimum) {
      if from + minimum == x + 1 && 0 <= from {
        assert from <= x < from + minimum;
        assert hits[x] ==> from <= x - run - 1 < from + minimum;
      }
    }
  }

  ghost predicate Shown(image: Image, marker: Marker, tolerance: int, minimum: int, y: nat) {
    Sampled(|image.rows|, y) &&
    RunBefore(HitsOf(image.rows[y], ColorOf(marker), tolerance), |image.rows[y]|, minimum)
  }

  ghost predicate ShownBefore(image: Image, marker: Marker, tolerance: int, minimum: int, height: nat) {
    exists y: nat :: y < height && Shown(image, marker, tolerance, minimum, y)
  }

  /** `detect_markers`: exactly the markers with a run of a sixth of the width on some sampled row. */
  method DetectMarkers(image: Image, tolerance: int) returns (r: Result<set<Marker>>)
    requires image.Valid()
    ensures r.Ok? <==> 0 <= tolerance <= 64 && 6 <= image.width
    ensures r.Ok? ==> forall m :: m in r.value <==> ShownBefore(image, m, tolerance, image.width / 6, |image.rows|)
  {
    if !(0 <= tolerance <= 64) || image.width < 6 {
      return Err("ValueError");
    }
    var minimum := image.width / 6;
    var found: set<Marker> := {};
    var y := 0;
    while y < |image.rows|
      invariant OnStep(|image.rows|, y)
      invariant forall m :: m in found <==> ShownBefore(image, m, tolerance, minimum, y)
    {
      ghost var before := found;
      found := MarkersInRow(image.rows[y], tolerance, minimum, found);
      forall m ensures m in found <==> ShownBefore(image, m, tolerance, minimum, y + Step(|image.rows|)) {
        ShownMore(image, m, tolerance, minimum, y);
      }
      NextOnStep(|image.rows|, y);
      y := y + Step(|image.rows|);
    }
    forall m ensures m in found <==> ShownBefore(image, m, tolerance, minimum, |image.rows|) {
      ShownPastEnd(image, m, tolerance, minimum, y);
    }
    r := Ok(found);
  }

  lemma ShownPastEnd(image: Image, m: Marker, tolerance: int, minimum: int, y: nat)
    requires |image.rows| <= y
    ensures ShownBefore(image, m, tolerance, minimum, y) <==> ShownBefore(image, m, tolerance, minimum, |image.rows|)
  {
  }

  lemma ShownMore(image: Image, m: Marker, tolerance: int, minimum: int, y: nat)
    requires Sampled(|image.rows|, y)
    ensures ShownBefore(image, m, tolerance, minimum, y + Step(|image.rows|)) <==>
      ShownBefore(image, m, tolerance, minimum, y) || Shown(image, m, tolerance, minimum, y)
  {
    forall z: nat | y < z < y + Step(|image.rows|) ensures !Sampled(|image.rows|, z) {
      NoMultipleBetween(y, z, Step(|image.rows|));
    }
  }

  method MarkersInRow(row: Row, tolerance: int, minimum: int, before: set<Marker>) returns (found: set<Marker>)
    requires 1 <= minimum
    ensures forall m :: m in found <==> m in before || RunBefore(HitsOf(row, ColorOf(m), tolerance), |row|, minimum)
  {
    found := before;
    for k := 0 to |MARKERS|
      invariant forall m :: m in found <==>
        m in before || (m in MARKERS[..k] && RunBefore(HitsOf(row, ColorOf(m), tolerance), |row|, minimum))
    {
      if MARKERS[k] !in found {
        var holds := RowHoldsRun(row, ColorOf(MARKERS[k]), tolerance, minimum);
        if holds {
          found := found + {MARKERS[k]};
        }
      }
    }
    AllMarkers();
    assert MARKERS[..|MARKERS|] == MARKERS;
  }

  lemma AllMarkers()
    ensures forall m: Marker :: m in MARKERS
  {
    assert MARKERS[0] == KeyboardMarker && MARKERS[1] == PointerMarker;
    assert MARKERS[2] == ScrollMarker && MARKERS[3] == DragMarker;
    forall m: Marker ensures m in MARKERS {
      assert m == KeyboardMarker || m == PointerMarker || m == ScrollMarker || m == DragMarker;
    }
  }

  /** A band as tall as the sampling step is never missed: every row of it has a wide enough run. */
  lemma TallBandIsShown(image: Image, m: Marker, tolerance: int, minimum: int, top: nat, rows: nat)
    requires Step(|image.rows|) <= rows && top + rows <= |image.rows|
    requires forall y | top <= y < top + rows ::
      RunBefore(HitsOf(image.rows[y], ColorOf(m), tolerance), |image.rows[y]|, minimum)
    ensures ShownBefore(image, m, tolerance, minimum, |image.rows|)
  {
    var y := SampleInBlock(|image.rows|, top, rows);
    assert Shown(image, m, tolerance, minimum, y);
  }

  /** No marker is lost when the tolerance grows. */
  lemma ShownAtHigherTolerance(image: Image, m: Marker, low: int, high: int, minimum: int)
    requires low <= high && ShownBefore(image, m, low, minimum, |image.rows|)
    ensures ShownBefore(image, m, high, minimum, |image.rows|)
  {
    var y: nat :| y < |image.rows| && Shown(image, m, low, minimum, y);
    var narrow := HitsOf(image.rows[y], ColorOf(m), low);
    var wide := HitsOf(image.rows[y], ColorOf(m), high);
    var from :| RunAt(narrow, from, minimum) && from + minimum <= |narrow|;
    assert RunAt(wide, from, minimum) by {
      assert forall x | 0 <= x < |wide| && narrow[x] :: wide[x];
    }
    assert Shown(image, m, high, minimum, y);
  }

  /** A band that was found in order shows each of its markers on its own as well. */
  lemma CompleteIsShown(image: Image, y: nat, first: Marker, second: Marker, tolerance: int, minimum: int)
    requires 1 <= minimum && Sampled(|image.rows|, y)
    requires CompleteAt(image, y, [ColorOf(first), ColorOf(second)], tolerance, minimum)
    ensures Shown(image, first, tolerance, minimum, y) && Shown(image, second, tolerance, minimum, y)
  {
    var all := AllHits(image.rows[y], [ColorOf(first), ColorOf(second)], tolerance);
    var spans :| |spans| == |all| && Bars(all, minimum, spans);
    BarsInOrder(all, minimum, spans, 0, 0);
    BarsInOrder(all, minimum, spans, 1, 1);
    SpanIsRun(all, minimum, spans, 0);
    SpanIsRun(all, minimum, spans, 1);
  }

  lemma {:induction false} SpanIsRun(all: seq<Hits>, minimum: int, spans: seq<Span>, k: nat)
    requires 1 <= minimum && Bars(all, minimum, spans) && k < |spans|
    ensures RunBefore(all[k], |all[k]|, minimum)
  {
    BarsFirst(all, minimum, spans, k + 1);
    var span := spans[..k + 1][k];
    assert WideRun(all[k], End(spans[..k + 1][..k]), span, minimum);
    assert RunAt(all[k], span.from, minimum);
  }
}
