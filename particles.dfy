/** The field of particles: style options, sizing, population, the per-frame
    tick (update every particle, then connect close pairs) and the pointer. */
module ParticleSystem {
  import opened Wrappers
  import opened ParticleMath
  import opened Surface
  import opened ParticleEntity

  // ---------------------------------------------------------------- styles

  /** The recognised style options. */
  datatype StyleKey =
    | Background | ParticleColor | StrokeStyle
    | Position | Top | Left | Width | Height

  /** A style object: the value of each option that is set. */
  type Styles = map<StyleKey, string>

  /** The built-in palette and placement. */
  const DefaultStyles: Styles := map[
    Background := "radial-gradient(#1c1425, #07060b)",
    ParticleColor := "#bb95e1",
    StrokeStyle := "#bb95e1a8",
    Position := "absolute",
    Top := "0",
    Left := "0",
    Width := "100%",
    Height := "100%"
  ]

  /** Every recognised option has a value. */
  predicate Complete(styles: Styles) {
    forall k: StyleKey :: k in styles
  }

  /** The object spread `{...defaults, ...options}`: every option supplied
      overrides the default, every other one keeps its default. */
  function MergeStyles(defaults: Styles, options: Styles): (r: Styles)
    ensures forall k :: k in r <==> k in defaults || k in options
    ensures forall k :: k in options ==> r[k] == options[k]
    ensures forall k :: k in defaults && k !in options ==> r[k] == defaults[k]
  {
    defaults + options
  }

  /** The defaults give every option a value, so any merge with them does. */
  lemma MergedStylesComplete(options: Styles)
    ensures Complete(MergeStyles(DefaultStyles, options))
  {
    forall k: StyleKey ensures k in MergeStyles(DefaultStyles, options) {
      assert k in DefaultStyles by {
        match k
        case Background => case ParticleColor => case StrokeStyle =>
        case Position => case Top => case Left => case Width => case Height =>
      }
    }
  }

  /** Without options (the constructor called with no styles) the styles are
      the defaults. */
  lemma MergeStylesWithoutOptions(defaults: Styles)
    ensures MergeStyles(defaults, map[]) == defaults
  {
  }

  // ---------------------------------------------------------------- sizing

  /** The canvas size `setDimensions` chooses: the window's inner size when the
      host is the document body, the host's client size otherwise. */
  function HostSize(hostIsBody: bool, innerWidth: nat, innerHeight: nat,
                    clientWidth: nat, clientHeight: nat): (nat, nat)
  {
    if hostIsBody then (innerWidth, innerHeight) else (clientWidth, clientHeight)
  }

  /** The pointer's influence radius for a canvas of the given size. */
  function PointerRadius(width: nat, height: nat): (r: real)
    ensures r == (width * height) as real / 6400.0
    ensures r >= 0.0
  {
    ((height as real / 80.0) * width as real) / 80.0
  }

  // ------------------------------------------------------------ population

  /** The number of particles `init` creates: the integers `i >= 0` with
      `i < height * width / 7000`, i.e. the quotient rounded UP. */
  function ParticleCount(width: nat, height: nat): nat {
    (width * height + 6999) / 7000
  }

  /** The loop test of `init` holds for `i` exactly when `i` is below
      ParticleCount, so the loop creates ParticleCount particles. */
  lemma ParticleCountIsLoopBound(width: nat, height: nat, i: nat)
    ensures (i as real) < (height * width) as real / 7000.0 <==> i < ParticleCount(width, height)
  {
    var area := height * width;
    var n := ParticleCount(width, height);
    assert area == width * height;
    assert 7000 * n <= area + 6999 < 7000 * n + 7000;
    assert (i as real) < area as real / 7000.0 <==> 7000 * i < area;
  }

  /** The count is the ceiling of area / 7000: the least number of particles
      each standing for at most 7000 units of area. */
  lemma {:induction false} ParticleCountIsCeiling(width: nat, height: nat)
    ensures var n := ParticleCount(width, height);
      && width * height <= 7000 * n
      && (n > 0 ==> 7000 * (n - 1) < width * height)
  {
  }

  /** 700 by 700 gives 70 particles; 100 by 100 gives 2, not 1. */
  lemma ParticleCountExamples()
    ensures ParticleCount(700, 700) == 70
    ensures ParticleCount(100, 100) == 2
  {
  }

  /** The five `Math.random()` results one particle consumes, in call order. */
  datatype Sample = Sample(size: real, x: real, y: real, directionX: real, directionY: real)

  predicate InUnit(r: real) {
    0.0 <= r < 1.0
  }

  predicate ValidSample(r: Sample) {
    InUnit(r.size) && InUnit(r.x) && InUnit(r.y) && InUnit(r.directionX) && InUnit(r.directionY)
  }

  /** The range `inner - size * 2 - size * 2 + size * 2` a sampled coordinate
      is scaled by: the inner size less twice the particle size. */
  function Span(inner: nat, size: real): real {
    inner as real - size * 2.0 - size * 2.0 + size * 2.0
  }

  /** The two extra terms cancel: the span is the inner size less twice the size. */
  lemma SpanIsInnerLessTwiceSize(inner: nat, size: real)
    ensures Span(inner, size) == inner as real - 2.0 * size
  {
  }

  /** One sampled coordinate: the random fraction `r` of the span, so inside
      the span whenever the span is not empty. */
  function Coordinate(r: real, inner: nat, size: real): (c: real)
    requires InUnit(r)
    ensures Span(inner, size) >= 0.0 ==> 0.0 <= c <= Span(inner, size)
  {
    var span := Span(inner, size);
    if span >= 0.0 then MulBelow(r, span); r * span else r * span
  }

  /** The particle `init` builds from one sample; positions use the window's
      inner size, not the canvas size. */
  function Spawn(r: Sample, innerWidth: nat, innerHeight: nat, color: string): ParticleState
    requires ValidSample(r)
  {
    var size := r.size * 5.0 + 1.0;
    var x := Coordinate(r.x, innerWidth, size);
    var y := Coordinate(r.y, innerHeight, size);
    var directionX := r.directionX * 1.0 - 0.5;
    var directionY := r.directionY * 1.0 - 0.5;
    ParticleState(x, y, directionX, directionY, size, color)
  }

  /** The particles built from the samples, in creation order. */
  function SpawnAll(samples: seq<Sample>, innerWidth: nat, innerHeight: nat, color: string): (r: seq<ParticleState>)
    requires forall k :: 0 <= k < |samples| ==> ValidSample(samples[k])
    ensures |r| == |samples|
  {
    seq(|samples|, k requires 0 <= k < |samples| => Spawn(samples[k], innerWidth, innerHeight, color))
  }

  lemma MulBelow(r: real, a: real)
    requires InUnit(r) && a >= 0.0
    ensures 0.0 <= r * a <= a
  {
    MulNonNegative(r, a);
    MulNonNegative(1.0 - r, a);
    assert (1.0 - r) * a == a - r * a;
  }

  /** For random values in [0, 1): size in [1, 6), each velocity component in
      [-0.5, 0.5), and each coordinate inside [0, inner - 2 * size] when that
      range is not empty. */
  lemma SpawnRanges(r: Sample, innerWidth: nat, innerHeight: nat, color: string)
    requires ValidSample(r)
    ensures var s := Spawn(r, innerWidth, innerHeight, color);
      && 1.0 <= s.size < 6.0
      && -0.5 <= s.directionX < 0.5 && -0.5 <= s.directionY < 0.5
      && (innerWidth as real >= 2.0 * s.size ==> 0.0 <= s.x <= innerWidth as real - 2.0 * s.size)
      && (innerHeight as real >= 2.0 * s.size ==> 0.0 <= s.y <= innerHeight as real - 2.0 * s.size)
      && s.color == color
  {
    var size := r.size * 5.0 + 1.0;
    SpanIsInnerLessTwiceSize(innerWidth, size);
    SpanIsInnerLessTwiceSize(innerHeight, size);
  }

  // ------------------------------------------------------------- the frame

  /** Every particle state after one `update` each, in index order. */
  function Tick(states: seq<ParticleState>, pointer: Option<Circle>, width: nat, height: nat): (r: seq<ParticleState>)
    ensures |r| == |states|
  {
    seq(|states|, k requires 0 <= k < |states| => Step(states[k], pointer, width as real, height as real))
  }

  /** Stepping one more particle extends the stepped prefix by its step. */
  lemma TickAppend(states: seq<ParticleState>, i: nat, pointer: Option<Circle>, width: nat, height: nat)
    requires i < |states|
    ensures Tick(states[..i + 1], pointer, width, height)
         == Tick(states[..i], pointer, width, height) + [Step(states[i], pointer, width as real, height as real)]
  {
    assert forall k :: 0 <= k < i ==> states[..i + 1][k] == states[..i][k];
  }

  /** The draws of the particles, in index order. */
  function ArcsOf(states: seq<ParticleState>): (r: seq<DrawEvent>)
    ensures |r| == |states|
  {
    seq(|states|, k requires 0 <= k < |states| => ArcOf(states[k]))
  }

  lemma ArcsOfAppend(states: seq<ParticleState>, s: ParticleState)
    ensures ArcsOf(states + [s]) == ArcsOf(states) + [ArcOf(s)]
  {
    assert forall k :: 0 <= k < |states| ==> (states + [s])[k] == states[k];
  }

  /** The positions `connect` reads, in index order. */
  function Positions(states: seq<ParticleState>): (r: seq<Point>)
    ensures |r| == |states|
  {
    seq(|states|, k requires 0 <= k < |states| => Point(states[k].x, states[k].y))
  }

  /** The connection threshold, compared with the SQUARED distance. */
  function MaxDistance(width: nat, height: nat): real {
    (width as real / 7.0) * (height as real / 7.0)
  }

  /** The index pairs `connect` links: both points exist and their squared
      distance is below the threshold. */
  function Near(points: seq<Point>, maxDistance: real): (nat, nat) -> bool {
    (a: nat, b: nat) => a < |points| && b < |points| && Distance(points[a], points[b]) < maxDistance
  }

  /** The pairs (i, k) with i < k < j that the inner loop of `connect` draws, in
      the order it draws them, for any linking relation. */
  function RowPairs(linked: (nat, nat) -> bool, i: nat, j: nat): seq<(nat, nat)>
    decreases j
  {
    if j <= i + 1 then
      []
    else
      var last := if linked(i, j - 1) then [(i, j - 1)] else [];
      RowPairs(linked, i, j - 1) + last
  }

  /** The pairs the outer loop of `connect` over n points draws while its
      index is below i. */
  function PairsBefore(linked: (nat, nat) -> bool, n: nat, i: nat): seq<(nat, nat)> {
    if i == 0 then []
    else PairsBefore(linked, n, i - 1) + RowPairs(linked, i - 1, n)
  }

  /** All pairs `connect` draws, in drawing order. */
  function ConnectedPairs(points: seq<Point>, maxDistance: real): seq<(nat, nat)> {
    PairsBefore(Near(points, maxDistance), |points|, |points|)
  }

  predicate InRange(points: seq<Point>, pairs: seq<(nat, nat)>) {
    forall p :: p in pairs ==> p.0 < |points| && p.1 < |points|
  }

  /** The strokes for the given pairs, in order. */
  function LinesOf(points: seq<Point>, pairs: seq<(nat, nat)>, stroke: string): (r: seq<DrawEvent>)
    requires InRange(points, pairs)
    ensures |r| == |pairs|
  {
    if pairs == [] then []
    else
      var p := pairs[|pairs| - 1];
      LinesOf(points, pairs[..|pairs| - 1], stroke) + [Line(points[p.0], points[p.1], stroke)]
  }

  /** The strokes of row i up to (not including) candidate j. */
  function RowLines(points: seq<Point>, maxDistance: real, i: nat, j: nat, stroke: string): seq<DrawEvent>
    requires j <= |points|
  {
    RowPairsInRange(points, maxDistance, i, j);
    LinesOf(points, RowPairs(Near(points, maxDistance), i, j), stroke)
  }

  /** The strokes of the rows before i. */
  function LinesBefore(points: seq<Point>, maxDistance: real, i: nat, stroke: string): seq<DrawEvent> {
    PairsBeforeInRange(points, maxDistance, i);
    LinesOf(points, PairsBefore(Near(points, maxDistance), |points|, i), stroke)
  }

  /** What `connect` draws for the given particle states on a canvas of the given size. */
  function ConnectLines(states: seq<ParticleState>, width: nat, height: nat, stroke: string): seq<DrawEvent> {
    var points := Positions(states);
    LinesBefore(points, MaxDistance(width, height), |points|, stroke)
  }

  /** What one frame draws, given the states after the update: a clear, one
      arc per particle, then the connections. */
  function Frame(states: seq<ParticleState>, width: nat, height: nat, stroke: string): seq<DrawEvent> {
    [ClearRect(width, height)] + ArcsOf(states) + ConnectLines(states, width, height, stroke)
  }

  lemma {:induction false} RowPairsMembers(linked: (nat, nat) -> bool, i: nat, j: nat, a: nat, b: nat)
    ensures (a, b) in RowPairs(linked, i, j) <==> a == i && i < b < j && linked(a, b)
    decreases j
  {
    if j > i + 1 {
      RowPairsMembers(linked, i, j - 1, a, b);
    }
  }

  lemma {:induction false} PairsBeforeMembers(linked: (nat, nat) -> bool, n: nat, i: nat, a: nat, b: nat)
    ensures (a, b) in PairsBefore(linked, n, i) <==> a < i && a < b < n && linked(a, b)
  {
    if i > 0 {
      var earlier, row := PairsBefore(linked, n, i - 1), RowPairs(linked, i - 1, n);
      assert PairsBefore(linked, n, i) == earlier + row;
      assert (a, b) in earlier <==> a < i - 1 && a < b < n && linked(a, b) by {
        PairsBeforeMembers(linked, n, i - 1, a, b);
      }
      assert (a, b) in row <==> a == i - 1 && i - 1 < b < n && linked(a, b) by {
        RowPairsMembers(linked, i - 1, n, a, b);
      }
      assert (a, b) in earlier + row <==> (a, b) in earlier || (a, b) in row;
    }
  }

  /** Every pair of a row indexes two existing points. */
  lemma {:induction false} RowPairsInRange(points: seq<Point>, maxDistance: real, i: nat, j: nat)
    requires j <= |points|
    ensures InRange(points, RowPairs(Near(points, maxDistance), i, j))
  {
    forall p | p in RowPairs(Near(points, maxDistance), i, j) ensures p.0 < |points| && p.1 < |points| {
      RowPairsMembers(Near(points, maxDistance), i, j, p.0, p.1);
    }
  }

  /** Every pair of the earlier rows indexes two existing points. */
  lemma {:induction false} PairsBeforeInRange(points: seq<Point>, maxDistance: real, i: nat)
    ensures InRange(points, PairsBefore(Near(points, maxDistance), |points|, i))
  {
    forall p | p in PairsBefore(Near(points, maxDistance), |points|, i) ensures p.0 < |points| && p.1 < |points| {
      PairsBeforeMembers(Near(points, maxDistance), |points|, i, p.0, p.1);
    }
  }

  /** `connect` draws a line for exactly the index pairs a < b whose squared
      distance is below the threshold. */
  lemma {:induction false} ConnectedPairsExact(points: seq<Point>, maxDistance: real, a: nat, b: nat)
    ensures (a, b) in ConnectedPairs(points, maxDistance)
        <==> a < b < |points| && Distance(points[a], points[b]) < maxDistance
  {
    PairsBeforeMembers(Near(points, maxDistance), |points|, |points|, a, b);
  }

  /** Whether a pair is linked does not depend on the order of its points. */
  lemma LinkedSymmetric(points: seq<Point>, maxDistance: real, a: nat, b: nat)
    ensures Near(points, maxDistance)(a, b) == Near(points, maxDistance)(b, a)
  {
    if a < |points| && b < |points| {
      DistanceSymmetric(points[a], points[b]);
    }
  }

  predicate LexLess(p: (nat, nat), q: (nat, nat)) {
    p.0 < q.0 || (p.0 == q.0 && p.1 < q.1)
  }

  predicate StrictlyOrdered(pairs: seq<(nat, nat)>) {
    forall m, n :: 0 <= m < n < |pairs| ==> LexLess(pairs[m], pairs[n])
  }

  /** Each pair is below its successor. */
  ghost predicate Increasing(pairs: seq<(nat, nat)>) {
    forall j, k :: 0 <= j < k < |pairs| && k == j + 1 ==> LexLess(pairs[j], pairs[k])
  }

  /** The lexicographic order is transitive, so a sequence increasing from
      each pair to the next is strictly ordered throughout. */
  lemma {:induction false} IncreasingIsStrictlyOrdered(pairs: seq<(nat, nat)>)
    requires Increasing(pairs)
    ensures StrictlyOrdered(pairs)
  {
    if pairs != [] {
      var front := pairs[..|pairs| - 1];
      assert Increasing(front) by {
        forall j, k | 0 <= j && k == j + 1 && k < |front| ensures LexLess(front[j], front[k]) {
          assert front[j] == pairs[j] && front[k] == pairs[k];
        }
      }
      IncreasingIsStrictlyOrdered(front);
      forall m, n | 0 <= m < n < |pairs| ensures LexLess(pairs[m], pairs[n]) {
        if n < |pairs| - 1 {
          assert pairs[m] == front[m] && pairs[n] == front[n];
        } else if m < n - 1 {
          assert pairs[m] == front[m] && pairs[n - 1] == front[n - 1];
          assert LexLess(pairs[n - 1], pairs[n]);
        }
      }
    }
  }

  lemma {:induction false} RowPairsIncreasing(linked: (nat, nat) -> bool, i: nat, j: nat)
    ensures Increasing(RowPairs(linked, i, j))
    decreases j
  {
    if j > i + 1 {
      RowPairsIncreasing(linked, i, j - 1);
      var prefix := RowPairs(linked, i, j - 1);
      if prefix != [] {
        var last := prefix[|prefix| - 1];
        assert last in prefix;
        RowPairsMembers(linked, i, j - 1, last.0, last.1);
      }
    }
  }

  lemma {:induction false} PairsBeforeIncreasing(linked: (nat, nat) -> bool, n: nat, i: nat)
    ensures Increasing(PairsBefore(linked, n, i))
  {
    if i > 0 {
      PairsBeforeIncreasing(linked, n, i - 1);
      RowPairsIncreasing(linked, i - 1, n);
      RowFollowsEarlierRows(linked, n, i - 1);
      ConcatIncreasing(PairsBefore(linked, n, i - 1), RowPairs(linked, i - 1, n));
    }
  }

  /** Every pair drawn in row i comes after every pair of the earlier rows. */
  lemma {:induction false} RowFollowsEarlierRows(linked: (nat, nat) -> bool, n: nat, i: nat)
    ensures var before, row := PairsBefore(linked, n, i), RowPairs(linked, i, n);
      before != [] && row != [] ==> LexLess(before[|before| - 1], row[0])
  {
    var before, row := PairsBefore(linked, n, i), RowPairs(linked, i, n);
    forall p | p in before ensures p.0 < i {
      PairsBeforeMembers(linked, n, i, p.0, p.1);
    }
    forall p | p in row ensures p.0 == i {
      RowPairsMembers(linked, i, n, p.0, p.1);
    }
    LastBelowFirst(before, row, i);
  }

  /** A run whose pairs all start below i ends below a run whose pairs all start at i. */
  lemma LastBelowFirst(before: seq<(nat, nat)>, row: seq<(nat, nat)>, i: nat)
    requires forall p :: p in before ==> p.0 < i
    requires forall p :: p in row ==> p.0 == i
    ensures before != [] && row != [] ==> LexLess(before[|before| - 1], row[0])
  {
    if before != [] && row != [] {
      assert before[|before| - 1] in before && row[0] in row;
    }
  }

  /** Two increasing runs, the first ending below the start of the second,
      make one increasing run. */
  lemma ConcatIncreasing(before: seq<(nat, nat)>, row: seq<(nat, nat)>)
    requires Increasing(before) && Increasing(row)
    requires before != [] && row != [] ==> LexLess(before[|before| - 1], row[0])
    ensures Increasing(before + row)
  {
    var all := before + row;
    forall j, k | 0 <= j && k == j + 1 && k < |all| ensures LexLess(all[j], all[k]) {
      if k < |before| {
        assert all[j] == before[j] && all[k] == before[k];
      } else if j >= |before| {
        assert all[j] == row[j - |before|] && all[k] == row[k - |before|];
      } else {
        assert all[j] == before[|before| - 1] && all[k] == row[0];
      }
    }
  }

  /** The pairs are drawn in strictly increasing lexicographic (i, j) order, so
      each pair at most once. */
  lemma {:induction false} ConnectedPairsOrdered(points: seq<Point>, maxDistance: real)
    ensures StrictlyOrdered(ConnectedPairs(points, maxDistance))
  {
    PairsBeforeIncreasing(Near(points, maxDistance), |points|, |points|);
    IncreasingIsStrictlyOrdered(ConnectedPairs(points, maxDistance));
  }

  /** On a 70 by 70 canvas the threshold is 100: points (0,0) and (10,10), at
      squared distance 200, are not linked; (0,0) and (5,5), at 50, are. */
  lemma ConnectExamples()
    ensures MaxDistance(70, 70) == 100.0
    ensures ConnectedPairs([Point(0.0, 0.0), Point(10.0, 10.0)], MaxDistance(70, 70)) == []
    ensures ConnectedPairs([Point(0.0, 0.0), Point(5.0, 5.0)], MaxDistance(70, 70)) == [(0, 1)]
  {
    var far, near := [Point(0.0, 0.0), Point(10.0, 10.0)], [Point(0.0, 0.0), Point(5.0, 5.0)];
    var farLinked, nearLinked := Near(far, 100.0), Near(near, 100.0);
    assert MaxDistance(70, 70) == 100.0;
    assert Distance(far[0], far[1]) == 200.0 && !farLinked(0, 1);
    assert Distance(near[0], near[1]) == 50.0 && nearLinked(0, 1);
    assert RowPairs(farLinked, 0, 2) == RowPairs(farLinked, 0, 1) + [] == [];
    assert RowPairs(nearLinked, 0, 2) == RowPairs(nearLinked, 0, 1) + [(0, 1)] == [(0, 1)];
    assert PairsBefore(farLinked, 2, 2) == PairsBefore(farLinked, 2, 1) + RowPairs(farLinked, 1, 2);
    assert PairsBefore(farLinked, 2, 1) == PairsBefore(farLinked, 2, 0) + RowPairs(farLinked, 0, 2);
    assert PairsBefore(nearLinked, 2, 2) == PairsBefore(nearLinked, 2, 1) + RowPairs(nearLinked, 1, 2);
    assert PairsBefore(nearLinked, 2, 1) == PairsBefore(nearLinked, 2, 0) + RowPairs(nearLinked, 0, 2);
  }

  /** A draw sequence that starts with `clear`, continues with exactly `arcs`
      and holds nothing but strokes after them. */
  predicate LaidOut(f: seq<DrawEvent>, clear: DrawEvent, arcs: seq<DrawEvent>) {
    && |f| >= 1 + |arcs|
    && f[0] == clear
    && (forall k :: 0 <= k < |arcs| ==> f[1 + k] == arcs[k])
    && (forall k :: 1 + |arcs| <= k < |f| ==> f[k].Line?)
  }

  /** A frame starts with one clear, then draws exactly one arc per particle,
      the k-th for particle k, and nothing but lines after that. */
  lemma {:induction false} FrameDrawsEachParticleOnce(states: seq<ParticleState>, width: nat, height: nat, stroke: string)
    ensures LaidOut(Frame(states, width, height, stroke), ClearRect(width, height), ArcsOf(states))
  {
    ConnectLinesAreLines(states, width, height, stroke);
    FrameLayout(ClearRect(width, height), ArcsOf(states), ConnectLines(states, width, height, stroke));
  }

  /** The layout of a clear followed by arcs and then by strokes only. */
  lemma FrameLayout(clear: DrawEvent, arcs: seq<DrawEvent>, lines: seq<DrawEvent>)
    requires forall k :: 0 <= k < |lines| ==> lines[k].Line?
    ensures LaidOut([clear] + arcs + lines, clear, arcs)
  {
    var f := [clear] + arcs + lines;
    assert forall k :: 1 + |arcs| <= k < |f| ==> f[k] == lines[k - 1 - |arcs|];
  }

  /** `connect` draws nothing but strokes. */
  lemma {:induction false} ConnectLinesAreLines(states: seq<ParticleState>, width: nat, height: nat, stroke: string)
    ensures var lines := ConnectLines(states, width, height, stroke);
      forall k :: 0 <= k < |lines| ==> lines[k].Line?
  {
    var points := Positions(states);
    PairsBeforeInRange(points, MaxDistance(width, height), |points|);
    LinesAreLines(points, ConnectedPairs(points, MaxDistance(width, height)), stroke);
  }

  /** Extending a row by one candidate adds that candidate's stroke exactly
      when its squared distance is below the threshold. */
  lemma {:induction false} RowLinesStep(points: seq<Point>, maxDistance: real, i: nat, j: nat, stroke: string)
    requires i < j < |points|
    ensures RowLines(points, maxDistance, i, j + 1, stroke)
         == RowLines(points, maxDistance, i, j, stroke)
          + (if Distance(points[i], points[j]) < maxDistance then [Line(points[i], points[j], stroke)] else [])
  {
    var sofar := RowPairs(Near(points, maxDistance), i, j);
    RowPairsInRange(points, maxDistance, i, j);
    RowPairsInRange(points, maxDistance, i, j + 1);
    if Distance(points[i], points[j]) < maxDistance {
      assert Near(points, maxDistance)(i, j);
      assert (sofar + [(i, j)])[..|sofar|] == sofar;
    } else {
      assert !Near(points, maxDistance)(i, j);
      assert sofar + [] == sofar;
    }
  }

  /** One more pass of the outer loop adds the strokes of that row. */
  lemma {:induction false} OuterLinesStep(points: seq<Point>, maxDistance: real, i: nat, stroke: string)
    requires i < |points|
    ensures LinesBefore(points, maxDistance, i + 1, stroke)
         == LinesBefore(points, maxDistance, i, stroke) + RowLines(points, maxDistance, i, |points|, stroke)
  {
    var linked := Near(points, maxDistance);
    PairsBeforeInRange(points, maxDistance, i);
    PairsBeforeInRange(points, maxDistance, i + 1);
    RowPairsInRange(points, maxDistance, i, |points|);
    LinesOfAppend(points, PairsBefore(linked, |points|, i), RowPairs(linked, i, |points|), stroke);
  }

  lemma AppendAssociative<T>(a: seq<T>, b: seq<T>, c: seq<T>)
    ensures a + b + c == a + (b + c)
  {
  }

  /** The strokes of a concatenation are the strokes of each part, in order. */
  lemma {:induction false} LinesOfAppend(points: seq<Point>, a: seq<(nat, nat)>, b: seq<(nat, nat)>, stroke: string)
    requires InRange(points, a) && InRange(points, b)
    ensures InRange(points, a + b)
    ensures LinesOf(points, a + b, stroke) == LinesOf(points, a, stroke) + LinesOf(points, b, stroke)
    decreases |b|
  {
    if b == [] {
      assert a + b == a;
    } else {
      var front := b[..|b| - 1];
      assert (a + b)[..|a + b| - 1] == a + front;
      assert InRange(points, front);
      LinesOfAppend(points, a, front, stroke);
    }
  }

  lemma {:induction false} LinesAreLines(points: seq<Point>, pairs: seq<(nat, nat)>, stroke: string)
    requires InRange(points, pairs)
    ensures forall k :: 0 <= k < |pairs| ==> LinesOf(points, pairs, stroke)[k].Line?
  {
    if pairs != [] {
      LinesAreLines(points, pairs[..|pairs| - 1], stroke);
    }
  }

  // ------------------------------------------------------- the field object

  /** The states of the given particle objects, in order. */
  ghost function StatesOf(ps: seq<Particle>): (r: seq<ParticleState>)
    reads ps
    ensures |r| == |ps|
    ensures forall k :: 0 <= k < |ps| ==> r[k] == ps[k].State()
  {
    if ps == [] then [] else StatesOf(ps[..|ps| - 1]) + [ps[|ps| - 1].State()]
  }

  /** The states do not change while none of the particles does. */
  twostate lemma StatesUnchanged(ps: seq<Particle>)
    requires forall k :: 0 <= k < |ps| ==> unchanged(ps[k])
    ensures StatesOf(ps) == old(StatesOf(ps))
  {
    assert forall k :: 0 <= k < |ps| ==> StatesOf(ps)[k] == old(StatesOf(ps))[k];
  }

  /** Whether the pointer particle is shown: both coordinates truthy, so a
      coordinate of 0 counts as absent. */
  predicate PointerShown(mouse: Option<Point>) {
    mouse.Some? && mouse.value.x != 0.0 && mouse.value.y != 0.0
  }

  class Particles {
    var styles: Styles
    const canvas: Canvas
    const ctx: Context
    /** The pointer position, absent until it moves and after it leaves. */
    var mouse: Option<Point>
    var mouseRadius: real
    var particlesArray: seq<Particle>

    /** Styles are complete and the particles are distinct objects sharing
        this field's canvas and context. */
    ghost predicate Valid()
      reads this
    {
      && Complete(styles)
      && (forall k :: 0 <= k < |particlesArray| ==>
            particlesArray[k].canvas == canvas && particlesArray[k].ctx == ctx)
      && (forall j, k :: 0 <= j < k < |particlesArray| ==> particlesArray[j] != particlesArray[k])
    }

    ghost function States(): seq<ParticleState>
      reads this, particlesArray
    {
      StatesOf(particlesArray)
    }

    /** The circle every particle's update receives. An absent pointer never
        collides (its undefined coordinates make the distance NaN). */
    function PointerCircle(): Option<Circle>
      reads this
    {
      if mouse.Some? then Some(Circle(mouse.value.x, mouse.value.y, mouseRadius)) else None
    }

    /** Builds the field: merges the styles, creates the canvas, sizes it to
        the host, populates it and runs the first frame. */
    constructor (options: Styles, hostIsBody: bool, innerWidth: nat, innerHeight: nat,
                 clientWidth: nat, clientHeight: nat, samples: seq<Sample>)
      requires |samples| >= ParticleCount(HostSize(hostIsBody, innerWidth, innerHeight, clientWidth, clientHeight).0,
                                          HostSize(hostIsBody, innerWidth, innerHeight, clientWidth, clientHeight).1)
      requires forall k :: 0 <= k < |samples| ==> ValidSample(samples[k])
      ensures Valid() && fresh(canvas) && fresh(ctx)
      ensures styles == MergeStyles(DefaultStyles, options)
      ensures (canvas.width, canvas.height) == HostSize(hostIsBody, innerWidth, innerHeight, clientWidth, clientHeight)
      ensures mouse == None && mouseRadius == PointerRadius(canvas.width, canvas.height)
      ensures |particlesArray| == ParticleCount(canvas.width, canvas.height)
      ensures States() == Tick(SpawnAll(samples[..|particlesArray|], innerWidth, innerHeight, styles[ParticleColor]),
                               None, canvas.width, canvas.height)
      ensures ctx.trace == Frame(States(), canvas.width, canvas.height, styles[StrokeStyle])
    {
      styles := MergeStyles(DefaultStyles, options);
      var c := new Canvas();
      canvas := c;
      ctx := new Context();
      mouse := None;
      mouseRadius := PointerRadius(c.width, c.height);
      particlesArray := [];
      new;
      MergedStylesComplete(options);
      SetDimensions(hostIsBody, innerWidth, innerHeight, clientWidth, clientHeight);
      Start(innerWidth, innerHeight, samples);
    }

    /** The `init` and `animate` calls that end the constructor: populate the
        field, then run its first frame. */
    method Start(innerWidth: nat, innerHeight: nat, samples: seq<Sample>)
      requires Valid() && mouse == None
      requires |samples| >= ParticleCount(canvas.width, canvas.height)
      requires forall k :: 0 <= k < |samples| ==> ValidSample(samples[k])
      modifies this`particlesArray, ctx
      ensures Valid()
      ensures |particlesArray| == ParticleCount(canvas.width, canvas.height)
      ensures forall k :: 0 <= k < |particlesArray| ==> fresh(particlesArray[k])
      ensures States() == Tick(SpawnAll(samples[..|particlesArray|], innerWidth, innerHeight, styles[ParticleColor]),
                               None, canvas.width, canvas.height)
      ensures ctx.trace == old(ctx.trace) + Frame(States(), canvas.width, canvas.height, styles[StrokeStyle])
    {
      Init(innerWidth, innerHeight, samples);
      Animate();
    }

    /** Resizes the canvas to its host and recomputes the pointer radius. The
        particles are not repopulated. */
    method SetDimensions(hostIsBody: bool, innerWidth: nat, innerHeight: nat,
                         clientWidth: nat, clientHeight: nat)
      requires Valid()
      modifies canvas, this`mouseRadius
      ensures Valid()
      ensures (canvas.width, canvas.height) == HostSize(hostIsBody, innerWidth, innerHeight, clientWidth, clientHeight)
      ensures mouseRadius == PointerRadius(canvas.width, canvas.height)
    {
      if hostIsBody {
        canvas.width := innerWidth;
        canvas.height := innerHeight;
      } else {
        canvas.width := clientWidth;
        canvas.height := clientHeight;
      }
      mouseRadius := ((canvas.height as real / 80.0) * canvas.width as real) / 80.0;
    }

    /** The pointer moved to (x, y) within the host. */
    method MouseMove(x: real, y: real)
      modifies this`mouse
      ensures mouse == Some(Point(x, y))
    {
      mouse := Some(Point(x, y));
    }

    /** The pointer left the host. */
    method MouseOut()
      modifies this`mouse
      ensures mouse == None
    {
      mouse := None;
    }

    /** Discards the particles and creates ParticleCount new ones, the k-th
        from the k-th sample, all in the configured particle colour. */
    method Init(innerWidth: nat, innerHeight: nat, samples: seq<Sample>)
      requires Valid()
      requires |samples| >= ParticleCount(canvas.width, canvas.height)
      requires forall k :: 0 <= k < |samples| ==> ValidSample(samples[k])
      modifies this`particlesArray
      ensures Valid()
      ensures |particlesArray| == ParticleCount(canvas.width, canvas.height)
      ensures forall k :: 0 <= k < |particlesArray| ==> fresh(particlesArray[k])
      ensures States() == SpawnAll(samples[..|particlesArray|], innerWidth, innerHeight, styles[ParticleColor])
    {
      particlesArray := [];
      ghost var n := ParticleCount(canvas.width, canvas.height);
      var i: nat := 0;
      ParticleCountIsLoopBound(canvas.width, canvas.height, i);
      while (i as real) < (canvas.height * canvas.width) as real / 7000.0
        invariant i <= n && |particlesArray| == i
        invariant (i as real) < (canvas.height * canvas.width) as real / 7000.0 <==> i < n
        invariant Valid()
        invariant forall k :: 0 <= k < i ==> fresh(particlesArray[k])
        invariant forall k :: 0 <= k < i ==>
          particlesArray[k].State() == Spawn(samples[k], innerWidth, innerHeight, styles[ParticleColor])
        decreases n - i
      {
        var size := samples[i].size * 5.0 + 1.0;
        var x := Coordinate(samples[i].x, innerWidth, size);
        var y := Coordinate(samples[i].y, innerHeight, size);
        var directionX := samples[i].directionX * 1.0 - 0.5;
        var directionY := samples[i].directionY * 1.0 - 0.5;
        var color := styles[ParticleColor];
        var particle := new Particle(x, y, directionX, directionY, size, color, canvas, ctx);
        particlesArray := particlesArray + [particle];
        i := i + 1;
        ParticleCountIsLoopBound(canvas.width, canvas.height, i);
      }
      assert States() == SpawnAll(samples[..i], innerWidth, innerHeight, styles[ParticleColor]);
    }

    /** One frame: clear, build the pointer particle (never updated nor
        drawn), update each persistent particle once in index order, then
        connect. */
    method Animate()
      requires Valid()
      modifies ctx, particlesArray
      ensures Valid()
      ensures States() == Tick(old(States()), PointerCircle(), canvas.width, canvas.height)
      ensures ctx.trace == old(ctx.trace) + Frame(States(), canvas.width, canvas.height, styles[StrokeStyle])
    {
      ctx.ClearRect(canvas.width, canvas.height);
      var particles := WithPointerParticle();
      StatesUnchanged(particlesArray);
      ghost var clear := [DrawEvent.ClearRect(canvas.width, canvas.height)];
      UpdateAll(particles);
      ghost var arcs := ArcsOf(States());
      Connect();
      ghost var lines := ConnectLines(States(), canvas.width, canvas.height, styles[StrokeStyle]);
      AppendAssociative(old(ctx.trace) + clear, arcs, lines);
      AppendAssociative(old(ctx.trace), clear, arcs + lines);
      AppendAssociative(clear, arcs, lines);
    }

    /** The list `animate` iterates over: the particles, followed by a fresh
        particle at the pointer when both pointer coordinates are non-zero. */
    method WithPointerParticle() returns (particles: seq<Particle>)
      requires Complete(styles)
      ensures PointerShown(mouse) ==> |particles| == |particlesArray| + 1 && fresh(particles[|particlesArray|])
      ensures PointerShown(mouse) ==>
        particles[|particlesArray|].State() == ParticleState(mouse.value.x, mouse.value.y, 0.0, 0.0, 3.0, styles[ParticleColor])
      ensures !PointerShown(mouse) ==> |particles| == |particlesArray|
      ensures forall k :: 0 <= k < |particlesArray| ==> particles[k] == particlesArray[k]
    {
      particles := particlesArray;
      if mouse.Some? && mouse.value.x != 0.0 && mouse.value.y != 0.0 {
        var mouseParticle := new Particle(mouse.value.x, mouse.value.y, 0.0, 0.0, 3.0,
                                          styles[ParticleColor], canvas, ctx);
        particles := particles + [mouseParticle];
      }
    }

    /** The update loop of `animate`: the first |particlesArray| entries of
        `particles` (the persistent particles) are updated in index order. */
    method UpdateAll(particles: seq<Particle>)
      requires Valid()
      requires |particlesArray| <= |particles|
      requires forall k :: 0 <= k < |particlesArray| ==> particles[k] == particlesArray[k]
      modifies ctx, particlesArray
      ensures Valid()
      ensures States() == Tick(old(States()), PointerCircle(), canvas.width, canvas.height)
      ensures ctx.trace == old(ctx.trace) + ArcsOf(States())
    {
      ghost var before := States();
      var pointer := PointerCircle();
      ghost var width, height := canvas.width, canvas.height;
      var i := 0;
      while i < |particlesArray|
        invariant 0 <= i <= |particlesArray|
        invariant forall k :: 0 <= k < i ==>
          particlesArray[k].State() == Step(before[k], pointer, width as real, height as real)
        invariant forall k :: i <= k < |particlesArray| ==> particlesArray[k].State() == before[k]
        invariant ctx.trace == old(ctx.trace) + ArcsOf(Tick(before[..i], pointer, width, height))
      {
        var particle := particles[i];
        ghost var ticked := Tick(before[..i], pointer, width, height);
        label BeforeUpdate:
        particle.Update(pointer);
        assert forall k :: 0 <= k < |particlesArray| && k != i ==> unchanged@BeforeUpdate(particlesArray[k]);
        TickAppend(before, i, pointer, width, height);
        ArcsOfAppend(ticked, particle.State());
        AppendAssociative(old(ctx.trace), ArcsOf(ticked), [ArcOf(particle.State())]);
        i := i + 1;
      }
      assert before[..i] == before;
      assert forall k :: 0 <= k < |before| ==> States()[k] == Tick(before, pointer, width, height)[k];
    }

    /** Draws a line for every pair i < j of persistent particles whose squared
        distance is below the threshold, in (i, j) order. */
    method Connect()
      requires Valid()
      modifies ctx
      ensures States() == old(States())
      ensures ctx.trace == old(ctx.trace) + ConnectLines(States(), canvas.width, canvas.height, styles[StrokeStyle])
    {
      var points := particlesArray;
      ghost var states := States();
      ghost var pts := Positions(states);
      ghost var maxD := MaxDistance(canvas.width, canvas.height);
      ghost var stroke := styles[StrokeStyle];
      assert |pts| == |points|;
      assert forall k :: 0 <= k < |pts| ==> pts[k] == Point(points[k].x, points[k].y);
      var i := 0;
      while i < |points|
        invariant 0 <= i <= |points|
        invariant ctx.trace == old(ctx.trace) + LinesBefore(pts, maxD, i, stroke)
      {
        ghost var drawn := LinesBefore(pts, maxD, i, stroke);
        ghost var row := RowLines(pts, maxD, i, |pts|, stroke);
        ConnectRow(i, pts, maxD, stroke);
        OuterLinesStep(pts, maxD, i, stroke);
        AppendAssociative(old(ctx.trace), drawn, row);
        i := i + 1;
      }
      StatesUnchanged(particlesArray);
    }

    /** The inner loop of `connect` for particle i: lines to each later particle
        close enough, in index order. `points` are the particles' positions,
        `maxDistance` the threshold and `stroke` the line colour. */
    method ConnectRow(i: nat, ghost points: seq<Point>, ghost maxDistance: real, ghost stroke: string)
      requires Complete(styles) && stroke == styles[StrokeStyle]
      requires maxDistance == MaxDistance(canvas.width, canvas.height)
      requires |points| == |particlesArray| && i < |points|
      requires forall k :: 0 <= k < |points| ==> points[k] == Point(particlesArray[k].x, particlesArray[k].y)
      modifies ctx
      ensures ctx.trace == old(ctx.trace) + RowLines(points, maxDistance, i, |points|, stroke)
    {
      var particles := particlesArray;
      var j := i + 1;
      while j < |particles|
        invariant i + 1 <= j <= |particles|
        invariant ctx.trace == old(ctx.trace) + RowLines(points, maxDistance, i, j, stroke)
      {
        var maxD := (canvas.width as real / 7.0) * (canvas.height as real / 7.0);
        var d := Distance(Point(particles[i].x, particles[i].y), Point(particles[j].x, particles[j].y));
        assert d == Distance(points[i], points[j]) && maxD == maxDistance;
        ghost var sofar := RowLines(points, maxDistance, i, j, stroke);
        RowLinesStep(points, maxDistance, i, j, stroke);
        if d < maxD {
          ctx.StrokeLine(Point(particles[i].x, particles[i].y), Point(particles[j].x, particles[j].y), styles[StrokeStyle]);
          AppendAssociative(old(ctx.trace), sofar, [Line(points[i], points[j], stroke)]);
        } else {
          assert sofar + [] == sofar;
        }
        j := j + 1;
      }
    }
  }
}
