/**
 * Horizontal placement of the sessions of one timetable track, in the three
 * variants of the schedule screen:
 *  - ScheduleRow: a row of session blocks with spacer blocks for the free
 *    time between consecutive sessions;
 *  - ScheduleBoxRow: every session at an absolute offset from the first
 *    session's start;
 *  - ScheduleRowLayout: a custom layout that measures every session at a
 *    fixed pixel width and places it at a pixel x computed from its start.
 * The first two hand Dp values (minutes times dpsPerMinute, unrounded) to
 * the toolkit, so they are modelled in minutes; the custom layout rounds to
 * pixels itself, so it is modelled in pixels.
 */
module ScheduleRows {
  import opened LocalTime
  import opened Sessions

  datatype Option<T> = None | Some(value: T)

  type Positive = n: int | n > 0 witness 1

  /** Pixels per minute, as the exact fraction num / den. */
  datatype Scale = Scale(num: int, den: Positive)

  /**
   * roundToInt / roundToPx of `minutes` times the scale: the nearest
   * integer, halves rounded up (Math.round).
   */
  function RoundPx(minutes: int, scale: Scale): (px: int)
    ensures 2 * scale.den * px <= 2 * minutes * scale.num + scale.den < 2 * scale.den * (px + 1)
  {
    (2 * minutes * scale.num + scale.den) / (2 * scale.den)
  }

  /** Only one integer lies within half a pixel below and above the exact value. */
  lemma RoundPxUnique(minutes: int, scale: Scale, px: int)
    requires 2 * scale.den * px <= 2 * minutes * scale.num + scale.den < 2 * scale.den * (px + 1)
    ensures RoundPx(minutes, scale) == px
  {
    var r := RoundPx(minutes, scale);
    CancelPositive(px, r + 1, 2 * scale.den);
    CancelPositive(r, px + 1, 2 * scale.den);
  }

  /** At a whole number of pixels per minute no rounding happens. */
  lemma RoundPxWhole(minutes: int, scale: Scale)
    requires scale.den == 1
    ensures RoundPx(minutes, scale) == minutes * scale.num
  {
    RoundPxUnique(minutes, scale, minutes * scale.num);
  }

  /** For a non-negative scale, more minutes never give fewer pixels. */
  lemma RoundPxMonotone(m1: int, m2: int, scale: Scale)
    requires scale.num >= 0 && m1 <= m2
    ensures RoundPx(m1, scale) <= RoundPx(m2, scale)
  {
    var r1, r2 := RoundPx(m1, scale), RoundPx(m2, scale);
    MultiplyBoth(m1, m2, scale.num);
    CancelPositive(r1, r2 + 1, 2 * scale.den);
  }

  /**
   * A larger scale never gives a narrower block of a given non-negative
   * length, although rounding may keep it the same.
   */
  lemma RoundPxScaleMonotone(minutes: int, a: Scale, b: Scale)
    requires minutes >= 0 && a.num * b.den <= b.num * a.den
    ensures RoundPx(minutes, a) <= RoundPx(minutes, b)
  {
    var ra, rb := RoundPx(minutes, a), RoundPx(minutes, b);
    var x, y := 2 * minutes * a.num, 2 * minutes * b.num;
    assert x * b.den <= y * a.den by {
      MultiplyBoth(a.num * b.den, b.num * a.den, 2 * minutes);
      assert (a.num * b.den) * (2 * minutes) == x * b.den;
      assert (b.num * a.den) * (2 * minutes) == y * a.den;
    }
    CommonDenominator(ra, rb, x, y, a.den, b.den);
  }

  /**
   * If ra is at most x / ad + 1/2 and rb + 1 exceeds y / bd + 1/2, and
   * x / ad <= y / bd, then ra <= rb.
   */
  lemma CommonDenominator(ra: int, rb: int, x: int, y: int, ad: int, bd: int)
    requires ad > 0 && bd > 0
    requires 2 * ad * ra <= x + ad && y + bd < 2 * bd * (rb + 1)
    requires x * bd <= y * ad
    ensures ra <= rb
  {
    var lower, upper := 2 * ad * ra, 2 * bd * (rb + 1);
    MultiplyBoth(lower, x + ad, bd);
    MultiplyStrict(y + bd, upper, ad);
    assert lower * bd < upper * ad;
    assert lower * bd == (2 * ad * bd) * ra;
    assert upper * ad == (2 * ad * bd) * (rb + 1);
    CancelPositive(ra, rb + 1, 2 * ad * bd);
  }

  lemma MultiplyBoth(x: int, y: int, c: int)
    requires x <= y && c >= 0
    ensures x * c <= y * c
  {
  }

  lemma MultiplyStrict(x: int, y: int, c: int)
    requires x < y && c > 0
    ensures x * c < y * c
  {
  }

  lemma CancelPositive(x: int, y: int, c: int)
    requires c > 0 && c * x < c * y
    ensures x < y
  {
  }

  /**
   * Rounding two lengths separately gives at most one pixel more than
   * rounding their sum.
   */
  lemma RoundPxSumBound(m1: int, m2: int, scale: Scale)
    ensures RoundPx(m1, scale) + RoundPx(m2, scale) <= RoundPx(m1 + m2, scale) + 1
  {
    var r1, r2, r := RoundPx(m1, scale), RoundPx(m2, scale), RoundPx(m1 + m2, scale);
    var d := 2 * scale.den;
    assert d * r1 + d * r2 <= 2 * (m1 + m2) * scale.num + 2 * scale.den;
    assert 2 * (m1 + m2) * scale.num + scale.den < d * (r + 1);
    CancelPositive(r1 + r2, r + 2, d);
  }

  // ---------------------------------------------------------------------
  // ScheduleRowLayout: measure every session at a fixed width, then place
  // it at the x of its start, measured from the first session's start.
  // ---------------------------------------------------------------------

  /** The incoming layout constraints, in pixels. */
  datatype Constraints = Constraints(minWidth: int, maxWidth: int, minHeight: int, maxHeight: int)

  /** How one session is measured and where it is placed. */
  datatype Placement = Placement(constraints: Constraints, x: int, y: int)

  /** The track's own size and the placement of each session, in input order. */
  datatype TrackLayout = TrackLayout(width: int, height: int, placements: seq<Placement>)

  /**
   * The constraints a session is measured with: exactly its rounded width,
   * every other constraint copied from the incoming ones.
   */
  function SessionConstraints(session: Session, scale: Scale, constraints: Constraints): (c: Constraints)
    ensures c.minWidth == c.maxWidth == RoundPx(TotalMinutes(session), scale)
    ensures c.minHeight == constraints.minHeight && c.maxHeight == constraints.maxHeight
  {
    var widthPx := RoundPx(TotalMinutes(session), scale);
    constraints.(minWidth := widthPx, maxWidth := widthPx)
  }

  /**
   * The x of every start time: its signed minutes from the first start time,
   * in pixels. The first one is at 0, and the list is as long as the input.
   */
  function XCoordinates(startTimes: seq<Time>, scale: Scale): (xs: seq<int>)
    ensures |xs| == |startTimes|
    ensures |startTimes| > 0 ==> xs[0] == 0
  {
    if startTimes == [] then []
    else
      var initialTime := startTimes[0];
      seq(|startTimes|, k requires 0 <= k < |startTimes| => RoundPx(ElapsedMinutes(initialTime, startTimes[k]), scale))
  }

  /**
   * The measure and place policy of the custom track layout. Its width is
   * the list's span (earliest start to latest end) in pixels, its height the
   * incoming maximum height; session k is measured at its own rounded width
   * and placed at y = 0 and at the x of its start, measured from the first
   * session in input order, negative and unclamped for a session that
   * starts earlier than that.
   */
  function ScheduleRowLayout(sessions: seq<Session>, scale: Scale, constraints: Constraints): (r: TrackLayout)
    ensures |r.placements| == |sessions|
    ensures r.width == RoundPx(ListTotalMinutes(sessions), scale) && r.height == constraints.maxHeight
    ensures sessions == [] ==> r.width == 0
    ensures |sessions| > 0 ==> r.placements[0].x == 0
    ensures forall k :: 0 <= k < |sessions| ==>
      && r.placements[k].y == 0
      && r.placements[k].constraints == SessionConstraints(sessions[k], scale, constraints)
      && r.placements[k].x == RoundPx(ElapsedMinutes(sessions[0].start, sessions[k].start), scale)
  {
    var measured := seq(|sessions|, k requires 0 <= k < |sessions| => SessionConstraints(sessions[k], scale, constraints));
    var startTimes := seq(|sessions|, k requires 0 <= k < |sessions| => sessions[k].start);
    var maxWidth := RoundPx(ListTotalMinutes(sessions), scale);
    var xCoordinates := XCoordinates(startTimes, scale);
    TrackLayout(maxWidth, constraints.maxHeight,
      seq(|sessions|, k requires 0 <= k < |sessions| => Placement(measured[k], xCoordinates[k], 0)))
  }

  /**
   * Placement keeps the order of start times: at a non-negative scale a
   * session that starts no later than another is placed no further right.
   * In particular a session starting before the first one has x <= 0.
   */
  lemma LayoutKeepsStartOrder(sessions: seq<Session>, scale: Scale, constraints: Constraints, j: int, k: int)
    requires scale.num >= 0
    requires 0 <= j < |sessions| && 0 <= k < |sessions|
    requires sessions[j].start <= sessions[k].start
    ensures ScheduleRowLayout(sessions, scale, constraints).placements[j].x
         <= ScheduleRowLayout(sessions, scale, constraints).placements[k].x
  {
    var origin := sessions[0].start;
    ElapsedMonotone(origin, sessions[j].start, origin, sessions[k].start);
    RoundPxMonotone(ElapsedMinutes(origin, sessions[j].start), ElapsedMinutes(origin, sessions[k].start), scale);
  }

  /** No session is measured wider than the track, at a non-negative scale. */
  lemma LayoutTrackCoversEachWidth(sessions: seq<Session>, scale: Scale, constraints: Constraints, k: int)
    requires scale.num >= 0 && 0 <= k < |sessions|
    ensures ScheduleRowLayout(sessions, scale, constraints).placements[k].constraints.maxWidth
         <= ScheduleRowLayout(sessions, scale, constraints).width
  {
    ListTotalMinutesCovers(sessions, k);
    RoundPxMonotone(TotalMinutes(sessions[k]), ListTotalMinutes(sessions), scale);
  }

  /**
   * The track's size does not depend on the order of the sessions (their
   * x-coordinates do, through the choice of the first session).
   */
  lemma LayoutSizeIgnoresOrder(sessions: seq<Session>, reordered: seq<Session>, scale: Scale, constraints: Constraints)
    requires multiset(sessions) == multiset(reordered)
    ensures ScheduleRowLayout(sessions, scale, constraints).width == ScheduleRowLayout(reordered, scale, constraints).width
    ensures ScheduleRowLayout(sessions, scale, constraints).height == ScheduleRowLayout(reordered, scale, constraints).height
  {
    ListTotalMinutesPermutation(sessions, reordered);
  }

  /**
   * A larger scale never measures a session narrower, as long as the session
   * does not end before it starts.
   */
  lemma LayoutWidthGrowsWithScale(session: Session, a: Scale, b: Scale, constraints: Constraints)
    requires session.start <= session.end
    requires a.num * b.den <= b.num * a.den
    ensures SessionConstraints(session, a, constraints).maxWidth <= SessionConstraints(session, b, constraints).maxWidth
  {
    RoundPxScaleMonotone(TotalMinutes(session), a, b);
  }

  // ---------------------------------------------------------------------
  // Start-sorted, non-overlapping sessions.
  // ---------------------------------------------------------------------

  /**
   * Every session ends no earlier than it starts, and each starts no earlier
   * than the previous one ends.
   */
  predicate Consecutive(sessions: seq<Session>) {
    && (forall k :: 0 <= k < |sessions| ==> sessions[k].start <= sessions[k].end)
    && (forall k :: 0 < k < |sessions| ==> sessions[k - 1].end <= sessions[k].start)
  }

  /** Every start and end falls on a whole minute. */
  predicate OnMinutes(sessions: seq<Session>) {
    forall k :: 0 <= k < |sessions| ==> OnMinute(sessions[k].start) && OnMinute(sessions[k].end)
  }

  lemma {:induction false} ConsecutiveOrdered(sessions: seq<Session>, j: int, k: int)
    requires Consecutive(sessions) && 0 <= j <= k < |sessions|
    ensures sessions[j].start <= sessions[k].start && sessions[j].end <= sessions[k].end
  {
    if j < k {
      ConsecutiveOrdered(sessions, j, k - 1);
    }
  }

  /** For consecutive sessions the span runs from the first start to the last end. */
  lemma ConsecutiveSpan(sessions: seq<Session>)
    requires Consecutive(sessions) && |sessions| > 0
    ensures ListTotalMinutes(sessions) == ElapsedMinutes(sessions[0].start, sessions[|sessions| - 1].end)
  {
    var last := |sessions| - 1;
    forall k | 0 <= k < |sessions|
      ensures sessions[0].start <= sessions[k].start && sessions[k].end <= sessions[last].end
    {
      ConsecutiveOrdered(sessions, 0, k);
      ConsecutiveOrdered(sessions, k, last);
    }
    ListTotalMinutesIsSpan(sessions, 0, last);
  }

  /**
   * For consecutive sessions every block ends within the track, counted in
   * minutes: its offset from the first start plus its length is at most the
   * list's span.
   */
  lemma ConsecutiveFitMinutes(sessions: seq<Session>, k: int)
    requires Consecutive(sessions) && 0 <= k < |sessions|
    ensures ElapsedMinutes(sessions[0].start, sessions[k].start) + TotalMinutes(sessions[k]) <= ListTotalMinutes(sessions)
  {
    var last := |sessions| - 1;
    ConsecutiveOrdered(sessions, 0, k);
    ConsecutiveOrdered(sessions, k, last);
    ElapsedSuperadditive(sessions[0].start, sessions[k].start, sessions[k].end);
    ElapsedMonotone(sessions[0].start, sessions[k].end, sessions[0].start, sessions[last].end);
    ConsecutiveSpan(sessions);
  }

  /**
   * At a whole, non-negative number of pixels per minute, every placed
   * session of a consecutive list ends within the track.
   */
  lemma LayoutFitsWholeScale(sessions: seq<Session>, scale: Scale, constraints: Constraints, k: int)
    requires Consecutive(sessions) && 0 <= k < |sessions|
    requires scale.den == 1 && scale.num >= 0
    ensures ScheduleRowLayout(sessions, scale, constraints).placements[k].x
          + ScheduleRowLayout(sessions, scale, constraints).placements[k].constraints.maxWidth
         <= ScheduleRowLayout(sessions, scale, constraints).width
  {
    var r := ScheduleRowLayout(sessions, scale, constraints);
    var offset, length, span := ElapsedMinutes(sessions[0].start, sessions[k].start), TotalMinutes(sessions[k]), ListTotalMinutes(sessions);
    ConsecutiveFitMinutes(sessions, k);
    RoundPxWhole(offset, scale);
    RoundPxWhole(length, scale);
    RoundPxWhole(span, scale);
    assert r.placements[k].x == offset * scale.num;
    assert r.placements[k].constraints.maxWidth == length * scale.num;
    assert r.width == span * scale.num;
    ScaleSum(offset, length, span, scale.num);
  }

  lemma ScaleSum(a: int, b: int, total: int, n: int)
    requires a + b <= total && n >= 0
    ensures a * n + b * n <= total * n
  {
    MultiplyBoth(a + b, total, n);
  }

  /**
   * At any non-negative scale, rounding the offset and the width separately
   * can push a session at most one pixel past the track's end.
   */
  lemma LayoutFitsWithinOnePixel(sessions: seq<Session>, scale: Scale, constraints: Constraints, k: int)
    requires Consecutive(sessions) && 0 <= k < |sessions| && scale.num >= 0
    ensures ScheduleRowLayout(sessions, scale, constraints).placements[k].x
          + ScheduleRowLayout(sessions, scale, constraints).placements[k].constraints.maxWidth
         <= ScheduleRowLayout(sessions, scale, constraints).width + 1
  {
    var r := ScheduleRowLayout(sessions, scale, constraints);
    var offset, length, span := ElapsedMinutes(sessions[0].start, sessions[k].start), TotalMinutes(sessions[k]), ListTotalMinutes(sessions);
    assert r.placements[k].x == RoundPx(offset, scale);
    assert r.placements[k].constraints.maxWidth == RoundPx(length, scale);
    assert r.width == RoundPx(span, scale);
    ConsecutiveFitMinutes(sessions, k);
    RoundPxFitBound(offset, length, span, scale);
  }

  lemma RoundPxFitBound(offset: int, length: int, span: int, scale: Scale)
    requires offset + length <= span && scale.num >= 0
    ensures RoundPx(offset, scale) + RoundPx(length, scale) <= RoundPx(span, scale) + 1
  {
    RoundPxSumBound(offset, length, scale);
    RoundPxMonotone(offset + length, span, scale);
  }

  /**
   * The one pixel is reached: at half a pixel per minute, two back-to-back
   * one-minute sessions put the second one's end one pixel past the track.
   */
  lemma LayoutCanOverhangOnePixel(constraints: Constraints)
    ensures var r := ScheduleRowLayout(BackToBackMinutes, Scale(1, 2), constraints);
      Consecutive(BackToBackMinutes) && r.placements[1].x + r.placements[1].constraints.maxWidth == r.width + 1
  {
    var scale := Scale(1, 2);
    var r := ScheduleRowLayout(BackToBackMinutes, scale, constraints);
    BackToBackMinutesConsecutive();
    ConsecutiveSpan(BackToBackMinutes);
    ElapsedBetweenClockTimes(0, 0, 0, 1);
    ElapsedBetweenClockTimes(0, 1, 0, 2);
    ElapsedBetweenClockTimes(0, 0, 0, 2);
    RoundPxUnique(1, scale, 1);
    RoundPxUnique(2, scale, 1);
    assert r.placements[1].x == RoundPx(1, scale);
    assert r.placements[1].constraints.maxWidth == RoundPx(1, scale);
    assert r.width == RoundPx(2, scale);
  }

  lemma BackToBackMinutesConsecutive()
    ensures Consecutive(BackToBackMinutes)
  {
    var s := BackToBackMinutes;
    assert s[0].start == At(0, 0) < s[0].end == At(0, 1) == s[1].start < s[1].end == At(0, 2);
    forall k | 0 <= k < |s|
      ensures s[k].start <= s[k].end
    {
    }
  }

  /** Two back-to-back one-minute sessions, 00:00-00:01 and 00:01-00:02. */
  const BackToBackMinutes: seq<Session> := [
    Session("a", "", Yoga, At(0, 0), At(0, 1)),
    Session("b", "", Barre, At(0, 1), At(0, 2))
  ]

  // ---------------------------------------------------------------------
  // ScheduleBoxRow: each session at an absolute offset from the first
  // session's start. Offsets and widths are in minutes; the Dp handed to
  // the toolkit is that number times dpsPerMinute.
  // ---------------------------------------------------------------------

  /** One session box: its absolute offset and its width, in minutes. */
  datatype Box = Box(session: Session, offsetMinutes: int, widthMinutes: int)

  /**
   * One box per session, in input order, offset by the session's distance in
   * minutes from the first session's start, which is never negative, and as
   * wide as the session's length. No sessions give no boxes.
   */
  method ScheduleBoxRow(sessions: seq<Session>) returns (boxes: seq<Box>)
    ensures |boxes| == |sessions|
    ensures forall k :: 0 <= k < |sessions| ==>
      && boxes[k].session == sessions[k]
      && boxes[k].offsetMinutes == MinutesBetween(sessions[k], sessions[0].start) >= 0
      && boxes[k].widthMinutes == TotalMinutes(sessions[k])
  {
    boxes := [];
    if |sessions| > 0 {
      var startTime := sessions[0].start;
      for i := 0 to |sessions|
        invariant |boxes| == i
        invariant forall k :: 0 <= k < i ==>
          boxes[k] == Box(sessions[k], MinutesBetween(sessions[k], startTime), TotalMinutes(sessions[k]))
      {
        var session := sessions[i];
        var x := MinutesBetween(session, startTime);
        var width := TotalMinutes(session);
        boxes := boxes + [Box(session, x, width)];
      }
    }
  }

  /**
   * The box offset is `minutesBetween(first start)`, the distance from the
   * first start to the session, not a signed offset: a session that ends
   * before the first start is offset by the gap from its own end, one that
   * spans the first start gets 0, and an inverted session starting exactly
   * at the first start gets its own |length|, because the "after the end"
   * branch fires. For a session starting after the first start, and for one
   * starting at it that is not inverted, the box offset rounded at the
   * layout's scale is exactly the custom layout's x.
   */
  lemma BoxRowAgreesWithLayout(sessions: seq<Session>, scale: Scale, constraints: Constraints, k: int)
    requires 0 <= k < |sessions|
    requires sessions[0].start < sessions[k].start
          || (sessions[0].start == sessions[k].start && sessions[k].start <= sessions[k].end)
    ensures ScheduleRowLayout(sessions, scale, constraints).placements[k].x
         == RoundPx(MinutesBetween(sessions[k], sessions[0].start), scale)
  {
    if sessions[0].start == sessions[k].start {
      assert ElapsedMinutes(sessions[0].start, sessions[k].start) == 0;
    }
  }

  // ---------------------------------------------------------------------
  // ScheduleRow: a row of blocks, with a spacer before every session but
  // the first for its distance from the previous session's end (the free
  // time between them when the sessions are sorted and apart). Widths
  // are in minutes; the Dp handed to the toolkit is that number times
  // dpsPerMinute.
  // ---------------------------------------------------------------------

  /** A child of the row: a spacer, or a session block. */
  datatype RowChild = Spacer(minutes: int) | Block(session: Session, minutes: int)

  /**
   * The children of the row: session k at position 2k, as wide as its
   * length, and before every session but the first a spacer as wide as the
   * session's distance from the previous session's end.
   */
  function RowChildren(sessions: seq<Session>): (children: seq<RowChild>)
    ensures |children| == if |sessions| == 0 then 0 else 2 * |sessions| - 1
    ensures forall k :: 0 <= k < |sessions| ==> children[2 * k] == Block(sessions[k], TotalMinutes(sessions[k]))
    ensures forall k :: 0 < k < |sessions| ==>
      children[2 * k - 1] == Spacer(MinutesBetween(sessions[k], sessions[k - 1].end))
  {
    if |sessions| == 0 then []
    else
      var n := |sessions| - 1;
      var session := sessions[n];
      var spacer := if n == 0 then [] else [Spacer(MinutesBetween(session, sessions[n - 1].end))];
      RowChildren(sessions[..n]) + spacer + [Block(session, TotalMinutes(session))]
  }

  /**
   * The row as the composable emits it: it walks the sessions remembering
   * the previous session's end, which is absent before the first session.
   */
  method ScheduleRow(sessions: seq<Session>) returns (children: seq<RowChild>)
    ensures children == RowChildren(sessions)
  {
    children := [];
    var lastTime: Option<Time> := None;
    for i := 0 to |sessions|
      invariant children == RowChildren(sessions[..i])
      invariant lastTime == if i == 0 then None else Some(sessions[i - 1].end)
    {
      var session := sessions[i];
      ghost var done := sessions[..i + 1];
      assert done[..i] == sessions[..i] && done[i] == session;
      if lastTime.Some? {
        var spacerMinutes := MinutesBetween(session, lastTime.value);
        children := children + [Spacer(spacerMinutes)];
      }
      var width := TotalMinutes(session);
      children := children + [Block(session, width)];
      lastTime := Some(session.end);
    }
    assert sessions[..|sessions|] == sessions;
  }

  /** The total width of a run of row children, in minutes. */
  function Extent(children: seq<RowChild>): int {
    if children == [] then 0 else Extent(children[..|children| - 1]) + children[|children| - 1].minutes
  }

  lemma ExtentAppend(children: seq<RowChild>, child: RowChild)
    ensures Extent(children + [child]) == Extent(children) + child.minutes
  {
    assert (children + [child])[..|children|] == children;
  }

  /**
   * For consecutive whole-minute sessions, the row places session k (after
   * the blocks and spacers before it) exactly at its minutes from the first
   * session's start.
   */
  lemma {:induction false} RowPositionIsElapsed(sessions: seq<Session>, k: int)
    requires Consecutive(sessions) && OnMinutes(sessions) && 0 <= k < |sessions|
    ensures Extent(RowChildren(sessions)[..2 * k]) == ElapsedMinutes(sessions[0].start, sessions[k].start)
  {
    if k > 0 {
      var children := RowChildren(sessions);
      var previous, session := sessions[k - 1], sessions[k];
      RowPositionIsElapsed(sessions, k - 1);
      ExtentTwoMore(children, 2 * (k - 1));
      assert children[2 * k - 2].minutes == ElapsedMinutes(previous.start, previous.end);
      SpacerIsGap(previous, session);
      assert children[2 * k - 1].minutes == ElapsedMinutes(previous.end, session.start);
      ElapsedAdditive(sessions[0].start, previous.start, previous.end);
      ElapsedAdditive(sessions[0].start, previous.end, session.start);
    }
  }

  lemma ExtentTwoMore(children: seq<RowChild>, n: int)
    requires 0 <= n && n + 2 <= |children|
    ensures Extent(children[..n + 2]) == Extent(children[..n]) + children[n].minutes + children[n + 1].minutes
  {
    assert children[..n + 2] == children[..n] + [children[n]] + [children[n + 1]];
    ExtentAppend(children[..n], children[n]);
    ExtentAppend(children[..n] + [children[n]], children[n + 1]);
  }

  /** Between back-to-back sessions the spacer is the free time between them. */
  lemma SpacerIsGap(previous: Session, session: Session)
    requires previous.end <= session.start <= session.end
    ensures MinutesBetween(session, previous.end) == ElapsedMinutes(previous.end, session.start)
  {
  }

  /**
   * For consecutive whole-minute sessions the whole row is exactly as wide as
   * the list's span.
   */
  lemma RowExtentIsSpan(sessions: seq<Session>)
    requires Consecutive(sessions) && OnMinutes(sessions)
    ensures Extent(RowChildren(sessions)) == ListTotalMinutes(sessions)
  {
    var children := RowChildren(sessions);
    if |sessions| > 0 {
      var last := |sessions| - 1;
      RowPositionIsElapsed(sessions, last);
      assert children == children[..2 * last] + [children[2 * last]];
      ExtentAppend(children[..2 * last], children[2 * last]);
      ElapsedAdditive(sessions[0].start, sessions[last].start, sessions[last].end);
      ConsecutiveSpan(sessions);
    }
  }

  /**
   * On start-sorted, non-overlapping sessions on whole minutes the three
   * variants agree in minutes: the row's running position of session k
   * equals its box offset, and that minute position rounded once at the
   * layout's scale is the custom layout's x; the row's full extent rounded
   * once is the layout's track width. (Row itself rounds every child on its
   * own, so its pixel positions can drift from these at fractional scales.)
   */
  lemma VariantsAgree(sessions: seq<Session>, scale: Scale, constraints: Constraints, k: int)
    requires Consecutive(sessions) && OnMinutes(sessions) && 0 <= k < |sessions|
    ensures Extent(RowChildren(sessions)[..2 * k]) == MinutesBetween(sessions[k], sessions[0].start)
    ensures ScheduleRowLayout(sessions, scale, constraints).placements[k].x
         == RoundPx(Extent(RowChildren(sessions)[..2 * k]), scale)
    ensures ScheduleRowLayout(sessions, scale, constraints).width == RoundPx(Extent(RowChildren(sessions)), scale)
  {
    ConsecutiveOrdered(sessions, 0, k);
    RowPositionIsElapsed(sessions, k);
    BoxRowAgreesWithLayout(sessions, scale, constraints, k);
    RowExtentIsSpan(sessions);
  }

  // ---------------------------------------------------------------------
  // The timetable's own test list.
  // ---------------------------------------------------------------------

  const TestSessions: seq<Session> := [
    Session("Daily Dynamic Ladder Flow", "Briohny Smyth", Yoga, At(7, 0), At(8, 0)),
    Session("Shreds - Upper Body", "Sam Miller", Metcon, At(8, 30), At(10, 0)),
    Session("Doc's Fitness", "AJ Holland", Kettlebells, At(11, 0), At(12, 0)),
    Session("Beginner Barre", "Corina Lindley", Barre, At(12, 30), At(13, 15))
  ]

  lemma TestSessionsConsecutive()
    ensures Consecutive(TestSessions)
  {
    var s := TestSessions;
    assert s[0].start == At(7, 0) < s[0].end == At(8, 0) < s[1].start == At(8, 30);
    assert s[1].start < s[1].end == At(10, 0) < s[2].start == At(11, 0);
    assert s[2].start < s[2].end == At(12, 0) < s[3].start == At(12, 30) < s[3].end;
    forall k | 0 <= k < |s|
      ensures s[k].start <= s[k].end
    {
    }
    forall k | 0 < k < |s|
      ensures s[k - 1].end <= s[k].start
    {
    }
  }

  /**
   * At 3 px per minute the test list is placed at x = 0, 270, 720, 990 on a
   * track 1125 px wide (07:00 to 13:15).
   */
  lemma TestListPlacement(constraints: Constraints)
    ensures var r := ScheduleRowLayout(TestSessions, Scale(3, 1), constraints);
      && |r.placements| == 4
      && r.width == 1125
      && r.placements[0].x == 0 && r.placements[1].x == 270
      && r.placements[2].x == 720 && r.placements[3].x == 990
  {
    var scale := Scale(3, 1);
    var r := ScheduleRowLayout(TestSessions, scale, constraints);
    TestSessionsConsecutive();
    ConsecutiveSpan(TestSessions);
    ElapsedBetweenClockTimes(7, 0, 13, 15);
    ElapsedBetweenClockTimes(7, 0, 8, 30);
    ElapsedBetweenClockTimes(7, 0, 11, 0);
    ElapsedBetweenClockTimes(7, 0, 12, 30);
    RoundPxWhole(375, scale);
    RoundPxWhole(90, scale);
    RoundPxWhole(240, scale);
    RoundPxWhole(330, scale);
    assert r.width == RoundPx(375, scale);
    assert r.placements[1].x == RoundPx(90, scale);
    assert r.placements[2].x == RoundPx(240, scale);
    assert r.placements[3].x == RoundPx(330, scale);
  }

  /** At 3 px per minute the test list's sessions measure 180, 270, 180 and 135 px. */
  lemma TestListWidths(constraints: Constraints)
    ensures var r := ScheduleRowLayout(TestSessions, Scale(3, 1), constraints);
      && r.placements[0].constraints.maxWidth == 180 && r.placements[1].constraints.maxWidth == 270
      && r.placements[2].constraints.maxWidth == 180 && r.placements[3].constraints.maxWidth == 135
  {
    var scale := Scale(3, 1);
    var r := ScheduleRowLayout(TestSessions, scale, constraints);
    ElapsedBetweenClockTimes(7, 0, 8, 0);
    ElapsedBetweenClockTimes(8, 30, 10, 0);
    ElapsedBetweenClockTimes(11, 0, 12, 0);
    ElapsedBetweenClockTimes(12, 30, 13, 15);
    RoundPxWhole(60, scale);
    RoundPxWhole(90, scale);
    RoundPxWhole(45, scale);
    assert r.placements[0].constraints.maxWidth == RoundPx(60, scale);
    assert r.placements[1].constraints.maxWidth == RoundPx(90, scale);
    assert r.placements[2].constraints.maxWidth == RoundPx(60, scale);
    assert r.placements[3].constraints.maxWidth == RoundPx(45, scale);
  }
}
