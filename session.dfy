/**
 * A class session of the timetable: its category table, its length in
 * minutes, its distance in minutes from a time of day, and the span of a
 * list of sessions.
 */
module Sessions {
  import opened LocalTime

  /** The named colours the category table refers to. */
  datatype Color = CyanA200 | BlueA200 | DeepOrangeA400 | OrangeA400 | DeepPurpleA400

  /** The category of a session. */
  datatype SessionType = Yoga | Barre | Dance | Metcon | Kettlebells

  /**
   * The fixed background colour of each category. Light text goes with
   * exactly the two deep (A400) orange and purple backgrounds.
   */
  function BackgroundColor(t: SessionType): (c: Color)
    ensures UseLightText(t) <==> c in {DeepOrangeA400, DeepPurpleA400}
  {
    match t
    case Yoga => CyanA200
    case Barre => BlueA200
    case Dance => DeepOrangeA400
    case Metcon => OrangeA400
    case Kettlebells => DeepPurpleA400
  }

  /** Each category has its own background colour: no two share one. */
  lemma BackgroundColorDistinct(t: SessionType, u: SessionType)
    ensures BackgroundColor(t) == BackgroundColor(u) <==> t == u
  {
  }

  /** Light text is the exception: only the two dark backgrounds ask for it. */
  function UseLightText(t: SessionType): (light: bool)
    ensures light <==> t in {Dance, Kettlebells}
  {
    match t
    case Dance => true
    case Kettlebells => true
    case _ => false
  }

  datatype Session = Session(
    name: string,
    instructor: string,
    category: SessionType,
    start: Time,
    end: Time
  )

  /**
   * The session's length in whole minutes, truncated toward zero. Nothing
   * checks that the session ends after it starts: an inverted session has a
   * negative length once the gap reaches a minute.
   */
  function TotalMinutes(s: Session): (m: int)
    ensures -MinutesPerDay < m < MinutesPerDay
    ensures s.start <= s.end ==> 0 <= m && m * NanosPerMinute <= s.end - s.start < (m + 1) * NanosPerMinute
    ensures s.end < s.start ==> m <= 0
    ensures s.end - s.start <= -NanosPerMinute ==> m < 0
  {
    ElapsedMinutes(s.start, s.end)
  }

  /**
   * Whole minutes from `time` to the session: up to its start when `time` is
   * before it, from its end when `time` is after it, and 0 in between. The
   * "before the start" test is made first, which matters only for inverted
   * sessions.
   */
  function MinutesBetween(s: Session, time: Time): (m: int)
    ensures 0 <= m < MinutesPerDay
    ensures s.start <= time <= s.end ==> m == 0
    ensures time < s.start ==> m == ElapsedMinutes(time, s.start)
    ensures s.start <= time && s.end < time ==> m == ElapsedMinutes(s.end, time)
  {
    if time < s.start then Abs(ElapsedMinutes(time, s.start))
    else if time > s.end then Abs(ElapsedMinutes(s.end, time))
    else 0
  }

  function Abs(x: int): int {
    if x < 0 then -x else x
  }

  function Max3(a: int, b: int, c: int): int {
    if a >= b && a >= c then a else if b >= c then b else c
  }

  /**
   * For a session that does not end before it starts, MinutesBetween is the
   * distance from `time` to the interval [start, end]: the larger of the
   * signed minutes up to the start, the signed minutes past the end, and 0.
   */
  lemma MinutesBetweenIsDistance(s: Session, time: Time)
    requires s.start <= s.end
    ensures MinutesBetween(s, time) == Max3(ElapsedMinutes(time, s.start), ElapsedMinutes(s.end, time), 0)
  {
    if time < s.start {
      ElapsedMonotone(s.end, time, time, s.start);
    } else if time > s.end {
      ElapsedMonotone(time, s.start, s.end, time);
    }
  }

  /**
   * The first session with the smallest start (Kotlin's minBy keeps the first
   * of equal keys).
   */
  function MinByStart(sessions: seq<Session>): (m: Session)
    requires |sessions| > 0
    ensures m in sessions
    ensures forall k :: 0 <= k < |sessions| ==> m.start <= sessions[k].start
  {
    if |sessions| == 1 then sessions[0]
    else
      var rest := MinByStart(sessions[..|sessions| - 1]);
      var last := sessions[|sessions| - 1];
      if last.start < rest.start then last else rest
  }

  /** The first session with the largest end (Kotlin's maxBy keeps the first of equal keys). */
  function MaxByEnd(sessions: seq<Session>): (m: Session)
    requires |sessions| > 0
    ensures m in sessions
    ensures forall k :: 0 <= k < |sessions| ==> sessions[k].end <= m.end
  {
    if |sessions| == 1 then sessions[0]
    else
      var rest := MaxByEnd(sessions[..|sessions| - 1]);
      var last := sessions[|sessions| - 1];
      if rest.end < last.end then last else rest
  }

  /**
   * The span of a list of sessions: whole minutes from the earliest start to
   * the latest end, whatever their order; 0 for no sessions.
   */
  function ListTotalMinutes(sessions: seq<Session>): (m: int)
    ensures sessions == [] ==> m == 0
    ensures -MinutesPerDay < m < MinutesPerDay
  {
    if |sessions| == 0 then 0
    else ElapsedMinutes(MinByStart(sessions).start, MaxByEnd(sessions).end)
  }

  /**
   * Any session with the earliest start and any with the latest end give the
   * span: it depends on the start and end values only, not on which session
   * minBy and maxBy pick.
   */
  lemma ListTotalMinutesIsSpan(sessions: seq<Session>, i: int, j: int)
    requires 0 <= i < |sessions| && 0 <= j < |sessions|
    requires forall k :: 0 <= k < |sessions| ==> sessions[i].start <= sessions[k].start
    requires forall k :: 0 <= k < |sessions| ==> sessions[k].end <= sessions[j].end
    ensures ListTotalMinutes(sessions) == ElapsedMinutes(sessions[i].start, sessions[j].end)
  {
    var lo, hi := MinByStart(sessions), MaxByEnd(sessions);
    var p :| 0 <= p < |sessions| && sessions[p] == lo;
    var q :| 0 <= q < |sessions| && sessions[q] == hi;
    assert lo.start == sessions[i].start;
    assert hi.end == sessions[j].end;
  }

  /** Reordering the sessions leaves the span unchanged. */
  lemma ListTotalMinutesPermutation(sessions: seq<Session>, reordered: seq<Session>)
    requires multiset(sessions) == multiset(reordered)
    ensures ListTotalMinutes(sessions) == ListTotalMinutes(reordered)
  {
    if |sessions| > 0 {
      assert |reordered| == |multiset(reordered)| == |multiset(sessions)| == |sessions|;
      var lo, hi := MinByStart(sessions), MaxByEnd(sessions);
      assert lo in multiset(reordered) && hi in multiset(reordered);
      var i :| 0 <= i < |reordered| && reordered[i] == lo;
      var j :| 0 <= j < |reordered| && reordered[j] == hi;
      forall k | 0 <= k < |reordered|
        ensures lo.start <= reordered[k].start && reordered[k].end <= hi.end
      {
        assert reordered[k] in multiset(sessions);
      }
      ListTotalMinutesIsSpan(reordered, i, j);
    }
  }

  /** The span of a list covers every member's own length. */
  lemma ListTotalMinutesCovers(sessions: seq<Session>, k: int)
    requires 0 <= k < |sessions|
    ensures TotalMinutes(sessions[k]) <= ListTotalMinutes(sessions)
  {
    var lo, hi := MinByStart(sessions), MaxByEnd(sessions);
    ElapsedMonotone(sessions[k].start, sessions[k].end, lo.start, hi.end);
  }

  /** A one-session list spans exactly that session. */
  lemma ListTotalMinutesSingle(s: Session)
    ensures ListTotalMinutes([s]) == TotalMinutes(s)
  {
  }
}
