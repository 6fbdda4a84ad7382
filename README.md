# Timetable track placement and version-stability rule, in Dafny

This project models the part of the "composing creatively with custom
layouts" Android demo that is not bound to the Compose runtime:

- **Sessions** (`session.dfy`, module `Sessions`): a class session of a
  timetable with its category, start and end times of day. It has a length
  in whole minutes (`totalMinutes`) and a distance in minutes from a time of
  day (`minutesBetween`), and a list of sessions has a span (earliest start
  to latest end). A fixed table gives each category its background colour
  and says whether it uses light text.
- **Times of day** (`local_time.dfy`, module `LocalTime`): `LocalTime` as a
  nano-of-day in `[0, 86400·10^9)`. `ChronoUnit.MINUTES.between` is the
  nanosecond difference divided by 60·10^9 with Java's truncation toward
  zero (`ElapsedMinutes`).
- **Track placement** (`schedule_row.dfy`, module `ScheduleRows`): the three
  ways the schedule screen lays out one track.
  - `ScheduleRowLayout` is the custom layout's measure and place policy. It
    returns a track width and height and one placement per session, giving
    the measuring constraints and the (x, y) position.
  - `ScheduleBoxRow` puts each session at an absolute offset of
    `minutesBetween(first start)`: the distance from the first session's
    start to the session. A session that ends before that start is offset
    by the gap from its own end, one that spans it gets 0, and an inverted
    session starting exactly there gets its own |length|.
  - `ScheduleRow` is a loop that emits, before every session but the first,
    a spacer of `minutesBetween(previous end)`, then the session block. The
    spacer is the free time between the two sessions when they are
    start-sorted and do not overlap. Otherwise it is the session's distance
    from the previous end (for example, 60 minutes for 08:00–09:00 after a
    session ending at 10:00).
  - The custom layout rounds to pixels itself, so it is modelled in pixels.
    Pixels per minute are an exact fraction `num/den`, and `roundToInt` /
    `roundToPx` is `Math.round`: `floor((2·m·num + den) / (2·den))`.
  - The other two hand unrounded Dp values (minutes × `dpsPerMinute`) to the
    toolkit, so they are modelled in minutes.
  - On start-sorted, non-overlapping sessions whose times fall on whole
    minutes, the lemmas show the three agree in minutes. The row's and the
    box's minute positions are equal, and that minute position rounded once
    at the layout's scale is the custom layout's x.
- **Version stability** (`version_catalog.dfy`, module `VersionCatalog`):
  the dependency-update rule of the build's version-catalog convention. A
  version is non-stable when its upper-cased text contains `ALPHA`. An
  update is rejected exactly when a non-stable candidate would replace a
  stable current version.

Facts about the code that the model keeps:

- Nothing checks that a session ends after it starts. An inverted session
  gets `totalMinutes` ≤ 0, negative once it is inverted by a minute or more.
- The layout's x-coordinates are not clamped. A session that starts before
  the first session in input order gets x ≤ 0, negative once its offset
  rounds to at least one pixel.
- The track width runs from the earliest start of all sessions (not from the
  first session's start) to the latest end.
- The constants `ScheduleRows.TestSessions` (the test list of
  CCWCL/schedule/src/main/java/rt/compose/schedule/ui/ScheduleRow.kt:196-225)
  and `VersionCatalog.NonStableKeywords` (the keyword list of
  CCWCL/build-logic/convention/src/main/kotlin/rt/convention/VersionCatalogUpdateConventionPlugin.kt:51)
  carry the source's own data.

## Model

| member | source | states |
|---|---|---|
| `LocalTime.ElapsedMinutes` | CCWCL/schedule/src/main/java/rt/compose/schedule/data/Session.kt:21-22 | whole minutes between two times, truncated toward zero: non-negative with `m·60s ≤ Δ < (m+1)·60s` forward, non-positive and symmetric backward; always within ±1439, so `toInt()` never truncates |
| `LocalTime.ElapsedAntisymmetric` | CCWCL/schedule/src/main/java/rt/compose/schedule/data/Session.kt:21-22 | swapping the two times negates the count (truncation toward zero, not flooring) |
| `LocalTime.ElapsedMonotone` | CCWCL/schedule/src/main/java/rt/compose/schedule/data/Session.kt:21-22 | a longer signed stretch of time never counts fewer minutes |
| `LocalTime.ElapsedOnMinutes` | CCWCL/schedule/src/main/java/rt/compose/schedule/data/Session.kt:21-22 | between whole-minute times the count is exactly the difference of their minute numbers |
| `LocalTime.ElapsedAdditive` | CCWCL/schedule/src/main/java/rt/compose/schedule/data/Session.kt:21-22 | between whole-minute times, a→b plus b→c counts the same minutes as a→c, in any order |
| `LocalTime.ElapsedSuperadditive` | CCWCL/schedule/src/main/java/rt/compose/schedule/data/Session.kt:21-22 | for a ≤ b ≤ c, splitting the stretch at b never counts more minutes than the whole stretch |
| `Sessions.BackgroundColor` | CCWCL/schedule/src/main/java/rt/compose/schedule/data/Session.kt:24-33 | each category's fixed background colour; light text goes with exactly the deep-orange and deep-purple (A400) backgrounds |
| `Sessions.BackgroundColorDistinct` | CCWCL/schedule/src/main/java/rt/compose/schedule/data/Session.kt:24-33 | each category has one fixed background colour and no two categories share one |
| `Sessions.UseLightText` | CCWCL/schedule/src/main/java/rt/compose/schedule/data/Session.kt:24-33 | exactly Dance and Kettlebells use light text; Yoga, Barre and Metcon keep the default false |
| `Sessions.TotalMinutes` | CCWCL/schedule/src/main/java/rt/compose/schedule/data/Session.kt:21-22 | a session's length in whole minutes: bracketed by its nanosecond length when it ends after it starts, ≤ 0 when inverted and < 0 once inverted by a minute or more (no validation) |
| `Sessions.MinutesBetween` | CCWCL/schedule/src/main/java/rt/compose/schedule/data/Session.kt:36-40 | never negative; 0 whenever start ≤ time ≤ end; minutes from time to start when time is before the start (that test wins); minutes from end to time when time is after the end |
| `Sessions.MinutesBetweenIsDistance` | CCWCL/schedule/src/main/java/rt/compose/schedule/data/Session.kt:36-40 | for a non-inverted session it is the distance to the interval: max(minutes up to the start, minutes past the end, 0) |
| `Sessions.MinByStart` | CCWCL/schedule/src/main/java/rt/compose/schedule/data/Session.kt:45 | the chosen session is a member of the list and no member starts earlier |
| `Sessions.MaxByEnd` | CCWCL/schedule/src/main/java/rt/compose/schedule/data/Session.kt:46 | the chosen session is a member of the list and no member ends later |
| `Sessions.ListTotalMinutes` | CCWCL/schedule/src/main/java/rt/compose/schedule/data/Session.kt:42-48 | 0 for an empty list; always within ±1439 minutes |
| `Sessions.ListTotalMinutesIsSpan` | CCWCL/schedule/src/main/java/rt/compose/schedule/data/Session.kt:45-47 | the list span is the minutes from any earliest start to any latest end, whichever session `minBy`/`maxBy` pick |
| `Sessions.ListTotalMinutesPermutation` | CCWCL/schedule/src/main/java/rt/compose/schedule/data/Session.kt:45-47 | any reordering of the list has the same span |
| `Sessions.ListTotalMinutesCovers` | CCWCL/schedule/src/main/java/rt/compose/schedule/data/Session.kt:42-48 | the span is at least every member's own `totalMinutes` |
| `Sessions.ListTotalMinutesSingle` | CCWCL/schedule/src/main/java/rt/compose/schedule/data/Session.kt:42-48 | a one-session list spans exactly that session's `totalMinutes` |
| `ScheduleRows.RoundPx` | CCWCL/schedule/src/main/java/rt/compose/schedule/ui/ScheduleRow.kt:172 | the pixel count is Math.round of minutes × scale: within half a pixel below and strictly less than half a pixel above the exact value |
| `ScheduleRows.RoundPxWhole` | CCWCL/schedule/src/main/java/rt/compose/schedule/ui/ScheduleRow.kt:162 | at a whole number of pixels per minute, rounding is exact |
| `ScheduleRows.RoundPxMonotone` | CCWCL/schedule/src/main/java/rt/compose/schedule/ui/ScheduleRow.kt:181 | at a non-negative scale more minutes never give fewer pixels |
| `ScheduleRows.RoundPxScaleMonotone` | CCWCL/schedule/src/main/java/rt/compose/schedule/ui/ScheduleRow.kt:161-162 | for a non-negative length, a larger scale never gives fewer pixels |
| `ScheduleRows.RoundPxSumBound` | CCWCL/schedule/src/main/java/rt/compose/schedule/ui/ScheduleRow.kt:162 | rounding two lengths separately exceeds rounding their sum by at most one pixel |
| `ScheduleRows.SessionConstraints` | CCWCL/schedule/src/main/java/rt/compose/schedule/ui/ScheduleRow.kt:159-164 | a session is measured with min width = max width = its rounded `totalMinutes`; the height constraints are copied unchanged |
| `ScheduleRows.XCoordinates` | CCWCL/schedule/src/main/java/rt/compose/schedule/ui/ScheduleRow.kt:175-183 | one x per start time, empty for no sessions, and the first at 0 |
| `ScheduleRows.ScheduleRowLayout` | CCWCL/schedule/src/main/java/rt/compose/schedule/ui/ScheduleRow.kt:155-189 | one placement per session in input order, every one at y = 0; x of session k = round(signed minutes from the first session's start × scale), first at 0; track width = round(list span × scale), 0 for no sessions; track height = incoming max height |
| `ScheduleRows.LayoutKeepsStartOrder` | CCWCL/schedule/src/main/java/rt/compose/schedule/ui/ScheduleRow.kt:179-182 | at a non-negative scale a session starting no later than another is placed no further right; one starting before the first session has x ≤ 0 |
| `ScheduleRows.LayoutTrackCoversEachWidth` | CCWCL/schedule/src/main/java/rt/compose/schedule/ui/ScheduleRow.kt:159-174 | no session is measured wider than the track |
| `ScheduleRows.LayoutSizeIgnoresOrder` | CCWCL/schedule/src/main/java/rt/compose/schedule/ui/ScheduleRow.kt:171-174 | reordering the sessions leaves the track width and height unchanged |
| `ScheduleRows.LayoutWidthGrowsWithScale` | CCWCL/schedule/src/main/java/rt/compose/schedule/ui/ScheduleRow.kt:160-163 | a larger scale never measures a non-inverted session narrower |
| `ScheduleRows.ConsecutiveOrdered` | CCWCL/schedule/src/main/java/rt/compose/schedule/ui/ScheduleRow.kt:60-78 | in a start-sorted, non-overlapping list, starts and ends never decrease |
| `ScheduleRows.ConsecutiveSpan` | CCWCL/schedule/src/main/java/rt/compose/schedule/data/Session.kt:45-47 | for start-sorted, non-overlapping sessions the span runs from the first start to the last end |
| `ScheduleRows.ConsecutiveFitMinutes` | CCWCL/schedule/src/main/java/rt/compose/schedule/ui/ScheduleRow.kt:172-182 | for start-sorted, non-overlapping sessions, every session's offset plus its length (in minutes) is at most the span |
| `ScheduleRows.LayoutFitsWholeScale` | CCWCL/schedule/src/main/java/rt/compose/schedule/ui/ScheduleRow.kt:159-186 | at a whole, non-negative px per minute, every x + width ≤ track width for start-sorted, non-overlapping sessions |
| `ScheduleRows.LayoutFitsWithinOnePixel` | CCWCL/schedule/src/main/java/rt/compose/schedule/ui/ScheduleRow.kt:159-186 | at any non-negative scale, every x + width ≤ track width + 1 for start-sorted, non-overlapping sessions |
| `ScheduleRows.LayoutCanOverhangOnePixel` | CCWCL/schedule/src/main/java/rt/compose/schedule/ui/ScheduleRow.kt:159-186 | the one pixel is reached: at ½ px per minute, two back-to-back one-minute sessions end one pixel past the track |
| `ScheduleRows.ScheduleBoxRow` | CCWCL/schedule/src/main/java/rt/compose/schedule/ui/ScheduleRow.kt:102-119 | one box per session in input order (none for an empty list); offset = `minutesBetween(first.start)` ≥ 0; width = `totalMinutes` |
| `ScheduleRows.BoxRowAgreesWithLayout` | CCWCL/schedule/src/main/java/rt/compose/schedule/ui/ScheduleRow.kt:105-108 | for a session starting after the first one, or at its start without being inverted, the box offset rounded at the layout's scale equals the custom layout's x |
| `ScheduleRows.RowChildren` | CCWCL/schedule/src/main/java/rt/compose/schedule/ui/ScheduleRow.kt:60-78 | 2n − 1 children for n sessions (none for none): session k's block at 2k, as wide as its `totalMinutes`, and before every later session exactly one spacer of `minutesBetween(previous end)` |
| `ScheduleRows.ScheduleRow` | CCWCL/schedule/src/main/java/rt/compose/schedule/ui/ScheduleRow.kt:49-80 | the loop with its `lastTime` variable emits exactly the children above |
| `ScheduleRows.SpacerIsGap` | CCWCL/schedule/src/main/java/rt/compose/schedule/ui/ScheduleRow.kt:62-66 | between back-to-back sessions the spacer is the free time from the previous end to the next start, 0 when they touch |
| `ScheduleRows.RowPositionIsElapsed` | CCWCL/schedule/src/main/java/rt/compose/schedule/ui/ScheduleRow.kt:60-78 | for start-sorted, non-overlapping whole-minute sessions, the widths and spacers before session k add up to its minutes from the first start |
| `ScheduleRows.RowExtentIsSpan` | CCWCL/schedule/src/main/java/rt/compose/schedule/ui/ScheduleRow.kt:60-78 | for such sessions the whole row is exactly as wide as the list span |
| `ScheduleRows.VariantsAgree` | CCWCL/schedule/src/main/java/rt/compose/schedule/ui/ScheduleRow.kt:60-186 | for such sessions the row's minute position of session k equals its box offset, and rounded once at the layout's scale it is the layout's x; the row's minute extent rounded once is the layout's track width |
| `ScheduleRows.TestListPlacement` | CCWCL/schedule/src/main/java/rt/compose/schedule/ui/ScheduleRow.kt:196-225 | at 3 px/min the test list is placed at x = 0, 270, 720, 990 on a 1125 px track |
| `ScheduleRows.TestListWidths` | CCWCL/schedule/src/main/java/rt/compose/schedule/ui/ScheduleRow.kt:196-225 | at 3 px/min the test list's sessions measure 180, 270, 180, 135 px |
| `VersionCatalog.UpperChar` | CCWCL/build-logic/convention/src/main/kotlin/rt/convention/VersionCatalogUpdateConventionPlugin.kt:59 | ASCII a-z move to A-Z, every other character is kept, and no lower-case ASCII letter is left |
| `VersionCatalog.Uppercase` | CCWCL/build-logic/convention/src/main/kotlin/rt/convention/VersionCatalogUpdateConventionPlugin.kt:59 | same length, every character upper-cased |
| `VersionCatalog.UppercaseIdempotent` | CCWCL/build-logic/convention/src/main/kotlin/rt/convention/VersionCatalogUpdateConventionPlugin.kt:59 | upper-casing twice gives the same text as once |
| `VersionCatalog.Contains` | CCWCL/build-logic/convention/src/main/kotlin/rt/convention/VersionCatalogUpdateConventionPlugin.kt:60 | the search finds the keyword exactly when it occurs at some index |
| `VersionCatalog.IsNonStableVersion` | CCWCL/build-logic/convention/src/main/kotlin/rt/convention/VersionCatalogUpdateConventionPlugin.kt:51-61 | non-stable iff the upper-cased version contains "ALPHA" (the only keyword) |
| `VersionCatalog.RejectVersion` | CCWCL/build-logic/convention/src/main/kotlin/rt/convention/VersionCatalogUpdateConventionPlugin.kt:42-44 | a stable candidate is never rejected, nothing is rejected while the current version is non-stable, and a non-stable candidate over a stable current version is rejected |
| `VersionCatalog.AnyCaseOfAlphaIsNonStable` | CCWCL/build-logic/convention/src/main/kotlin/rt/convention/VersionCatalogUpdateConventionPlugin.kt:59-60 | "alpha" in any mix of cases, anywhere in the version, makes it non-stable |
| `VersionCatalog.StabilityIgnoresCase` | CCWCL/build-logic/convention/src/main/kotlin/rt/convention/VersionCatalogUpdateConventionPlugin.kt:59-60 | versions that differ only in letter case are classified alike |
| `VersionCatalog.WithoutLetterLIsStable` | CCWCL/build-logic/convention/src/main/kotlin/rt/convention/VersionCatalogUpdateConventionPlugin.kt:51-61 | a version with no letter L in either case is stable |
| `VersionCatalog.LowerCaseAlphaExample` | CCWCL/build-logic/convention/src/main/kotlin/rt/convention/VersionCatalogUpdateConventionPlugin.kt:59-60 | "1.2.0-alpha03" is non-stable |
| `VersionCatalog.BetaExample` | CCWCL/build-logic/convention/src/main/kotlin/rt/convention/VersionCatalogUpdateConventionPlugin.kt:51 | "1.2.0-beta01" counts as stable |
| `VersionCatalog.ReleaseCandidateExample` | CCWCL/build-logic/convention/src/main/kotlin/rt/convention/VersionCatalogUpdateConventionPlugin.kt:51 | "1.2.0-rc01" counts as stable |
| `VersionCatalog.StableNotMovedToAlphaExample` | CCWCL/build-logic/convention/src/main/kotlin/rt/convention/VersionCatalogUpdateConventionPlugin.kt:42-44 | the update 1.2.0 → 1.3.0-alpha01 is rejected |
| `VersionCatalog.AlphaMovesOnExample` | CCWCL/build-logic/convention/src/main/kotlin/rt/convention/VersionCatalogUpdateConventionPlugin.kt:42-44 | the update 1.3.0-alpha01 → 1.3.0-alpha02 is accepted |

## Left out

- Compose runtime mechanics are not modelled: `Layout`, `measure`,
  `placeRelative`, `Row` and `Box` child placement, `horizontalScroll`,
  `key` and `layoutId`. The model keeps only the numbers handed to them.
- The layout's error paths for negative sizes are dropped. Compose's
  `Constraints.copy`, which is library code, throws an
  IllegalArgumentException for a negative `minWidth`. So the custom layout
  fails at `constraints.copy(...)` for any session whose rounded width is
  negative. Only an inverted session can have one. `layout()` likewise rejects a
  negative track width. The model returns these negative numbers instead of
  failing.
- Dp to pixel conversion through the screen density is not modelled, and
  neither is float rounding error. Pixels per minute are an exact fraction,
  and rounding is exact `Math.round` of the exact product.
- ScheduleRow: spacer and block widths are kept in minutes. The Dp values
  are those minutes × `dpsPerMinute`. How `Row` rounds each child's Dp to
  pixels is toolkit behaviour and not modelled.
- ScheduleBoxRow: offsets and widths are kept in minutes for the same
  reason.
- Uppercase: only ASCII letters are mapped. Kotlin's `uppercase()` maps all
  of Unicode and can lengthen text (ß → SS).
- UpperChar: characters outside ASCII are kept as they are, even those
  whose full upper case expands to ASCII letters. For example, U+1E9A `ẚ`
  upper-cases to "A" followed by U+02BE.
- IsNonStableVersion: for the same reason, a version that reaches "ALPHA"
  only through such a character is stable here but non-stable in the
  program. For example, "1.0-alphẚ" upper-cases to "1.0-ALPHAʾ".
- VariantsAgree: the row is compared with the layout in minutes, rounded
  once at the layout's scale. `Row` rounds every spacer and block to pixels
  on its own and stacks them. At a fractional pixels-per-minute its real
  pixel positions can therefore drift from the layout's x. For example, at
  ½ px per minute, three back-to-back one-minute sessions put the third at
  2 px in the row but at 1 px in the layout.
- The colour values behind the colour names (`CyanA200` and so on) are
  defined in the schedule UI theme file. That file is not part of this
  model, so colours are names.
- Session names, instructors, the `Session` composable's text styling and
  time formatting are not modelled.
- The `apply` body of the version-catalog convention plugin is not
  modelled. It is Gradle plugin wiring.
- The other modules of the demo are not modelled: the photo-crop view,
  aspect ratios, polar offsets, size rounding, activities and the other
  build convention plugins. They are UI, floating-point or build plumbing.
