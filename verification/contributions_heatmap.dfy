/** The "neural activity" contributions heatmap (an 850 x 280 card).

    The renderer turns a contributions bundle (`weeks`, `total`, `streak`) and a
    theme (colour role -> colour) into the fragments of the card. Instead of SVG
    text, every fragment is a typed descriptor carrying the data-dependent
    numbers and the colours of the markup; `Render` returns them section by
    section, in document order. */
module ContributionsHeatmap {
  import opened Results

  // ---------------------------------------------------------------------------
  // Inputs
  // ---------------------------------------------------------------------------

  const Width: int := 850
  const Height: int := 280

  /** Colour role -> colour value. */
  type Theme = map<string, string>

  /** A value of the contributions dictionary: the weekly counts, or a scalar
      such as `total` or `streak`. */
  datatype Value = Counts(items: seq<int>) | Number(n: int)

  /** The contributions dictionary. */
  type Bundle = map<string, Value>

  /** The deterministic generator `deterministic_random(seed, count, low, high)`.
      Its body is not part of this model; it is passed in as a function value. */
  type Rng = (string, nat, real, real) -> seq<real>

  /** The one thing the renderer relies on from the generator: it returns as
      many values as were asked for. */
  ghost predicate ReturnsCount(rng: Rng) {
    forall seed, count, low, high :: |rng(seed, count, low, high)| == count
  }

  /** Why a render fails: a theme role that is absent (Python's `KeyError`), or
      a `weeks` entry that is not a sequence (Python's `TypeError` from `len`). */
  datatype RenderError = MissingThemeRole(role: string) | NotASequence(key: string)

  /** `theme[role]` for each role in turn: the colours, or the first role that is
      missing, which is the one whose lookup raises first. */
  function Lookup(theme: Theme, roles: seq<string>): (r: Result<seq<string>, RenderError>)
    ensures r.Ok? <==> forall k :: 0 <= k < |roles| ==> roles[k] in theme
    ensures r.Ok? ==> |r.value| == |roles| && forall k :: 0 <= k < |roles| ==> r.value[k] == theme[roles[k]]
    ensures r.Err? ==> exists k :: 0 <= k < |roles| && roles[k] !in theme && r.error == MissingThemeRole(roles[k])
                                  && forall j :: 0 <= j < k ==> roles[j] in theme
  {
    if roles == [] then Ok([])
    else if roles[0] !in theme then Err(MissingThemeRole(roles[0]))
    else
      match Lookup(theme, roles[1..])
      case Err(e) => Err(e)
      case Ok(rest) => Ok([theme[roles[0]]] + rest)
  }

  /** `contributions_data.get('weeks', [])`, followed by the `len` that fails on
      a scalar. */
  function WeeksOf(bundle: Bundle): (r: Result<seq<int>, RenderError>)
    ensures "weeks" !in bundle ==> r == Ok([])
    ensures "weeks" in bundle && bundle["weeks"].Counts? ==> r == Ok(bundle["weeks"].items)
    ensures r.Err? <==> "weeks" in bundle && bundle["weeks"].Number?
  {
    if "weeks" !in bundle then Ok([])
    else match bundle["weeks"]
      case Counts(items) => Ok(items)
      case Number(_) => Err(NotASequence("weeks"))
  }

  /** `contributions_data.get(key, 0)`. */
  function ScalarOf(bundle: Bundle, key: string): (v: Value)
    ensures key !in bundle ==> v == Number(0)
    ensures key in bundle ==> v == bundle[key]
  {
    if key in bundle then bundle[key] else Number(0)
  }

  // ---------------------------------------------------------------------------
  // Window normalisation and the maximum
  // ---------------------------------------------------------------------------

  /** Number of weeks the card shows. */
  const WindowLength: nat := 52

  function Zeros(n: nat): (z: seq<int>)
    ensures |z| == n && forall k :: 0 <= k < n ==> z[k] == 0
  {
    seq(n, _ => 0)
  }

  /** Keep the last 52 weeks, or pad on the left with zeros. */
  function Window(weeks: seq<int>): (w: seq<int>)
    ensures |w| == WindowLength
    ensures |weeks| >= WindowLength ==> w == weeks[|weeks| - WindowLength..]
    ensures |weeks| < WindowLength ==> w == Zeros(WindowLength - |weeks|) + weeks
    ensures forall k :: 0 <= k < WindowLength ==>
              w[k] == if k + |weeks| < WindowLength then 0 else weeks[k + |weeks| - WindowLength]
  {
    var kept := if |weeks| > WindowLength then weeks[|weeks| - WindowLength..] else weeks;
    if |kept| < WindowLength then Zeros(WindowLength - |kept|) + kept else kept
  }

  /** Python's `max` of a non-empty list. */
  function Max(s: seq<int>): (m: int)
    requires |s| > 0
    ensures m in s
    ensures forall k :: 0 <= k < |s| ==> s[k] <= m
  {
    if |s| == 1 then s[0]
    else
      var rest := Max(s[1..]);
      if rest > s[0] then rest else s[0]
  }

  /** `max(weeks) if weeks else 1`. */
  function WindowMax(w: seq<int>): (m: int)
    ensures |w| == 0 ==> m == 1
    ensures |w| > 0 ==> m in w && forall k :: 0 <= k < |w| ==> w[k] <= m
  {
    if |w| > 0 then Max(w) else 1
  }

  /** The `else 1` fallback is dead: the normalised window is never empty, so
      the maximum is always the largest count (and may be zero or negative). */
  lemma FallbackMaximumUnreachable(weeks: seq<int>)
    ensures WindowMax(Window(weeks)) == Max(Window(weeks))
    ensures WindowMax(Window(weeks)) == 0 ==>
              forall k :: 0 <= k < WindowLength && Window(weeks)[k] >= 0 ==> Window(weeks)[k] == 0
  {
  }

  // ---------------------------------------------------------------------------
  // Week bars
  // ---------------------------------------------------------------------------

  const BarWidth: int := 8
  const MaxBarHeight: real := 120.0
  const MinBarHeight: real := 4.0
  const FallbackBarHeight: real := 10.0
  const StartX: int := 60
  const Spacing: int := 12
  const BaseY: real := 200.0
  const DelayStep: real := 0.02
  const RevealDuration: real := 0.8
  const PulsePeriod: real := 2.0

  /** The three roles of the bar palette, in the order the list is built. */
  const BarRoles: seq<string> := ["synapse_cyan", "dendrite_violet", "axon_amber"]

  /** The fragments emitted for one non-zero week: its glow filter, its bar and
      the dot on top of the bar. */
  datatype BarPart =
    | Glow(week: nat, color: string)
    | Rect(week: nat, x: int, height: real, color: string, delay: real)
    | Dot(week: nat, cx: real, height: real, color: string, delay: real)

  /** One-shot animations hold their final value (`fill="freeze"`); repeating
      ones run forever (`repeatCount="indefinite"`). */
  datatype Animation =
    | Reveal(attribute: string, from: real, to: real, dur: real, begin: real)
    | Repeat(attribute: string, values: seq<real>, dur: real, begin: real)

  /** Height of a bar: scaled against the window maximum with a minimum of 4,
      or 10 when the maximum is not positive. */
  function BarHeight(count: int, maxc: int): (h: real)
    ensures h >= MinBarHeight
    ensures maxc <= 0 ==> h == FallbackBarHeight
    ensures maxc > 0 && count <= maxc ==> h <= MaxBarHeight
    ensures maxc > 0 && h > MinBarHeight ==> h * (maxc as real) == (count as real) * MaxBarHeight
    ensures maxc > 0 ==> h * (maxc as real) >= (count as real) * MaxBarHeight
    ensures maxc > 0 ==> h == MinBarHeight || h * (maxc as real) == (count as real) * MaxBarHeight
  {
    var scaled := if maxc > 0 then (count as real / maxc as real) * MaxBarHeight else FallbackBarHeight;
    if MinBarHeight > scaled then MinBarHeight else scaled
  }

  /** Bars above the minimum keep the ratio of their counts. */
  lemma HeightsKeepRatio(c1: int, c2: int, maxc: int)
    requires maxc > 0
    requires BarHeight(c1, maxc) > MinBarHeight && BarHeight(c2, maxc) > MinBarHeight
    ensures BarHeight(c1, maxc) * (c2 as real) == BarHeight(c2, maxc) * (c1 as real)
  {
    var h1, h2, m := BarHeight(c1, maxc), BarHeight(c2, maxc), maxc as real;
    assert h1 * m == (c1 as real) * MaxBarHeight;
    assert h2 * m == (c2 as real) * MaxBarHeight;
    calc {
      h1 * (c2 as real) * m;
      h1 * m * (c2 as real);
      (c1 as real) * MaxBarHeight * (c2 as real);
      h2 * m * (c1 as real);
      h2 * (c1 as real) * m;
    }
  }

  /** The three fragments of week `i`, whose count is `count`. */
  function WeekParts(i: nat, count: int, maxc: int, colors: seq<string>): (r: seq<BarPart>)
    requires |colors| == 3
    ensures |r| == 3 && r[0].Glow? && r[1].Rect? && r[2].Dot?
    ensures forall j :: 0 <= j < 3 ==> r[j].week == i && r[j].color == colors[i % 3]
    ensures r[1].height == r[2].height == BarHeight(count, maxc) && r[1].delay == r[2].delay
  {
    var h := BarHeight(count, maxc);
    var color := colors[i % 3];
    var delay := (i as real) * DelayStep;
    [Glow(i, color),
     Rect(i, StartX + i * Spacing, h, color, delay),
     Dot(i, (StartX + i * Spacing) as real + (BarWidth as real) / 2.0, h, color, delay)]
  }

  /** The fragments of all weeks, in index order; zero weeks emit nothing. */
  function Bars(weeks: seq<int>, maxc: int, colors: seq<string>): (r: seq<BarPart>)
    requires |colors| == 3
    ensures forall j :: 0 <= j < |r| ==> r[j].week < |weeks| && weeks[r[j].week] != 0
    decreases |weeks|
  {
    if weeks == [] then []
    else
      var i := |weeks| - 1;
      Bars(weeks[..i], maxc, colors) + (if weeks[i] == 0 then [] else WeekParts(i, weeks[i], maxc, colors))
  }

  /** The indices of the non-zero weeks, in increasing order. */
  function ActiveWeeks(weeks: seq<int>): (a: seq<nat>)
    ensures forall j :: 0 <= j < |a| ==> a[j] < |weeks| && weeks[a[j]] != 0
    ensures forall j, k :: 0 <= j < k < |a| ==> a[j] < a[k]
    ensures forall i :: 0 <= i < |weeks| && weeks[i] != 0 ==> i in a
    decreases |weeks|
  {
    if weeks == [] then []
    else
      var i := |weeks| - 1;
      ActiveWeeks(weeks[..i]) + (if weeks[i] == 0 then [] else [i])
  }

  /** The fragments of the given weeks, one week after the other. */
  function PartsFor(active: seq<nat>, weeks: seq<int>, maxc: int, colors: seq<string>): (r: seq<BarPart>)
    requires |colors| == 3
    requires forall j :: 0 <= j < |active| ==> active[j] < |weeks|
    ensures |r| == 3 * |active|
    decreases |active|
  {
    if active == [] then []
    else
      var n := |active| - 1;
      PartsFor(active[..n], weeks, maxc, colors) + WeekParts(active[n], weeks[active[n]], maxc, colors)
  }

  /** Only the counts at the listed weeks matter. */
  lemma {:induction false} PartsForAgree(active: seq<nat>, front: seq<int>, weeks: seq<int>, maxc: int, colors: seq<string>)
    requires |colors| == 3
    requires |front| <= |weeks| && front == weeks[..|front|]
    requires forall j :: 0 <= j < |active| ==> active[j] < |front|
    ensures PartsFor(active, front, maxc, colors) == PartsFor(active, weeks, maxc, colors)
    decreases |active|
  {
    if active != [] {
      var n := |active| - 1;
      PartsForAgree(active[..n], front, weeks, maxc, colors);
      assert front[active[n]] == weeks[active[n]];
    }
  }

  /** Each non-zero week emits exactly one glow, one bar and one dot, in index
      order, and nothing else is emitted. */
  lemma {:induction false} BarsFollowActiveWeeks(weeks: seq<int>, maxc: int, colors: seq<string>)
    requires |colors| == 3
    ensures Bars(weeks, maxc, colors) == PartsFor(ActiveWeeks(weeks), weeks, maxc, colors)
    decreases |weeks|
  {
    if weeks != [] {
      var i := |weeks| - 1;
      var front := weeks[..i];
      var a0 := ActiveWeeks(front);
      BarsFollowActiveWeeks(front, maxc, colors);
      PartsForAgree(a0, front, weeks, maxc, colors);
      if weeks[i] == 0 {
        assert ActiveWeeks(weeks) == a0 + [] == a0;
        calc {
          Bars(weeks, maxc, colors);
          Bars(front, maxc, colors) + [];
          Bars(front, maxc, colors);
          PartsFor(a0, front, maxc, colors);
          PartsFor(a0, weeks, maxc, colors);
        }
      } else {
        var a := a0 + [i];
        assert ActiveWeeks(weeks) == a;
        assert a[..|a| - 1] == a0;
        calc {
          Bars(weeks, maxc, colors);
          Bars(front, maxc, colors) + WeekParts(i, weeks[i], maxc, colors);
          PartsFor(a0, weeks, maxc, colors) + WeekParts(i, weeks[i], maxc, colors);
          PartsFor(a, weeks, maxc, colors);
        }
      }
    }
  }

  /** An all-zero window has no active week. */
  lemma {:induction false} ZeroWeeksAreInactive(weeks: seq<int>)
    requires forall k :: 0 <= k < |weeks| ==> weeks[k] == 0
    ensures ActiveWeeks(weeks) == []
    decreases |weeks|
  {
    if weeks != [] {
      ZeroWeeksAreInactive(weeks[..|weeks| - 1]);
    }
  }

  /** A window of zeros emits no fragment at all. */
  lemma NoActiveWeeksNoBars(weeks: seq<int>, maxc: int, colors: seq<string>)
    requires |colors| == 3
    requires forall k :: 0 <= k < |weeks| ==> weeks[k] == 0
    ensures Bars(weeks, maxc, colors) == []
  {
    BarsFollowActiveWeeks(weeks, maxc, colors);
    ZeroWeeksAreInactive(weeks);
  }

  /** With non-negative counts, a zero maximum means every week of the window
      is 0, so no fragment is drawn. */
  lemma ZeroMaximumDrawsNoBar(weeks: seq<int>, colors: seq<string>)
    requires |colors| == 3
    requires forall k :: 0 <= k < |weeks| ==> weeks[k] >= 0
    requires Max(Window(weeks)) == 0
    ensures Bars(Window(weeks), 0, colors) == []
  {
    FallbackMaximumUnreachable(weeks);
    NoActiveWeeksNoBars(Window(weeks), 0, colors);
  }

  /** `_build_week_bars` as a value: the palette lookup, then the bars. */
  function WeekBars(weeks: seq<int>, maxc: int, theme: Theme): (r: Result<seq<BarPart>, RenderError>)
    ensures r.Ok? <==> Lookup(theme, BarRoles).Ok?
    ensures r.Err? ==> r.error == Lookup(theme, BarRoles).error
  {
    var colors :- Lookup(theme, BarRoles);
    Ok(Bars(weeks, maxc, colors))
  }

  /** One more week appends that week's fragments, or nothing for a zero week. */
  lemma BarsStep(weeks: seq<int>, i: nat, maxc: int, colors: seq<string>)
    requires i < |weeks| && |colors| == 3
    ensures Bars(weeks[..i + 1], maxc, colors)
         == Bars(weeks[..i], maxc, colors) + (if weeks[i] == 0 then [] else WeekParts(i, weeks[i], maxc, colors))
  {
    assert weeks[..i + 1][..i] == weeks[..i];
  }

  /** Three appends in a row append the three fragments. */
  lemma AppendThree(done: seq<BarPart>, a: BarPart, b: BarPart, c: BarPart)
    ensures done + [a] + [b] + [c] == done + [a, b, c]
  {
  }

  /** The body of the bar loop for a non-zero week `i`: its position, height,
      colour and delay, then the glow, the bar and the dot appended in turn. */
  method AppendWeek(bars: seq<BarPart>, i: nat, count: int, maxc: int, colors: seq<string>) returns (out: seq<BarPart>)
    requires |colors| == 3
    ensures out == bars + WeekParts(i, count, maxc, colors)
  {
    var x := StartX + i * Spacing;
    var height := if maxc > 0 then (count as real / maxc as real) * MaxBarHeight else FallbackBarHeight;
    height := if MinBarHeight > height then MinBarHeight else height;
    var color := colors[i % |colors|];
    var delay := (i as real) * DelayStep;
    out := bars + [Glow(i, color)];
    out := out + [Rect(i, x, height, color, delay)];
    out := out + [Dot(i, x as real + (BarWidth as real) / 2.0, height, color, delay)];
    AppendThree(bars, Glow(i, color), Rect(i, x, height, color, delay), Dot(i, x as real + (BarWidth as real) / 2.0, height, color, delay));
    assert height == BarHeight(count, maxc);
  }

  /** Builds the bar fragments by walking the weeks and appending, as the
      template does. */
  method BuildWeekBars(weeks: seq<int>, maxc: int, theme: Theme) returns (r: Result<seq<BarPart>, RenderError>)
    ensures r == WeekBars(weeks, maxc, theme)
  {
    var colors :- Lookup(theme, BarRoles);
    var bars: seq<BarPart> := [];
    for i := 0 to |weeks|
      invariant bars == Bars(weeks[..i], maxc, colors)
    {
      BarsStep(weeks, i, maxc, colors);
      var count := weeks[i];
      if count == 0 {
        continue;
      }
      bars := AppendWeek(bars, i, count, maxc, colors);
    }
    assert weeks[..|weeks|] == weeks;
    return Ok(bars);
  }

  /** The `<animate>` children of each fragment. */
  function Animations(p: BarPart): (r: seq<Animation>)
    ensures |r| == if p.Glow? then 0 else if p.Rect? then 3 else 2
    ensures forall a :: a in r ==> a.dur == if a.Repeat? then PulsePeriod else RevealDuration
    ensures forall a :: a in r && a.Reveal? ==> !p.Glow? && a.begin == p.delay && a.to == a.from + (if a.attribute == "height" then p.height else -p.height)
  {
    match p
    case Glow(_, _) => []
    case Rect(_, _, h, _, d) =>
      [Reveal("height", 0.0, h, RevealDuration, d),
       Reveal("y", BaseY, BaseY - h, RevealDuration, d),
       Repeat("opacity", [0.6, 1.0, 0.6], PulsePeriod, d)]
    case Dot(_, _, h, _, d) =>
      [Reveal("cy", BaseY, BaseY - h, RevealDuration, d),
       Repeat("opacity", [0.0, 1.0, 0.7, 1.0, 0.7], PulsePeriod, d + RevealDuration)]
  }

  /** Layout of week `i` depends only on `i`: the bar sits at 60 + 12i, all three
      fragments share the colour `colors[i mod 3]`, so weeks `i` and `i + 3k`
      share a colour, and the dot is centred on the bar. Bar and dot grow upward
      from the baseline to the same top, the reveals start 0.02i seconds in and
      freeze, the pulses repeat every 2 s, and the dot starts pulsing exactly when
      its reveal ends. */
  lemma WeekLayout(i: nat, k: nat, count: int, other: int, maxc: int, colors: seq<string>)
    requires |colors| == 3
    ensures var p, q := WeekParts(i, count, maxc, colors), WeekParts(i + 3 * k, other, maxc, colors);
      && p[1].x == StartX + Spacing * i
      && p[0].color == p[1].color == p[2].color == q[0].color
      && p[1].color == colors[i % 3]
      && p[2].cx == p[1].x as real + (BarWidth as real) / 2.0
      && p[1].delay == (i as real) * DelayStep
      && Animations(p[1])[1] == Reveal("y", BaseY, BaseY - p[1].height, RevealDuration, p[1].delay)
      && Animations(p[2])[0] == Reveal("cy", BaseY, BaseY - p[1].height, RevealDuration, p[1].delay)
      && Animations(p[1])[2].dur == Animations(p[2])[1].dur == PulsePeriod
      && Animations(p[2])[1].begin == Animations(p[2])[0].begin + Animations(p[2])[0].dur
  {
    assert (i + 3 * k) % 3 == i % 3;
  }

  /** Every bar and dot is between 4 and 120 high when no count exceeds the
      maximum it is scaled against: positive counts scale into (0, 120], negative
      counts get the minimum 4 and a non-positive maximum gives 10. */
  lemma {:induction false} BarHeightsBounded(weeks: seq<int>, maxc: int, colors: seq<string>)
    requires |colors| == 3
    requires forall k :: 0 <= k < |weeks| ==> weeks[k] <= maxc
    ensures forall p :: p in Bars(weeks, maxc, colors) && !p.Glow? ==> MinBarHeight <= p.height <= MaxBarHeight
    decreases |weeks|
  {
    if weeks != [] {
      var i := |weeks| - 1;
      BarHeightsBounded(weeks[..i], maxc, colors);
      assert Bars(weeks, maxc, colors)
          == Bars(weeks[..i], maxc, colors) + (if weeks[i] == 0 then [] else WeekParts(i, weeks[i], maxc, colors));
    }
  }

  // ---------------------------------------------------------------------------
  // Contribution stats
  // ---------------------------------------------------------------------------

  /** What a text element shows: a fixed caption, or a value printed as is. */
  datatype Content = Caption(text: string) | Shown(value: Value)

  datatype StatText = StatText(x: int, y: int, color: string, fontSize: nat, content: Content, fadeIn: Option<Animation>)

  /** A `<g class="stat-group">`. */
  datatype StatGroup = StatGroup(texts: seq<StatText>)

  function TotalGroup(total: Value, faint: string, cyan: string): StatGroup {
    StatGroup([StatText(60, 240, faint, 10, Caption("TOTAL CONTRIBUTIONS"), None),
               StatText(60, 265, cyan, 32, Shown(total), Some(Reveal("opacity", 0.0, 1.0, 0.6, 0.5)))])
  }

  function StreakGroup(streak: Value, faint: string, violet: string, dim: string): StatGroup {
    StatGroup([StatText(280, 240, faint, 10, Caption("CURRENT STREAK"), None),
               StatText(280, 265, violet, 32, Shown(streak), Some(Reveal("opacity", 0.0, 1.0, 0.6, 0.7))),
               StatText(330, 265, dim, 16, Caption("days"), Some(Reveal("opacity", 0.0, 0.6, 0.6, 0.7)))])
  }

  /** The roles of the stats area, in the order of their first lookup. */
  const StatRoles: seq<string> := ["text_faint", "synapse_cyan", "dendrite_violet", "text_dim"]

  /** The stats area is the two groups, the total shown under its caption and
      the streak under its own. */
  predicate ShowsTotalAndStreak(stats: seq<StatGroup>, total: Value, streak: Value) {
    && |stats| == 2 && |stats[0].texts| == 2 && |stats[1].texts| == 3
    && stats[0].texts[1].content == Shown(total)
    && stats[1].texts[1].content == Shown(streak)
  }

  /** `_build_contribution_stats` as a value. The total and the streak are shown
      verbatim; the "days" caption sits at x = 330 whatever the streak's width. */
  function ContributionStats(total: Value, streak: Value, theme: Theme): (r: Result<seq<StatGroup>, RenderError>)
    ensures r.Ok? <==> Lookup(theme, StatRoles).Ok?
    ensures r.Err? ==> r.error == Lookup(theme, StatRoles).error
    ensures r.Ok? ==> |r.value| == 2 && |r.value[0].texts| == 2 && |r.value[1].texts| == 3
    ensures r.Ok? ==> ShowsTotalAndStreak(r.value, total, streak)
    ensures r.Ok? ==> "synapse_cyan" in theme && r.value[0].texts[1] == StatText(60, 265, theme["synapse_cyan"], 32, Shown(total), Some(Reveal("opacity", 0.0, 1.0, 0.6, 0.5)))
    ensures r.Ok? ==> "dendrite_violet" in theme && r.value[1].texts[1] == StatText(280, 265, theme["dendrite_violet"], 32, Shown(streak), Some(Reveal("opacity", 0.0, 1.0, 0.6, 0.7)))
    ensures r.Ok? ==> "text_dim" in theme && r.value[1].texts[2] == StatText(330, 265, theme["text_dim"], 16, Caption("days"), Some(Reveal("opacity", 0.0, 0.6, 0.6, 0.7)))
  {
    var first :- Lookup(theme, ["text_faint", "synapse_cyan"]);
    var second :- Lookup(theme, ["text_faint", "dendrite_violet", "text_dim"]);
    Ok([TotalGroup(total, first[0], first[1]), StreakGroup(streak, second[0], second[1], second[2])])
  }

  /** Appends the two groups, as the template does. */
  method BuildContributionStats(total: Value, streak: Value, theme: Theme) returns (r: Result<seq<StatGroup>, RenderError>)
    ensures r == ContributionStats(total, streak, theme)
  {
    var stats: seq<StatGroup> := [];
    var first :- Lookup(theme, ["text_faint", "synapse_cyan"]);
    stats := stats + [TotalGroup(total, first[0], first[1])];
    var second :- Lookup(theme, ["text_faint", "dendrite_violet", "text_dim"]);
    stats := stats + [StreakGroup(streak, second[0], second[1], second[2])];
    assert stats == [TotalGroup(total, first[0], first[1]), StreakGroup(streak, second[0], second[1], second[2])];
    return Ok(stats);
  }

  // ---------------------------------------------------------------------------
  // Neural connections
  // ---------------------------------------------------------------------------

  const PointCount: nat := 8
  const ConnectionStep: real := 0.4
  const ConnectionRoles: seq<string> := ["synapse_cyan", "dendrite_violet"]

  /** A dashed line from point `from` to the next point, and the node drawn at
      point `at`; both fade in and out every 3 s after `delay`. */
  datatype ConnectionPart =
    | Link(from: nat, x1: real, y1: real, x2: real, y2: real, color: string, delay: real)
    | Node(at: nat, cx: real, cy: real, color: string, delay: real)

  /** The fragments of the first `n` iterations: for each `i`, the line from
      point `i` to point `i + 1`, then the node at point `i`. */
  function ConnectionsUpTo(n: nat, px: seq<real>, py: seq<real>, colors: seq<string>): (r: seq<ConnectionPart>)
    requires n < |px| && n < |py| && |colors| == 2
    ensures |r| == 2 * n
  {
    if n == 0 then []
    else
      var i := n - 1;
      var color := colors[i % 2];
      var delay := (i as real) * ConnectionStep;
      ConnectionsUpTo(i, px, py, colors)
      + [Link(i, px[i], py[i], px[i + 1], py[i + 1], color, delay), Node(i, px[i], py[i], color, delay)]
  }

  /** `_build_neural_connections` as a value. The template looks each colour up
      inside the loop; the loop runs seven times and reaches both lookups, so
      looking both up first fails on the same role. */
  function NeuralConnections(theme: Theme, rng: Rng): (r: Result<seq<ConnectionPart>, RenderError>)
    requires ReturnsCount(rng)
    ensures r.Ok? <==> Lookup(theme, ConnectionRoles).Ok?
    ensures r.Err? ==> r.error == Lookup(theme, ConnectionRoles).error
  {
    var px := rng("neural-x", PointCount, 100.0, (Width - 100) as real);
    var py := rng("neural-y", PointCount, 60.0, 160.0);
    var colors :- Lookup(theme, ConnectionRoles);
    Ok(ConnectionsUpTo(|px| - 1, px, py, colors))
  }

  method BuildNeuralConnections(theme: Theme, rng: Rng) returns (r: Result<seq<ConnectionPart>, RenderError>)
    requires ReturnsCount(rng)
    ensures r == NeuralConnections(theme, rng)
  {
    var px := rng("neural-x", PointCount, 100.0, (Width - 100) as real);
    var py := rng("neural-y", PointCount, 60.0, 160.0);
    var colors :- Lookup(theme, ConnectionRoles);
    var connections: seq<ConnectionPart> := [];
    for i := 0 to |px| - 1
      invariant connections == ConnectionsUpTo(i, px, py, colors)
    {
      var color := if i % 2 == 0 then colors[0] else colors[1];
      var delay := (i as real) * ConnectionStep;
      connections := connections + [Link(i, px[i], py[i], px[i + 1], py[i + 1], color, delay)];
      connections := connections + [Node(i, px[i], py[i], color, delay)];
    }
    return Ok(connections);
  }

  /** The first `n` iterations emit a line then a node per point, in order. */
  lemma {:induction false} ConnectionsUpToShape(n: nat, px: seq<real>, py: seq<real>, colors: seq<string>)
    requires n < |px| && n < |py| && |colors| == 2
    ensures |ConnectionsUpTo(n, px, py, colors)| == 2 * n
    ensures forall i :: 0 <= i < n ==>
              && ConnectionsUpTo(n, px, py, colors)[2 * i]
                 == Link(i, px[i], py[i], px[i + 1], py[i + 1], colors[i % 2], (i as real) * ConnectionStep)
              && ConnectionsUpTo(n, px, py, colors)[2 * i + 1]
                 == Node(i, px[i], py[i], colors[i % 2], (i as real) * ConnectionStep)
  {
    if n > 0 {
      ConnectionsUpToShape(n - 1, px, py, colors);
    }
  }

  /** In the first `n` iterations, line `i` starts at node `i`, takes colour
      `colors[i mod 2]` and starts 0.4i seconds in, and ends where line `i + 1`
      starts. */
  lemma ConnectionsUpToChain(n: nat, px: seq<real>, py: seq<real>, colors: seq<string>)
    requires n < |px| && n < |py| && |colors| == 2
    ensures var c := ConnectionsUpTo(n, px, py, colors);
      && |c| == 2 * n
      && (forall i :: 0 <= i < n ==>
            && c[2 * i].Link? && c[2 * i].from == i && c[2 * i + 1].Node? && c[2 * i + 1].at == i
            && c[2 * i].x1 == c[2 * i + 1].cx && c[2 * i].y1 == c[2 * i + 1].cy
            && c[2 * i].color == colors[i % 2] && c[2 * i].delay == (i as real) * ConnectionStep)
      && (forall i :: 0 <= i < n - 1 ==>
            c[2 * i].Link? && c[2 * i + 2].Link? && c[2 * i].x2 == c[2 * i + 2].x1 && c[2 * i].y2 == c[2 * i + 2].y1)
  {
    ConnectionsUpToShape(n, px, py, colors);
    var c := ConnectionsUpTo(n, px, py, colors);
    forall i | 0 <= i < n - 1
      ensures c[2 * i].Link? && c[2 * i + 2].Link? && c[2 * i].x2 == c[2 * i + 2].x1 && c[2 * i].y2 == c[2 * i + 2].y1
    {
      var j := i + 1;
      assert 2 * i + 2 == 2 * j;
      assert c[2 * j] == Link(j, px[j], py[j], px[j + 1], py[j + 1], colors[j % 2], (j as real) * ConnectionStep);
    }
  }

  /** Eight points give seven lines that chain consecutive points: line `i`
      starts at node `i` and ends where line `i + 1` starts; lines alternate
      cyan and violet by the parity of `i` and start 0.4i seconds in. */
  lemma ConnectionsChain(theme: Theme, rng: Rng)
    requires ReturnsCount(rng)
    requires "synapse_cyan" in theme && "dendrite_violet" in theme
    ensures NeuralConnections(theme, rng).Ok?
    ensures var c := NeuralConnections(theme, rng).value;
      && |c| == 2 * (PointCount - 1)
      && (forall i :: 0 <= i < PointCount - 1 ==>
            && c[2 * i].Link? && c[2 * i].from == i && c[2 * i + 1].Node? && c[2 * i + 1].at == i
            && c[2 * i].x1 == c[2 * i + 1].cx && c[2 * i].y1 == c[2 * i + 1].cy
            && c[2 * i].color == (if i % 2 == 0 then theme["synapse_cyan"] else theme["dendrite_violet"])
            && c[2 * i].delay == (i as real) * ConnectionStep)
      && (forall i :: 0 <= i < PointCount - 2 ==>
            c[2 * i].Link? && c[2 * i + 2].Link? && c[2 * i].x2 == c[2 * i + 2].x1 && c[2 * i].y2 == c[2 * i + 2].y1)
  {
    var px := rng("neural-x", PointCount, 100.0, (Width - 100) as real);
    var py := rng("neural-y", PointCount, 60.0, 160.0);
    assert |px| == PointCount && |py| == PointCount;
    assert ConnectionRoles[0] in theme && ConnectionRoles[1] in theme;
    var colors := Lookup(theme, ConnectionRoles).value;
    assert colors[0] == theme["synapse_cyan"] && colors[1] == theme["dendrite_violet"];
    ConnectionsUpToChain(|px| - 1, px, py, colors);
    var c := NeuralConnections(theme, rng).value;
    assert c == ConnectionsUpTo(|px| - 1, px, py, colors);
    forall i | 0 <= i < PointCount - 1
      ensures c[2 * i].color == (if i % 2 == 0 then theme["synapse_cyan"] else theme["dendrite_violet"])
    {
      assert c[2 * i].color == colors[i % 2];
      assert i % 2 == 0 || i % 2 == 1;
    }
  }

  // ---------------------------------------------------------------------------
  // Stars
  // ---------------------------------------------------------------------------

  const StarCount: nat := 20
  const StarRoles: seq<string> := ["synapse_cyan", "dendrite_violet", "axon_amber", "text_dim"]
  const StarGlowCap: real := 0.4

  /** A twinkling star: it breathes from `opacity` to `peak` and back every
      `dur` seconds. */
  datatype Star = Star(cx: real, cy: real, r: real, opacity: real, peak: real, dur: real, color: string)

  function StarOf(x: real, y: real, r: real, o: real, d: real, color: string): (s: Star)
    ensures s.cx == x && s.cy == y && s.r == r && s.opacity == o && s.dur == d && s.color == color
    ensures s.peak <= o * 2.5 && s.peak <= StarGlowCap
    ensures s.peak == o * 2.5 || s.peak == StarGlowCap
  {
    Star(x, y, r, o, if o * 2.5 <= StarGlowCap then o * 2.5 else StarGlowCap, d, color)
  }

  /** `_build_stars_background` as a value. */
  function StarsBackground(theme: Theme, rng: Rng): (r: Result<seq<Star>, RenderError>)
    requires ReturnsCount(rng)
    ensures r.Ok? <==> Lookup(theme, StarRoles).Ok?
    ensures r.Err? ==> r.error == Lookup(theme, StarRoles).error
  {
    var sx := rng("contrib-star-x", StarCount, 40.0, (Width - 40) as real);
    var sy := rng("contrib-star-y", StarCount, 40.0, (Height - 40) as real);
    var sr := rng("contrib-star-r", StarCount, 0.5, 1.5);
    var so := rng("contrib-star-o", StarCount, 0.05, 0.2);
    var sd := rng("contrib-star-d", StarCount, 3.0, 6.0);
    var colors :- Lookup(theme, StarRoles);
    Ok(seq(StarCount, i requires 0 <= i < StarCount => StarOf(sx[i], sy[i], sr[i], so[i], sd[i], colors[i % 4])))
  }

  method BuildStarsBackground(theme: Theme, rng: Rng) returns (r: Result<seq<Star>, RenderError>)
    requires ReturnsCount(rng)
    ensures r == StarsBackground(theme, rng)
  {
    var sx := rng("contrib-star-x", StarCount, 40.0, (Width - 40) as real);
    var sy := rng("contrib-star-y", StarCount, 40.0, (Height - 40) as real);
    var sr := rng("contrib-star-r", StarCount, 0.5, 1.5);
    var so := rng("contrib-star-o", StarCount, 0.05, 0.2);
    var sd := rng("contrib-star-d", StarCount, 3.0, 6.0);
    var colors :- Lookup(theme, StarRoles);
    var stars: seq<Star> := [];
    for i := 0 to StarCount
      invariant |stars| == i
      invariant forall k :: 0 <= k < i ==> stars[k] == StarOf(sx[k], sy[k], sr[k], so[k], sd[k], colors[k % 4])
    {
      var color := colors[i % |colors|];
      var peak := if so[i] * 2.5 <= StarGlowCap then so[i] * 2.5 else StarGlowCap;
      stars := stars + [Star(sx[i], sy[i], sr[i], so[i], peak, sd[i], color)];
    }
    assert stars == seq(StarCount, i requires 0 <= i < StarCount => StarOf(sx[i], sy[i], sr[i], so[i], sd[i], colors[i % 4]));
    return Ok(stars);
  }

  /** Twenty stars, each placed by the generator's streams, coloured
      `colors[i mod 4]`, with a peak opacity of 2.5 times its opacity capped at
      0.4. */
  lemma StarsCycleAndCap(theme: Theme, rng: Rng)
    requires ReturnsCount(rng)
    requires Lookup(theme, StarRoles).Ok?
    ensures var s := StarsBackground(theme, rng).value;
      && |s| == StarCount
      && (forall i :: 0 <= i < StarCount ==>
            && s[i] == StarOf(rng("contrib-star-x", StarCount, 40.0, (Width - 40) as real)[i],
                              rng("contrib-star-y", StarCount, 40.0, (Height - 40) as real)[i],
                              rng("contrib-star-r", StarCount, 0.5, 1.5)[i],
                              rng("contrib-star-o", StarCount, 0.05, 0.2)[i],
                              rng("contrib-star-d", StarCount, 3.0, 6.0)[i],
                              theme[StarRoles[i % 4]])
            && s[i].cx == rng("contrib-star-x", StarCount, 40.0, (Width - 40) as real)[i]
            && s[i].color == theme[StarRoles[i % 4]]
            && s[i].peak <= StarGlowCap
            && (s[i].opacity * 2.5 <= StarGlowCap ==> s[i].peak == s[i].opacity * 2.5)
            && (s[i].opacity * 2.5 > StarGlowCap ==> s[i].peak == StarGlowCap))
      && (forall i :: 0 <= i < StarCount - 4 ==> s[i].color == s[i + 4].color)
  {
    var s := StarsBackground(theme, rng).value;
    forall i | 0 <= i < StarCount - 4 ensures s[i].color == s[i + 4].color {
      assert (i + 4) % 4 == i % 4;
    }
  }

  // ---------------------------------------------------------------------------
  // Grid overlay
  // ---------------------------------------------------------------------------

  /** Python's `range(start, stop, step)` for a positive step. */
  function Range(start: int, stop: int, step: nat): (r: seq<int>)
    requires step > 0
    ensures forall k :: 0 <= k < |r| ==> r[k] == start + k * step && r[k] < stop
    ensures start + |r| * step >= stop
    decreases stop - start
  {
    if start >= stop then [] else [start] + Range(start + step, stop, step)
  }

  /** A dashed grid line. */
  datatype GridLine = GridLine(x1: int, y1: int, x2: int, y2: int, color: string, opacity: real)

  function HorizontalLine(y: int, color: string): GridLine {
    GridLine(30, y, Width - 30, y, color, 0.08)
  }

  function VerticalLine(x: int, color: string): GridLine {
    GridLine(x, 50, x, 210, color, 0.06)
  }

  function HorizontalLines(ys: seq<int>, color: string): seq<GridLine> {
    seq(|ys|, k requires 0 <= k < |ys| => HorizontalLine(ys[k], color))
  }

  function VerticalLines(xs: seq<int>, color: string): seq<GridLine> {
    seq(|xs|, k requires 0 <= k < |xs| => VerticalLine(xs[k], color))
  }

  /** `_build_grid_overlay` as a value. Both loops run, so the lookup inside
      them fails exactly when `text_faint` is missing. */
  function GridOverlay(theme: Theme): (r: Result<seq<GridLine>, RenderError>)
    ensures r.Ok? <==> "text_faint" in theme
    ensures r.Err? ==> r.error == MissingThemeRole("text_faint")
  {
    var faint :- Lookup(theme, ["text_faint"]);
    Ok(HorizontalLines(Range(60, Height - 20, 40), faint[0]) + VerticalLines(Range(100, Width - 50, 100), faint[0]))
  }

  method BuildGridOverlay(theme: Theme) returns (r: Result<seq<GridLine>, RenderError>)
    ensures r == GridOverlay(theme)
  {
    var faint :- Lookup(theme, ["text_faint"]);
    var lines: seq<GridLine> := [];
    var ys := Range(60, Height - 20, 40);
    for k := 0 to |ys|
      invariant lines == HorizontalLines(ys[..k], faint[0])
    {
      lines := lines + [HorizontalLine(ys[k], faint[0])];
    }
    var xs := Range(100, Width - 50, 100);
    for k := 0 to |xs|
      invariant lines == HorizontalLines(ys, faint[0]) + VerticalLines(xs[..k], faint[0])
    {
      lines := lines + [VerticalLine(xs[k], faint[0])];
    }
    assert ys[..|ys|] == ys && xs[..|xs|] == xs;
    return Ok(lines);
  }

  /** Five horizontal lines at y = 60, 100, ..., 220 across the card, then seven
      vertical lines at x = 100, 200, ..., 700 over the bar area. */
  lemma GridLinePositions(theme: Theme)
    requires "text_faint" in theme
    ensures var g := GridOverlay(theme).value;
      && |g| == 12
      && (forall k :: 0 <= k < 5 ==> g[k].y1 == g[k].y2 == 60 + 40 * k && g[k].x1 == 30 && g[k].x2 == Width - 30)
      && (forall k :: 0 <= k < 7 ==> g[5 + k].x1 == g[5 + k].x2 == 100 + 100 * k && g[5 + k].y1 == 50 && g[5 + k].y2 == 210)
      && (forall k :: 0 <= k < 12 ==> g[k].color == theme["text_faint"])
  {
    var ys, xs := Range(60, Height - 20, 40), Range(100, Width - 50, 100);
    assert ys[|ys| - 1] < Height - 20;
    assert xs[|xs| - 1] < Width - 50;
  }

  // ---------------------------------------------------------------------------
  // Scanning effect
  // ---------------------------------------------------------------------------

  /** A thin bar that sweeps from `fromX` to `toX` every `dur` seconds. */
  datatype Scan = Scan(y: int, width: int, height: int, color: string, fromX: int, toX: int, dur: real)

  /** `_build_scanning_effect`: the sweep spans the card between equal 30-unit
      margins, forever, in the cyan role. */
  function ScanningEffect(theme: Theme): (r: Result<Scan, RenderError>)
    ensures r.Ok? <==> "synapse_cyan" in theme
    ensures r.Err? ==> r.error == MissingThemeRole("synapse_cyan")
    ensures r.Ok? ==> r.value.color == theme["synapse_cyan"] && r.value.fromX == Width - r.value.toX == 30
  {
    var cyan :- Lookup(theme, ["synapse_cyan"]);
    Ok(Scan(50, 2, 160, cyan[0], 30, Width - 30, 4.0))
  }

  // ---------------------------------------------------------------------------
  // The whole card
  // ---------------------------------------------------------------------------

  /** The data-dependent and decorative sections of the card, in document
      order. */
  datatype Heatmap = Heatmap(
    stars: seq<Star>,
    grid: seq<GridLine>,
    connections: seq<ConnectionPart>,
    bars: seq<BarPart>,
    stats: seq<StatGroup>,
    scan: Scan)

  /** Every role the card uses, in the order in which its first lookup is
      evaluated. */
  const HeatmapRoles: seq<string> :=
    ["nebula", "star_dust", "synapse_cyan", "dendrite_violet", "axon_amber", "text_dim", "text_faint"]

  /** `render`: read the bundle, normalise the window, then build the sections in
      the order the template evaluates them. */
  function Render(bundle: Bundle, theme: Theme, rng: Rng): (r: Result<Heatmap, RenderError>)
    requires ReturnsCount(rng)
    ensures WeeksOf(bundle).Err? ==> r == Err(WeeksOf(bundle).error)
  {
    var weeks :- WeeksOf(bundle);
    var total := ScalarOf(bundle, "total");
    var streak := ScalarOf(bundle, "streak");
    var window := Window(weeks);
    var maxc := WindowMax(window);
    var background :- Lookup(theme, ["nebula", "star_dust"]);
    var stars :- StarsBackground(theme, rng);
    var grid :- GridOverlay(theme);
    var connections :- NeuralConnections(theme, rng);
    var labels :- Lookup(theme, ["text_faint", "axon_amber", "text_faint"]);
    var bars :- WeekBars(window, maxc, theme);
    var stats :- ContributionStats(total, streak, theme);
    var scan :- ScanningEffect(theme);
    var baseline :- Lookup(theme, ["star_dust"]);
    Ok(Heatmap(stars, grid, connections, bars, stats, scan))
  }

  /** A theme with every role of the card has every role of each section. */
  lemma CompleteThemeCoversSections(theme: Theme)
    requires Lookup(theme, HeatmapRoles).Ok?
    ensures forall k :: 0 <= k < |HeatmapRoles| ==> HeatmapRoles[k] in theme
    ensures Lookup(theme, StarRoles).Ok? && Lookup(theme, BarRoles).Ok?
    ensures Lookup(theme, ConnectionRoles).Ok? && Lookup(theme, StatRoles).Ok?
    ensures "nebula" in theme && "star_dust" in theme && "synapse_cyan" in theme && "dendrite_violet" in theme
    ensures "axon_amber" in theme && "text_dim" in theme && "text_faint" in theme
  {
    assert HeatmapRoles[0] in theme && HeatmapRoles[1] in theme && HeatmapRoles[2] in theme && HeatmapRoles[3] in theme;
    assert HeatmapRoles[4] in theme && HeatmapRoles[5] in theme && HeatmapRoles[6] in theme;
  }

  /** With a sequence of weeks and a complete theme, the card is made of the
      sections built from the normalised window and the scalars. */
  lemma RenderSections(bundle: Bundle, theme: Theme, rng: Rng)
    requires ReturnsCount(rng)
    requires WeeksOf(bundle).Ok? && Lookup(theme, HeatmapRoles).Ok?
    ensures Lookup(theme, StarRoles).Ok? && Lookup(theme, BarRoles).Ok?
    ensures Lookup(theme, ConnectionRoles).Ok? && Lookup(theme, StatRoles).Ok?
    ensures "text_faint" in theme && "synapse_cyan" in theme
    ensures var w := Window(WeeksOf(bundle).value);
      Render(bundle, theme, rng) == Ok(Heatmap(
        StarsBackground(theme, rng).value,
        GridOverlay(theme).value,
        NeuralConnections(theme, rng).value,
        WeekBars(w, Max(w), theme).value,
        ContributionStats(ScalarOf(bundle, "total"), ScalarOf(bundle, "streak"), theme).value,
        ScanningEffect(theme).value))
  {
    CompleteThemeCoversSections(theme);
    FallbackMaximumUnreachable(WeeksOf(bundle).value);
    assert Lookup(theme, ["nebula", "star_dust"]).Ok?;
    assert Lookup(theme, ["text_faint", "axon_amber", "text_faint"]).Ok?;
    assert Lookup(theme, ["star_dust"]).Ok?;
    assert StarsBackground(theme, rng).Ok? && GridOverlay(theme).Ok? && NeuralConnections(theme, rng).Ok?;
  }

  /** Looking up `a + b` looks up `a`, then `b`, and stops at the first
      failure. */
  lemma {:induction false} LookupConcat(theme: Theme, a: seq<string>, b: seq<string>)
    ensures Lookup(theme, a + b) ==
      if Lookup(theme, a).Err? then Lookup(theme, a)
      else if Lookup(theme, b).Err? then Lookup(theme, b)
      else Ok(Lookup(theme, a).value + Lookup(theme, b).value)
  {
    if a == [] {
      assert a + b == b;
      if Lookup(theme, b).Ok? {
        assert [] + Lookup(theme, b).value == Lookup(theme, b).value;
      }
    } else {
      assert (a + b)[0] == a[0];
      assert (a + b)[1..] == a[1..] + b;
      if a[0] in theme {
        LookupConcat(theme, a[1..], b);
        if Lookup(theme, a[1..]).Ok? && Lookup(theme, b).Ok? {
          var x, y := Lookup(theme, a[1..]).value, Lookup(theme, b).value;
          assert [theme[a[0]]] + (x + y) == ([theme[a[0]]] + x) + y;
        }
      }
    }
  }

  /** A missing background role stops the render before anything is built. */
  lemma RenderFailsOnBackground(bundle: Bundle, theme: Theme, rng: Rng)
    requires ReturnsCount(rng)
    requires WeeksOf(bundle).Ok? && Lookup(theme, ["nebula", "star_dust"]).Err?
    ensures Render(bundle, theme, rng) == Err(Lookup(theme, ["nebula", "star_dust"]).error)
  {
  }

  /** With the background present, a missing star colour stops the render. */
  lemma RenderFailsOnStars(bundle: Bundle, theme: Theme, rng: Rng)
    requires ReturnsCount(rng)
    requires WeeksOf(bundle).Ok? && Lookup(theme, ["nebula", "star_dust"]).Ok? && Lookup(theme, StarRoles).Err?
    ensures Render(bundle, theme, rng) == Err(Lookup(theme, StarRoles).error)
  {
  }

  /** With the background and the stars built, a missing faint colour stops the
      render at the grid. */
  lemma RenderFailsOnGrid(bundle: Bundle, theme: Theme, rng: Rng)
    requires ReturnsCount(rng)
    requires WeeksOf(bundle).Ok? && Lookup(theme, ["nebula", "star_dust"]).Ok? && Lookup(theme, StarRoles).Ok?
    requires "text_faint" !in theme
    ensures Render(bundle, theme, rng) == Err(MissingThemeRole("text_faint"))
  {
  }

  /** A render fails on the theme exactly when some role is missing, and then it
      names the first missing role in evaluation order; degenerate data never
      makes it fail. */
  lemma RenderFailsOnFirstMissingRole(bundle: Bundle, theme: Theme, rng: Rng)
    requires ReturnsCount(rng)
    requires WeeksOf(bundle).Ok?
    ensures Render(bundle, theme, rng).Ok? <==> Lookup(theme, HeatmapRoles).Ok?
    ensures Render(bundle, theme, rng).Err? ==> Render(bundle, theme, rng).error == Lookup(theme, HeatmapRoles).error
  {
    var background: seq<string> := ["nebula", "star_dust"];
    assert HeatmapRoles == background + (StarRoles + ["text_faint"]);
    LookupConcat(theme, background, StarRoles + ["text_faint"]);
    LookupConcat(theme, StarRoles, ["text_faint"]);
    if Lookup(theme, background).Err? {
      RenderFailsOnBackground(bundle, theme, rng);
    } else if Lookup(theme, StarRoles).Err? {
      RenderFailsOnStars(bundle, theme, rng);
    } else if "text_faint" !in theme {
      RenderFailsOnGrid(bundle, theme, rng);
    } else {
      RenderSections(bundle, theme, rng);
    }
  }

  /** The bars of a successful render are those of the normalised window, and
      the stats show the bundle's total and streak. */
  lemma RenderedBarsFollowWindow(bundle: Bundle, theme: Theme, rng: Rng)
    requires ReturnsCount(rng)
    requires WeeksOf(bundle).Ok? && Lookup(theme, HeatmapRoles).Ok?
    ensures Render(bundle, theme, rng).Ok? && Lookup(theme, BarRoles).Ok?
    ensures var w := Window(WeeksOf(bundle).value);
      && Render(bundle, theme, rng).value.bars == Bars(w, Max(w), Lookup(theme, BarRoles).value)
      && ShowsTotalAndStreak(Render(bundle, theme, rng).value.stats, ScalarOf(bundle, "total"), ScalarOf(bundle, "streak"))
  {
    RenderSections(bundle, theme, rng);
  }

  /** `get('total', 0)` and `get('streak', 0)`: whatever the weeks, a bundle
      without a total or a streak shows 0 in its place. */
  lemma MissingScalarsShowZero(bundle: Bundle, theme: Theme, rng: Rng)
    requires ReturnsCount(rng)
    requires WeeksOf(bundle).Ok? && Lookup(theme, HeatmapRoles).Ok?
    ensures Render(bundle, theme, rng).Ok?
    ensures ShowsTotalAndStreak(Render(bundle, theme, rng).value.stats,
                                if "total" in bundle then bundle["total"] else Number(0),
                                if "streak" in bundle then bundle["streak"] else Number(0))
  {
    RenderedBarsFollowWindow(bundle, theme, rng);
  }

  /** A bundle without `weeks`, or with no weeks at all, renders 52 empty weeks
      and therefore no bar; missing `total` and `streak` show as 0. */
  lemma MissingKeysRenderDefaults(bundle: Bundle, theme: Theme, rng: Rng)
    requires ReturnsCount(rng)
    requires Lookup(theme, HeatmapRoles).Ok?
    requires "weeks" !in bundle || bundle["weeks"] == Counts([])
    ensures Render(bundle, theme, rng).Ok?
    ensures Window(WeeksOf(bundle).value) == Zeros(WindowLength)
    ensures Render(bundle, theme, rng).value.bars == []
    ensures ShowsTotalAndStreak(Render(bundle, theme, rng).value.stats, ScalarOf(bundle, "total"), ScalarOf(bundle, "streak"))
    ensures "total" !in bundle ==> ScalarOf(bundle, "total") == Number(0)
    ensures "streak" !in bundle ==> ScalarOf(bundle, "streak") == Number(0)
  {
    RenderedBarsFollowWindow(bundle, theme, rng);
    var w := Window([]);
    assert w == Zeros(WindowLength);
    NoActiveWeeksNoBars(w, Max(w), Lookup(theme, BarRoles).value);
  }

  /** A strictly increasing sequence within [lo, hi] has at most hi - lo + 1
      elements. */
  lemma {:induction false} IncreasingWithin(a: seq<nat>, lo: int, hi: int)
    requires lo <= hi + 1
    requires forall j, k :: 0 <= j < k < |a| ==> a[j] < a[k]
    requires forall j :: 0 <= j < |a| ==> lo <= a[j] <= hi
    ensures |a| <= hi - lo + 1
    decreases |a|
  {
    if a != [] {
      var n := |a| - 1;
      IncreasingWithin(a[..n], lo, a[n] as int - 1);
    }
  }

  /** A window whose only non-zero weeks are 49 (count 5) and 50 (count 10)
      peaks at 10 and has exactly those two active weeks. */
  lemma ScenarioActiveWeeks(w: seq<int>)
    requires |w| == WindowLength
    requires forall k :: 0 <= k < WindowLength ==> w[k] == if k == 49 then 5 else if k == 50 then 10 else 0
    ensures Max(w) == 10
    ensures ActiveWeeks(w) == [49, 50]
  {
    var a := ActiveWeeks(w);
    assert w[49] == 5 && w[50] == 10;
    assert 49 in a && 50 in a;
    IncreasingWithin(a, 49, 50);
  }

  /** The weeks [0, 0, 5, 10, 0] land at indices 47..51 of the window. */
  lemma ScenarioWindow()
    ensures forall k :: 0 <= k < WindowLength ==>
              Window([0, 0, 5, 10, 0])[k] == if k == 49 then 5 else if k == 50 then 10 else 0
  {
    var weeks := [0, 0, 5, 10, 0];
    var w := Window(weeks);
    assert w == Zeros(47) + weeks;
    forall k | 0 <= k < WindowLength
      ensures w[k] == if k == 49 then 5 else if k == 50 then 10 else 0
    {
      if k < 47 {
        assert w[k] == Zeros(47)[k];
      } else {
        assert w[k] == weeks[k - 47];
      }
    }
  }

  /** A window whose active weeks are 49 (count 5) and 50 (count 10) emits the
      fragments of week 49, then of week 50. */
  lemma ScenarioBars(w: seq<int>, colors: seq<string>)
    requires |colors| == 3 && |w| == WindowLength && w[49] == 5 && w[50] == 10
    requires ActiveWeeks(w) == [49, 50]
    ensures Bars(w, 10, colors) == WeekParts(49, 5, 10, colors) + WeekParts(50, 10, 10, colors)
    ensures |Bars(w, 10, colors)| == 6
    ensures Bars(w, 10, colors)[1] == Rect(49, 648, 60.0, colors[1], 49.0 * DelayStep)
    ensures Bars(w, 10, colors)[4] == Rect(50, 660, 120.0, colors[2], 50.0 * DelayStep)
  {
    BarsFollowActiveWeeks(w, 10, colors);
    var active: seq<nat> := [49, 50];
    assert active[..1] == [49] && [49][..0] == [];
    assert PartsFor([49], w, 10, colors) == WeekParts(49, 5, 10, colors);
    assert BarHeight(5, 10) == 60.0 && BarHeight(10, 10) == 120.0;
  }

  /** A bundle with weeks [0, 0, 5, 10, 0], total 15 and streak 2 renders
      exactly two bars, for weeks 49 and 50, the first half as high as the
      second, and shows the total and streak as given. */
  lemma TwoBarScenario(bundle: Bundle, theme: Theme, rng: Rng)
    requires ReturnsCount(rng)
    requires Lookup(theme, HeatmapRoles).Ok?
    requires "weeks" in bundle && bundle["weeks"] == Counts([0, 0, 5, 10, 0])
    requires "total" in bundle && bundle["total"] == Number(15)
    requires "streak" in bundle && bundle["streak"] == Number(2)
    ensures Render(bundle, theme, rng).Ok?
    ensures "dendrite_violet" in theme && "axon_amber" in theme
    ensures var r := Render(bundle, theme, rng).value;
      && |r.bars| == 6
      && r.bars[1] == Rect(49, 648, 60.0, theme["dendrite_violet"], 49.0 * DelayStep)
      && r.bars[4] == Rect(50, 660, 120.0, theme["axon_amber"], 50.0 * DelayStep)
      && ShowsTotalAndStreak(r.stats, Number(15), Number(2))
  {
    var weeks := [0, 0, 5, 10, 0];
    assert WeeksOf(bundle) == Ok(weeks);
    RenderedBarsFollowWindow(bundle, theme, rng);
    CompleteThemeCoversSections(theme);
    var colors := Lookup(theme, BarRoles).value;
    assert BarRoles[1] == "dendrite_violet" && BarRoles[2] == "axon_amber";
    assert colors[1] == theme["dendrite_violet"] && colors[2] == theme["axon_amber"];
    var w := Window(weeks);
    ScenarioWindow();
    ScenarioActiveWeeks(w);
    ScenarioBars(w, colors);
    assert Render(bundle, theme, rng).value.bars == Bars(w, 10, colors);
  }
}
