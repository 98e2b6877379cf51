# Galaxy profile cards: the contributions heatmap and the SVG builder

This project models two pieces of a generator that draws animated SVG cards for a
GitHub profile README.

- **The "neural activity" contributions heatmap** (`ContributionsHeatmap`,
  `contributions_heatmap.dfy`). It turns a contributions bundle (`weeks`,
  `total`, `streak`) and a theme (colour role to colour) into an 850 x 280 card.
  The model does not produce SVG text. Every fragment is a typed descriptor
  that carries the data-dependent numbers and the colours of the markup:
  - `BarPart`: the glow filter, bar and top dot of a week;
  - `StatGroup`: the stats area;
  - `ConnectionPart`: the dashed links and nodes between background points;
  - `Star`, `GridLine` and `Scan`.

  `Render` returns these section by section, in document order, or the error
  that the template would raise.
- **The SVG builder** (`Builder`, `svg_builder.dfy`). It is a class with fields
  that the constructor sets once. The constructor applies the defaults:
  - contributions that are absent or empty become `weeks = []`, `total = 0`
    and `streak = 0`;
  - arms and projects that are absent become empty lists;
  - the theme is required.

  Five `Render...` functions slice the held state into the arguments of the
  five card renderers. Each returns a `RendererCall` record.

`Results` (`results.dfy`) holds the `Option` and `Result` wrappers. A Python
`KeyError` or `TypeError` becomes an `Err`:
- `MissingThemeRole(role)` for a theme role that is absent;
- `NotASequence("weeks")` when `weeks` is a scalar, so that `len` fails;
- `MissingKey(path)` for a configuration key that is absent.

Behaviour worth knowing, all proved below:

- **Window.** The weekly window always has 52 entries: the last 52, or zeros on
  the left followed by the input. So the `else 1` fallback of the maximum is
  dead code. The maximum may be 0; with non-negative counts every week is then
  0 and no bar is drawn (a negative count is not 0, so it still draws a bar 10
  high).
- **Bars.** A week with a zero count draws nothing. Every other week `i` draws
  exactly one glow, one bar and one dot, in index order. The layout depends
  only on `i`:
  - x = 60 + 12i;
  - the colour is `[cyan, violet, amber][i mod 3]`;
  - the reveal delay is 0.02i, and the dot's pulse starts at 0.02i + 0.8.
- **Bar heights.** For a positive maximum a height is `max(count / max * 120, 4)`;
  it is 10 when the maximum is not positive. Bars above the floor keep the ratio of their
  counts.
- **Where a small series lands.** The series `[0, 0, 5, 10, 0]` is padded on the
  left, so its two bars are at window indices 49 and 50. The first bar is 60
  high and the second 120.
- **Theme errors.** A render fails on the theme exactly when some role is
  missing. The role it reports is the first missing one in the order in which
  the template evaluates its lookups.
- **Demo data.** The demonstration contributions in `generator/main.py` use the
  key `days`, but the heatmap reads `weeks`. The demonstration card therefore
  shows 52 empty weeks and no bar, whatever the daily series. Its total (4523)
  and streak (5) are still shown.
- **The "days" caption.** It sits at the fixed x = 330, whatever the width of the
  streak value.

## Model

| member | source | states |
|---|---|---|
| ContributionsHeatmap.Lookup | generator/templates/contributions_heatmap.py:17-21 | Succeeds exactly when every role is in the theme. On success it gives the colours in role order. On failure it names a missing role such that every earlier role is present. |
| ContributionsHeatmap.LookupConcat | generator/templates/contributions_heatmap.py:226-262 | Looking up two role lists one after the other fails on the first list's error, then on the second's, and otherwise concatenates the colours. |
| ContributionsHeatmap.WeeksOf | generator/templates/contributions_heatmap.py:201-206 | A missing `weeks` key reads as the empty list, and a stored list is read unchanged. It fails (`len` of a scalar) exactly when `weeks` holds a scalar. |
| ContributionsHeatmap.ScalarOf | generator/templates/contributions_heatmap.py:202-203 | `get(key, 0)`: the stored value when the key is present, otherwise 0. |
| ContributionsHeatmap.Window | generator/templates/contributions_heatmap.py:205-208 | The window has exactly 52 entries. It is the last 52 weeks when there are at least 52, and otherwise 52 − L zeros followed by the input. It also gives each entry's value by index. |
| ContributionsHeatmap.Max | generator/templates/contributions_heatmap.py:210 | The maximum of a non-empty list is one of its elements and bounds every element. |
| ContributionsHeatmap.WindowMax | generator/templates/contributions_heatmap.py:210 | It is the maximum of a non-empty window, or 1 for an empty one. |
| ContributionsHeatmap.FallbackMaximumUnreachable | generator/templates/contributions_heatmap.py:206-210 | The normalised window is never empty, so the `else 1` fallback is never taken. When the maximum is 0, every non-negative entry is 0. |
| ContributionsHeatmap.BarHeight | generator/templates/contributions_heatmap.py:29-31 | The height is at least 4. It is 10 when the maximum is not positive. For a positive maximum it is at least count/max·120 and is either 4 or exactly count/max·120, that is `max(count/max·120, 4)`; it is at most 120 for a count up to the maximum. |
| ContributionsHeatmap.HeightsKeepRatio | generator/templates/contributions_heatmap.py:29-31 | Two bars above the floor keep the ratio of their counts. |
| ContributionsHeatmap.WeekParts | generator/templates/contributions_heatmap.py:27-70 | A non-zero week emits a glow, a rect and a dot, all tagged with the week and coloured `colors[i mod 3]`; the rect and dot share the height `BarHeight` and the delay. |
| ContributionsHeatmap.Bars | generator/templates/contributions_heatmap.py:23-70 | Every fragment belongs to a week inside the window whose count is non-zero. |
| ContributionsHeatmap.ActiveWeeks | generator/templates/contributions_heatmap.py:23-25 | It lists the indices of the non-zero weeks, strictly increasing, with no non-zero week missing. |
| ContributionsHeatmap.BarsFollowActiveWeeks | generator/templates/contributions_heatmap.py:23-70 | The bars are the glow/rect/dot triples of the non-zero weeks, in index order, and nothing else. |
| ContributionsHeatmap.NoActiveWeeksNoBars | generator/templates/contributions_heatmap.py:23-25 | An all-zero series draws no fragment. |
| ContributionsHeatmap.ZeroMaximumDrawsNoBar | generator/templates/contributions_heatmap.py:23-25 | When every count is non-negative and the window's maximum is 0, no fragment is drawn. |
| ContributionsHeatmap.WeekBars | generator/templates/contributions_heatmap.py:8-21 | It fails exactly when a bar colour role is missing, with that lookup's error, even when no bar would be drawn. |
| ContributionsHeatmap.AppendWeek | generator/templates/contributions_heatmap.py:27-70 | One pass of the loop body for a non-zero week appends exactly that week's glow, rect and dot. |
| ContributionsHeatmap.BuildWeekBars | generator/templates/contributions_heatmap.py:8-72 | The loop that appends to the bar list builds exactly `WeekBars`: zero weeks are skipped, and every other week appends its glow, rect and dot. |
| ContributionsHeatmap.Animations | generator/templates/contributions_heatmap.py:53-69 | A glow has no animation, a rect three and a dot two. Every reveal lasts 0.8 s, starts at the fragment's delay and moves by the fragment's height; every pulse repeats every 2 s. |
| ContributionsHeatmap.WeekLayout | generator/templates/contributions_heatmap.py:27-69 | Week i's bar has x = 60 + 12i and delay 0.02i. Its colour is `colors[i mod 3]`, so weeks i and i + 3k share a colour. The dot is centred on the bar and reaches the bar's top. The rect and dot grow from y = 200 to 200 − height and freeze. The pulses repeat every 2 s, the dot's starting at delay + 0.8. |
| ContributionsHeatmap.BarHeightsBounded | generator/templates/contributions_heatmap.py:23-31 | When no count exceeds the maximum used, every rect and dot height lies in [4, 120]. |
| ContributionsHeatmap.ContributionStats | generator/templates/contributions_heatmap.py:75-104 | It fails exactly when a stats role is missing. Otherwise there are two groups (2 and 3 texts). The total is shown verbatim at (60, 265) in cyan, size 32, fading in at 0.5 s; the streak at (280, 265) in violet, fading in at 0.7 s; "days" at (330, 265) in the dim colour with its fade-in. |
| ContributionsHeatmap.BuildContributionStats | generator/templates/contributions_heatmap.py:75-106 | Appending the two groups builds exactly `ContributionStats`. |
| ContributionsHeatmap.NeuralConnections | generator/templates/contributions_heatmap.py:109-122 | It fails exactly when the cyan or violet role is missing, with the first missing one. |
| ContributionsHeatmap.BuildNeuralConnections | generator/templates/contributions_heatmap.py:109-136 | The loop over consecutive points builds exactly `NeuralConnections`. |
| ContributionsHeatmap.ConnectionsUpTo | generator/templates/contributions_heatmap.py:117-134 | The first n iterations emit exactly two fragments each. |
| ContributionsHeatmap.ConnectionsUpToShape | generator/templates/contributions_heatmap.py:117-134 | Iteration i emits the line from point i to point i + 1, then the node at point i, with colour `colors[i mod 2]` and delay 0.4i. |
| ContributionsHeatmap.ConnectionsUpToChain | generator/templates/contributions_heatmap.py:117-134 | For any points and colours, line i of the first n iterations starts at node i, takes `colors[i mod 2]`, is delayed 0.4i, and ends where line i + 1 starts. |
| ContributionsHeatmap.ConnectionsChain | generator/templates/contributions_heatmap.py:114-122 | Eight points give seven lines, each starting at its node. Line i ends where line i + 1 starts. Lines alternate cyan/violet by the parity of i and are delayed by 0.4i. |
| ContributionsHeatmap.StarOf | generator/templates/contributions_heatmap.py:153-157 | A star keeps its position, radius, opacity, duration and colour; its peak is at most 2.5·o and at most 0.4, and equals one of them, that is `min(2.5·o, 0.4)`. |
| ContributionsHeatmap.StarsBackground | generator/templates/contributions_heatmap.py:139-149 | It fails exactly when a star colour role is missing, with the first missing one. |
| ContributionsHeatmap.BuildStarsBackground | generator/templates/contributions_heatmap.py:139-160 | The 20-iteration loop builds exactly `StarsBackground`. |
| ContributionsHeatmap.StarsCycleAndCap | generator/templates/contributions_heatmap.py:143-157 | There are 20 stars. Star i is `StarOf` the i-th value of each of the five streams (x, y, radius, opacity `so[i]`, duration) with colour `colors[i mod 4]`, so stars i and i + 4 share a colour. Its peak is min(2.5·so[i], 0.4), which never exceeds 0.4. |
| ContributionsHeatmap.Range | generator/templates/contributions_heatmap.py:168-174 | Python's `range(start, stop, step)`: the k-th value is start + k·step, every value is below stop, and the next one would not be. |
| ContributionsHeatmap.GridOverlay | generator/templates/contributions_heatmap.py:163-177 | It fails exactly when the faint role is missing. |
| ContributionsHeatmap.BuildGridOverlay | generator/templates/contributions_heatmap.py:163-179 | The two `range` loops build exactly `GridOverlay`. |
| ContributionsHeatmap.GridLinePositions | generator/templates/contributions_heatmap.py:168-177 | There are 12 lines. The 5 horizontal ones are at y = 60 + 40k, spanning x = 30..820. The 7 vertical ones are at x = 100 + 100k, spanning y = 50..210. All are in the faint colour. |
| ContributionsHeatmap.ScanningEffect | generator/templates/contributions_heatmap.py:182-188 | It fails exactly when the cyan role is missing. Otherwise the sweep, in cyan, runs between equal 30-unit margins of the card. |
| ContributionsHeatmap.Render | generator/templates/contributions_heatmap.py:191-263 | A `weeks` that is a scalar fails with its `len` error before any theme lookup. |
| ContributionsHeatmap.CompleteThemeCoversSections | generator/templates/contributions_heatmap.py:226-262 | A theme with every role of the card has every role of each section. |
| ContributionsHeatmap.RenderSections | generator/templates/contributions_heatmap.py:191-263 | With a list of weeks and a complete theme, the card consists of the sections built from the normalised window, its maximum and the two scalars. |
| ContributionsHeatmap.RenderFailsOnBackground | generator/templates/contributions_heatmap.py:226-227 | A missing background role stops the render with that role. |
| ContributionsHeatmap.RenderFailsOnStars | generator/templates/contributions_heatmap.py:230 | After the background, a missing star colour stops the render with the stars' error. |
| ContributionsHeatmap.RenderFailsOnGrid | generator/templates/contributions_heatmap.py:233 | After the stars, a missing faint role stops the render at the grid. |
| ContributionsHeatmap.RenderFailsOnFirstMissingRole | generator/templates/contributions_heatmap.py:191-263 | Given a list of weeks, the render succeeds exactly when every role of the card is present. Otherwise it fails on the first missing role in evaluation order. |
| ContributionsHeatmap.RenderedBarsFollowWindow | generator/templates/contributions_heatmap.py:201-255 | A successful render draws the bars of the normalised window against its maximum and shows the bundle's total and streak. |
| ContributionsHeatmap.MissingScalarsShowZero | generator/templates/contributions_heatmap.py:202-203 | For any list of weeks and a complete theme, a missing `total` or `streak` shows as 0 and a present one shows its stored value. |
| ContributionsHeatmap.MissingKeysRenderDefaults | generator/templates/contributions_heatmap.py:201-210 | A missing or empty `weeks` gives 52 zero weeks and no bar, and the card still shows the bundle's total and streak. |
| ContributionsHeatmap.ScenarioWindow | generator/templates/contributions_heatmap.py:206-210 | `[0, 0, 5, 10, 0]` is left-padded with 47 zeros, so it lands at window indices 47..51. |
| ContributionsHeatmap.ScenarioActiveWeeks | generator/templates/contributions_heatmap.py:23-25 | In that window the maximum is 10 and the active weeks are exactly 49 and 50. |
| ContributionsHeatmap.ScenarioBars | generator/templates/contributions_heatmap.py:23-70 | Those two weeks give six fragments. Bar 49 is at x = 648 with height 60 in violet; bar 50 is at x = 660 with height 120 in amber. |
| ContributionsHeatmap.TwoBarScenario | generator/templates/contributions_heatmap.py:191-263 | The bundle (weeks [0, 0, 5, 10, 0], total 15, streak 2) renders exactly two bars, the first half as high as the second, and shows 15 and 2. |
| Builder.EntriesOrEmpty | generator/svg_builder.py:19-20 | An absent list of arms or projects reads as empty; a present one is kept. |
| Builder.ContributionsOrDefault | generator/svg_builder.py:17 | The result is never empty. A non-empty bundle is kept. An absent or empty one becomes exactly `weeks = []`, `total = 0`, `streak = 0`. |
| Builder.ContributionsDefaultIdempotent | generator/svg_builder.py:17 | Applying the default twice is the same as applying it once. |
| Builder.SvgBuilder.constructor | generator/svg_builder.py:13-20 | Stores the config, stats and languages unchanged. The contributions get the default, the theme is `config["theme"]`, and the arms and projects default to empty. |
| Builder.NewSvgBuilder | generator/svg_builder.py:13-20 | Construction fails with `MissingKey(["theme"])` exactly when the configuration has no theme. Otherwise it gives a fresh, valid builder. |
| Builder.SvgBuilder.RenderGalaxyHeader | generator/svg_builder.py:22-28 | The header gets the whole config, `config["theme"]`, and the arms and projects, each defaulting to empty. |
| Builder.SvgBuilder.RenderStatsCard | generator/svg_builder.py:30-36 | It fails with the missing key path when `stats` or `stats.metrics` is absent. Otherwise the card gets the held stats unchanged, the metrics and the theme. |
| Builder.SvgBuilder.RenderTechStack | generator/svg_builder.py:38-46 | Gets the held languages, the arms and the theme. `exclude` defaults to [] and `max_display` to 8, whether the section or the key is absent; a given value is passed through. |
| Builder.SvgBuilder.RenderProjectsConstellation | generator/svg_builder.py:48-53 | Gets the projects and arms, each defaulting to empty, and the theme. |
| Builder.SvgBuilder.RenderContributionsHeatmap | generator/svg_builder.py:55-59 | Gets the held, never empty, contributions and the theme. |
| Builder.OneThemeForAllCards | generator/svg_builder.py:18-59 | All five calls carry the same theme. The three calls that take the arms get the same list, and the two that take the projects get the same list. |
| Builder.AbsentContributionsRenderBlank | generator/svg_builder.py:17 | A builder made without contributions, or with an empty bundle, draws a heatmap with no bar and a total and streak of 0 under any complete theme. |
| Builder.DemoContributions | generator/main.py:28-32 | The demonstration bundle is non-empty, stores the daily series under `days` and has no `weeks` key; its total is 4523 and its streak 5. |
| Builder.DemoHeatmapHasNoBars | generator/main.py:28-32 | The demonstration bundle (key `days`, total 4523, streak 5) is kept as given. It renders no bar, whatever the daily series, and shows 4523 and 5. |

## Left out

- **`deterministic_random`.** Its source, `generator/utils`, is not part of this
  model. It is a parameter (`Rng`), and the only property assumed is that it
  returns as many values as asked for. Nothing is claimed about the ranges of
  the points, radii, opacities or durations.
- **The other four templates.** Their source (galaxy header, stats card, tech
  stack, projects constellation) is not part of this model. They appear only as
  the `RendererCall` records the builder produces.
- **SVG text.** The f-string markup, the CSS `<style>` block, and the
  background, title, status and time-range markup are not produced. Only the
  theme lookups they make are modelled, in their evaluation order inside
  `Render`.
- **Constant markup attributes.** Attributes that never depend on the data are
  not carried by the descriptors: the glow's flood opacity 0.6 and blur, the
  bar's opacity 0.8 and corner radius 2, the dot radius 2, the connection
  lines' stroke width, dash pattern and opacity values with their 3 s period,
  the node radius and opacity values, and the grid lines' stroke width and dash
  pattern.
- **The baseline.** The line along y = 200 at the end of the card
  (`generator/templates/contributions_heatmap.py:261-262`) is not produced;
  only its `star_dust` lookup is modelled, as the last step of `Render`.
- **Float representation.** Heights, delays and opacities are exact reals: the
  delay string `f"{i * 0.02}s"` parsed back, and the `:.1f`/`:.2f` rounding.
  Python's binary floating point and its printing are not modelled.
- **Hoisted lookups.** The lookups inside the connection and grid loops are done
  once before the loop. Those loops run 7, 5 and 7 times and reach every lookup
  they contain, so the first failing role is the same.
- **Value types.** Bundle values are either a list of integers or an integer.
  Float counts, `None` values and a configuration value of the wrong type
  (such as a YAML `null` section) are not modelled.
- **`validate_config` and `generator/main.py`.** The configuration validation
  and the command-line driver are not part of this model: argument parsing,
  YAML loading, GitHub fetching, logging, file writing and exits. Only the
  demonstration contributions of `generator/main.py` appear, in
  `Builder.DemoContributions`.
