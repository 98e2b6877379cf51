/** The SVG builder: it holds a validated configuration, the fetched stats,
    languages and contributions, and slices them into the arguments of the
    five card renderers.

    Four of the renderers (galaxy header, stats card, tech stack, projects
    constellation) are not part of this model: each `Render...` member returns
    a `RendererCall` record naming the renderer and the arguments it is given.
    The contributions heatmap is modelled in `ContributionsHeatmap`, and the
    lemmas at the end evaluate its call. */
module Builder {
  import opened Results
  import ContributionsHeatmap

  type Theme = ContributionsHeatmap.Theme
  type Bundle = ContributionsHeatmap.Bundle

  /** Repository statistics (`commits`, `stars`, ...) and byte counts per
      language, as fetched. */
  type Stats = map<string, int>
  type Languages = map<string, int>

  /** A galaxy arm or a project entry of the configuration; the builder passes
      these through untouched. */
  datatype Entry = Entry(fields: map<string, string>)

  /** The `stats` section of the configuration. */
  datatype StatsSection = StatsSection(metrics: Option<seq<string>>)

  /** The `languages` section of the configuration. */
  datatype LanguagesSection = LanguagesSection(exclude: Option<seq<string>>, maxDisplay: Option<int>)

  /** The keys of the configuration that the builder reads; `None` is a key
      that is absent. */
  datatype Config = Config(
    theme: Option<Theme>,
    galaxyArms: Option<seq<Entry>>,
    projects: Option<seq<Entry>>,
    stats: Option<StatsSection>,
    languages: Option<LanguagesSection>)

  /** A `KeyError` while reading the configuration: the path of keys that was
      looked up. */
  datatype ConfigError = MissingKey(path: seq<string>)

  /** A renderer and the arguments it is called with. */
  datatype RendererCall =
    | GalaxyHeader(config: Config, theme: Theme, galaxyArms: seq<Entry>, projects: seq<Entry>)
    | StatsCard(stats: Stats, metrics: seq<string>, theme: Theme)
    | TechStack(languages: Languages, galaxyArms: seq<Entry>, theme: Theme, exclude: seq<string>, maxDisplay: int)
    | ProjectsConstellation(projects: seq<Entry>, galaxyArms: seq<Entry>, theme: Theme)
    | HeatmapCall(contributionsData: Bundle, theme: Theme)

  /** The contributions used when none, or an empty dictionary, is given. */
  const DefaultContributions: Bundle :=
    map["weeks" := ContributionsHeatmap.Counts([]),
        "total" := ContributionsHeatmap.Number(0),
        "streak" := ContributionsHeatmap.Number(0)]

  /** How many languages the tech stack shows when the configuration does not
      say. */
  const DefaultMaxDisplay: int := 8

  /** `contributions or {...}`: a missing or empty (falsy) dictionary is replaced
      by the default one; any other dictionary is kept as it is. */
  function ContributionsOrDefault(given: Option<Bundle>): (r: Bundle)
    ensures r != map[]
    ensures given.Some? && given.value != map[] ==> r == given.value
    ensures (given.None? || given.value == map[]) ==>
              && r.Keys == {"weeks", "total", "streak"}
              && r["weeks"] == ContributionsHeatmap.Counts([])
              && r["total"] == r["streak"] == ContributionsHeatmap.Number(0)
  {
    if given.Some? && given.value != map[] then given.value
    else
      assert "weeks" in DefaultContributions;
      DefaultContributions
  }

  /** Defaulting twice is defaulting once. */
  lemma ContributionsDefaultIdempotent(given: Option<Bundle>)
    ensures ContributionsOrDefault(Some(ContributionsOrDefault(given))) == ContributionsOrDefault(given)
  {
  }

  /** `config.get(key, [])` for the galaxy arms and the projects. */
  function EntriesOrEmpty(entries: Option<seq<Entry>>): (r: seq<Entry>)
    ensures entries.None? ==> r == []
    ensures entries.Some? ==> r == entries.value
  {
    entries.GetOr([])
  }

  /** The builder. Every field is set once, by the constructor; the renderers
      only read them. */
  class SvgBuilder {
    const config: Config
    const stats: Stats
    const languages: Languages
    const contributions: Bundle
    const theme: Theme
    const galaxyArms: seq<Entry>
    const projects: seq<Entry>

    /** The fields are the ones the constructor derives from the configuration. */
    predicate Valid() {
      && config.theme == Some(theme)
      && galaxyArms == EntriesOrEmpty(config.galaxyArms)
      && projects == EntriesOrEmpty(config.projects)
      && contributions != map[]
    }

    /** `__init__`: the theme is required (`config["theme"]`); arms and projects
        default to empty lists; falsy contributions are replaced by the default. */
    constructor(config: Config, stats: Stats, languages: Languages, contributions: Option<Bundle>)
      requires config.theme.Some?
      ensures Valid()
      ensures this.config == config && this.stats == stats && this.languages == languages
      ensures this.contributions == ContributionsOrDefault(contributions)
      ensures this.theme == config.theme.value
      ensures config.galaxyArms.None? ==> this.galaxyArms == []
      ensures config.projects.None? ==> this.projects == []
    {
      this.config := config;
      this.stats := stats;
      this.languages := languages;
      this.contributions := ContributionsOrDefault(contributions);
      this.theme := config.theme.value;
      this.galaxyArms := EntriesOrEmpty(config.galaxyArms);
      this.projects := EntriesOrEmpty(config.projects);
    }

    /** `render_galaxy_header`: the whole configuration, with the theme, arms
        and projects it resolved. */
    function RenderGalaxyHeader(): (r: RendererCall)
      requires Valid()
      ensures r.GalaxyHeader? && r.config == config
      ensures Some(r.theme) == config.theme
      ensures r.galaxyArms == config.galaxyArms.GetOr([]) && r.projects == config.projects.GetOr([])
    {
      GalaxyHeader(config, theme, galaxyArms, projects)
    }

    /** `render_stats_card`: the stats as fetched and `config["stats"]["metrics"]`,
        which fails when either key is absent. */
    function RenderStatsCard(): (r: Result<RendererCall, ConfigError>)
      requires Valid()
      ensures r.Ok? <==> config.stats.Some? && config.stats.value.metrics.Some?
      ensures config.stats.None? ==> r == Err(MissingKey(["stats"]))
      ensures config.stats.Some? && config.stats.value.metrics.None? ==> r == Err(MissingKey(["stats", "metrics"]))
      ensures r.Ok? ==> && r.value.StatsCard? && r.value.stats == stats
                        && r.value.metrics == config.stats.value.metrics.value
                        && Some(r.value.theme) == config.theme
    {
      if config.stats.None? then Err(MissingKey(["stats"]))
      else if config.stats.value.metrics.None? then Err(MissingKey(["stats", "metrics"]))
      else Ok(StatsCard(stats, config.stats.value.metrics.value, theme))
    }

    /** `render_tech_stack`: the languages as fetched; `exclude` defaults to
        nothing and `max_display` to 8, whether the section or the key is
        absent. */
    function RenderTechStack(): (r: RendererCall)
      requires Valid()
      ensures r.TechStack? && r.languages == languages && Some(r.theme) == config.theme
      ensures r.galaxyArms == config.galaxyArms.GetOr([])
      ensures config.languages.None? || config.languages.value.exclude.None? ==> r.exclude == []
      ensures config.languages.Some? && config.languages.value.exclude.Some? ==> r.exclude == config.languages.value.exclude.value
      ensures config.languages.None? || config.languages.value.maxDisplay.None? ==> r.maxDisplay == DefaultMaxDisplay
      ensures config.languages.Some? && config.languages.value.maxDisplay.Some? ==> r.maxDisplay == config.languages.value.maxDisplay.value
    {
      var section := config.languages.GetOr(LanguagesSection(None, None));
      TechStack(languages, galaxyArms, theme, section.exclude.GetOr([]), section.maxDisplay.GetOr(DefaultMaxDisplay))
    }

    /** `render_projects_constellation`: the resolved projects and arms. */
    function RenderProjectsConstellation(): (r: RendererCall)
      requires Valid()
      ensures r.ProjectsConstellation? && Some(r.theme) == config.theme
      ensures r.projects == config.projects.GetOr([]) && r.galaxyArms == config.galaxyArms.GetOr([])
    {
      ProjectsConstellation(projects, galaxyArms, theme)
    }

    /** `render_contributions_heatmap`: the held contributions, never empty, and
        the theme. */
    function RenderContributionsHeatmap(): (r: RendererCall)
      requires Valid()
      ensures r.HeatmapCall? && r.contributionsData == contributions && r.contributionsData != map[]
      ensures Some(r.theme) == config.theme
    {
      HeatmapCall(contributions, theme)
    }
  }

  /** `SVGBuilder(config, ...)` as a whole: a configuration without a theme
      raises `KeyError: 'theme'`; otherwise the builder is made. */
  method NewSvgBuilder(config: Config, stats: Stats, languages: Languages, contributions: Option<Bundle>)
    returns (r: Result<SvgBuilder, ConfigError>)
    ensures r.Err? <==> config.theme.None?
    ensures r.Err? ==> r.error == MissingKey(["theme"])
    ensures r.Ok? ==> && fresh(r.value) && r.value.Valid()
                      && r.value.config == config && r.value.stats == stats && r.value.languages == languages
                      && r.value.contributions == ContributionsOrDefault(contributions)
  {
    if config.theme.None? {
      return Err(MissingKey(["theme"]));
    }
    var b := new SvgBuilder(config, stats, languages, contributions);
    return Ok(b);
  }

  /** Every renderer that takes a theme gets the same one, `config["theme"]`,
      and the three that take the arms get the same list. */
  lemma OneThemeForAllCards(b: SvgBuilder)
    requires b.Valid() && b.RenderStatsCard().Ok?
    ensures var header, card, tech, constellation, heatmap :=
              b.RenderGalaxyHeader(), b.RenderStatsCard().value, b.RenderTechStack(),
              b.RenderProjectsConstellation(), b.RenderContributionsHeatmap();
      && header.theme == card.theme == tech.theme == constellation.theme == heatmap.theme
      && header.galaxyArms == tech.galaxyArms == constellation.galaxyArms
      && header.projects == constellation.projects
  {
  }

  /** A builder made without contributions, or with an empty dictionary, draws a
      heatmap with no bar and a total and streak of 0 under any complete theme. */
  lemma AbsentContributionsRenderBlank(given: Option<Bundle>, theme: Theme, rng: ContributionsHeatmap.Rng)
    requires ContributionsHeatmap.ReturnsCount(rng)
    requires ContributionsHeatmap.Lookup(theme, ContributionsHeatmap.HeatmapRoles).Ok?
    requires given.None? || given == Some(map[])
    ensures var r := ContributionsHeatmap.Render(ContributionsOrDefault(given), theme, rng);
      && r.Ok? && r.value.bars == []
      && ContributionsHeatmap.ShowsTotalAndStreak(r.value.stats, ContributionsHeatmap.Number(0), ContributionsHeatmap.Number(0))
  {
    var bundle := ContributionsOrDefault(given);
    assert bundle == DefaultContributions;
    ContributionsHeatmap.MissingKeysRenderDefaults(bundle, theme, rng);
    ContributionsHeatmap.RenderedBarsFollowWindow(bundle, theme, rng);
    assert ContributionsHeatmap.ScalarOf(bundle, "total") == ContributionsHeatmap.Number(0);
    assert ContributionsHeatmap.ScalarOf(bundle, "streak") == ContributionsHeatmap.Number(0);
  }

  /** The demonstration contributions: a daily series under the key `days`,
      with a total of 4523 and a streak of 5. */
  function DemoContributions(days: seq<int>): (b: Bundle)
    ensures b != map[] && "weeks" !in b
    ensures "days" in b && b["days"] == ContributionsHeatmap.Counts(days)
    ensures "total" in b && b["total"] == ContributionsHeatmap.Number(4523)
    ensures "streak" in b && b["streak"] == ContributionsHeatmap.Number(5)
  {
    assert "weeks" != "days" && "weeks" != "total" && "weeks" != "streak";
    var b := map["days" := ContributionsHeatmap.Counts(days),
                 "total" := ContributionsHeatmap.Number(4523),
                 "streak" := ContributionsHeatmap.Number(5)];
    assert "days" in b;
    b
  }

  /** The demonstration data is kept as given, but the heatmap reads `weeks`, so
      whatever the daily series, the demonstration card shows no bar; its total
      and streak are still shown. */
  lemma DemoHeatmapHasNoBars(days: seq<int>, theme: Theme, rng: ContributionsHeatmap.Rng)
    requires ContributionsHeatmap.ReturnsCount(rng)
    requires ContributionsHeatmap.Lookup(theme, ContributionsHeatmap.HeatmapRoles).Ok?
    ensures ContributionsOrDefault(Some(DemoContributions(days))) == DemoContributions(days)
    ensures var r := ContributionsHeatmap.Render(DemoContributions(days), theme, rng);
      && r.Ok? && r.value.bars == []
      && ContributionsHeatmap.ShowsTotalAndStreak(r.value.stats, ContributionsHeatmap.Number(4523), ContributionsHeatmap.Number(5))
  {
    var bundle := DemoContributions(days);
    assert "days" in bundle;
    assert "weeks" !in bundle;
    ContributionsHeatmap.MissingKeysRenderDefaults(bundle, theme, rng);
    ContributionsHeatmap.RenderedBarsFollowWindow(bundle, theme, rng);
  }
}
