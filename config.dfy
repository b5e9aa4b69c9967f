/**
 * The run configuration: the fields of the `Config` dataclass with their
 * defaults, the four settings the keyword pipeline reads although the
 * dataclass does not declare them, and the checks `validate` performs.
 */
module Settings {
  import opened Common

  datatype Config = Config(
    apiToken: string,
    base: string,
    regionId: int,
    niche: string,
    seedTargets: Option<seq<string>>,
    wskThreshold: int,
    wsThreshold: int,
    minNumWords: int,
    stopWords: Option<seq<string>>,
    returnTop: int,
    adFilters: Option<string>,
    safeFilters: bool,
    cacheTtl: int,
    // read by the keyword pipeline, not declared by the dataclass (no default exists)
    offlineMode: bool,
    multiRegion: bool,
    regions: seq<int>,
    maxResults: int)

  /** Why `validate` rejects a configuration. */
  datatype ConfigError = MissingApiToken | MissingNiche | MinNumWordsBelowOne

  /**
   * `Config(api_token=...)` with every declared field at its default; the
   * undeclared pipeline settings have no default and are given explicitly.
   */
  function Default(apiToken: string, offlineMode: bool, multiRegion: bool, regions: seq<int>, maxResults: int): (c: Config)
    ensures c.apiToken == apiToken
    ensures c.base == "msk" && c.regionId == 213 && c.niche == ""
    ensures c.seedTargets == None && c.stopWords == None && c.adFilters == None
    ensures c.wskThreshold == 80 && c.wsThreshold == 1000 && c.minNumWords == 3
    ensures c.returnTop == 50 && c.safeFilters && c.cacheTtl == 86400
  {
    Config(apiToken, "msk", 213, "", None, 80, 1000, 3, None, 50, None, true, 86400,
           offlineMode, multiRegion, regions, maxResults)
  }

  /** `validate()`: the three checks in order; `Ok` when none fires. */
  function Validate(c: Config): (r: Result<(), ConfigError>)
    ensures r.Ok? <==> c.apiToken != "" && c.niche != "" && c.minNumWords >= 1
    ensures c.apiToken == "" ==> r == Err(MissingApiToken)
    ensures c.apiToken != "" && c.niche == "" ==> r == Err(MissingNiche)
    ensures c.apiToken != "" && c.niche != "" && c.minNumWords < 1 ==> r == Err(MinNumWordsBelowOne)
  {
    if c.apiToken == "" then Err(MissingApiToken)
    else if c.niche == "" then Err(MissingNiche)
    else if c.minNumWords < 1 then Err(MinNumWordsBelowOne)
    else Ok(())
  }

  /** The defaults alone never validate: the niche is empty, or the token is missing first. */
  lemma DefaultsNeedNiche(apiToken: string, offlineMode: bool, multiRegion: bool, regions: seq<int>, maxResults: int)
    ensures Validate(Default(apiToken, offlineMode, multiRegion, regions, maxResults)) ==
      if apiToken == "" then Err(MissingApiToken) else Err(MissingNiche)
  {
  }

  /** With a token and a niche supplied, the default word minimum (3) passes the last check. */
  lemma DefaultsValidWithNiche(apiToken: string, niche: string, offlineMode: bool, multiRegion: bool, regions: seq<int>, maxResults: int)
    requires apiToken != "" && niche != ""
    ensures Validate(Default(apiToken, offlineMode, multiRegion, regions, maxResults).(niche := niche)) == Ok(())
  {
  }
}
