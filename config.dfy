/** The options accepted by `SumoLogger(opts)` and the defaults filled in for missing ones. */
module Config {
  import opened Wrappers

  /**
   * The recognised options; None is an absent (or `undefined`) property. A falsy
   * `collector` is the empty string, a falsy count is 0, and `rewriteLevels` is the
   * truthiness of the value given.
   */
  datatype Options = Options(
    collector: Option<string>,
    endpoint: Option<string>,
    syncInterval: Option<nat>,
    maxLines: Option<nat>,
    rewriteLevels: Option<bool>)

  /** What one logger instance runs with. */
  datatype Settings = Settings(collectorEndpoint: string, syncInterval: nat, maxLines: nat, rewriteLevels: bool)

  const DefaultEndpoint := "https://endpoint1.collection.us2.sumologic.com/receiver/v1/http/"
  const DefaultSyncInterval: nat := 1000
  const DefaultMaxLines: nat := 100
  const MissingCollector := "SumoLogic collector key must be passed"

  /** `x || d` for a count: an absent or zero count gives the default. */
  function CountOr(x: Option<nat>, d: nat): nat {
    if x.Some? && x.value != 0 then x.value else d
  }

  /** `x || d` for a string: an absent or empty string gives the default. */
  function TextOr(x: Option<string>, d: string): string {
    if x.Some? && x.value != "" then x.value else d
  }

  /**
   * The constructor's validation and defaults: it throws unless a non-empty collector
   * key is given; the URL is the endpoint (default the US2 receiver) followed by the key.
   */
  function Configure(opts: Option<Options>): (r: Result<Settings, string>)
    ensures r.Failure? <==> opts.None? || opts.value.collector.GetOr("") == ""
    ensures r.Failure? ==> r.error == MissingCollector
    ensures r.Success? ==> r.value.maxLines > 0 && r.value.syncInterval > 0
    ensures r.Success? ==>
              var key, url := opts.value.collector.value, r.value.collectorEndpoint;
              |key| < |url| && url[|url| - |key|..] == key &&
              url[..|url| - |key|] == TextOr(opts.value.endpoint, DefaultEndpoint)
    ensures r.Success? ==>
              r.value.maxLines == (if opts.value.maxLines in {None, Some(0)} then DefaultMaxLines else opts.value.maxLines.value)
    ensures r.Success? ==>
              r.value.syncInterval == (if opts.value.syncInterval in {None, Some(0)} then DefaultSyncInterval else opts.value.syncInterval.value)
    ensures r.Success? ==> (r.value.rewriteLevels <==> opts.value.rewriteLevels != Some(false))
  {
    if opts.None? || opts.value.collector.GetOr("") == "" then Failure(MissingCollector)
    else
      var o := opts.value;
      var url := TextOr(o.endpoint, DefaultEndpoint) + o.collector.value;
      Success(Settings(
        url,
        CountOr(o.syncInterval, DefaultSyncInterval),
        CountOr(o.maxLines, DefaultMaxLines),
        if o.rewriteLevels.Some? then o.rewriteLevels.value else true))
  }
}
