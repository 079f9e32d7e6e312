/**
 * The read-only settings object of the host application, as far as the
 * metrics library reads it.
 */
module Config {
  import opened Wrappers

  /**
   * `influxTags` is `None` when the settings object has no
   * CLOUDCIX_INFLUX_TAGS attribute at all; `database` is `None` when
   * CLOUDCIX_INFLUX_DATABASE is set to None, which switches emission off.
   */
  datatype Settings = Settings(
    url: string,
    port: int,
    database: Option<string>,
    influxTags: Option<map<string, string>>)

  /** The extra tags merged into every packet: the setting, or `{}` when absent. */
  function ExtraTags(cfg: Settings): map<string, string>
  {
    if cfg.influxTags.Some? then cfg.influxTags.value else map[]
  }
}
