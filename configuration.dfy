/** The global and per-task configuration of `src/config.rs`.
    TOML parsing is not modelled: a configuration file on disk is either
    absent, or holds a document that parses to a value, or one that does not. */
module Configuration {
  import opened Outcomes

  /** A TOML file as the loader sees it. */
  datatype StoredFile<T> = Absent | Parsed(value: T) | Malformed

  /** `Config`: the contents of `.grill/config.toml`. */
  datatype Config = Config(defaultCli: string, clis: map<string, string>, hooks: map<string, string>)

  /** `TaskConfig`: the contents of `.grill/tasks/<name>/config.toml`. */
  datatype TaskConfig = TaskConfig(cli: Option<string>, hooks: map<string, string>)

  /** `default_cli()`, also the serde default of the `default_cli` field. */
  function DefaultCli(): string
  {
    "q chat"
  }

  /** `Config::default()`. */
  function DefaultConfig(): Config
  {
    Config(DefaultCli(), map["q" := DefaultCli()], map[])
  }

  /** `TaskConfig::default()`. */
  function DefaultTaskConfig(): TaskConfig
  {
    TaskConfig(None, map[])
  }

  /** `Config::load`: a missing file gives the default configuration. */
  function LoadConfig(file: StoredFile<Config>): (r: Result<Config>)
    ensures file.Absent? ==> r == Ok(DefaultConfig())
    ensures file.Parsed? ==> r == Ok(file.value)
    ensures r.Err? <==> file.Malformed?
  {
    match file
    case Absent => Ok(DefaultConfig())
    case Parsed(c) => Ok(c)
    case Malformed => Err("Failed to parse config file")
  }

  /** `TaskConfig::load`: a missing file gives the default task configuration. */
  function LoadTaskConfig(file: StoredFile<TaskConfig>): (r: Result<TaskConfig>)
    ensures file.Absent? ==> r == Ok(DefaultTaskConfig())
    ensures file.Parsed? ==> r == Ok(file.value)
    ensures r.Err? <==> file.Malformed?
  {
    match file
    case Absent => Ok(DefaultTaskConfig())
    case Parsed(c) => Ok(c)
    case Malformed => Err("Failed to parse task config file")
  }

  /** `Config::get_default_cli`. */
  function GetDefaultCli(c: Config): string
  {
    c.defaultCli
  }

  /** `TaskConfig::get_cli`: the stored override, verbatim, if any. */
  function GetCli(c: TaskConfig): Option<string>
  {
    c.cli
  }

  /** The built-in defaults: `q chat` everywhere, no hooks, no task override. */
  lemma DefaultsAgree()
    ensures GetDefaultCli(DefaultConfig()) == "q chat"
    ensures DefaultConfig().clis == map["q" := "q chat"] && DefaultConfig().hooks == map[]
    ensures GetCli(DefaultTaskConfig()) == None && DefaultTaskConfig().hooks == map[]
    ensures LoadConfig(Absent).Ok? && GetDefaultCli(LoadConfig(Absent).value) == "q chat"
    ensures LoadTaskConfig(Absent).Ok? && GetCli(LoadTaskConfig(Absent).value) == None
  {
  }
}
