/** `config/settings.py`: per-community configuration with its defaults, the
    required environment variables, and the user-agent check.  Reading the
    YAML and `.env` files is left out: the model starts from what they
    parsed to, and `sys.exit(message)` is an `Err(message)`. */
module Settings {
  import opened Wrappers
  import opened Strings
  import opened Models

  datatype SubredditConfig = SubredditConfig(
    name: string,
    unansweredLimit: int,
    topPostsLimit: int,
    includeSections: Sections)

  /** One entry of the `subreddits` list; an absent key is `None`. */
  datatype ConfigEntry = ConfigEntry(
    name: Option<string>,
    unansweredLimit: Option<int>,
    topPostsLimit: Option<int>,
    includeSections: Option<Sections>)

  /** The `config_file` argument: none given, a path that does not exist,
      or the parsed file (`None` when it is empty or has no `subreddits`). */
  datatype ConfigFile = NoConfigFile | NotFound(path: string) | Parsed(subreddits: Option<seq<ConfigEntry>>)

  const DefaultLimit: int := 10

  /** An entry with a truthy `name`. */
  predicate Named(entry: ConfigEntry) {
    entry.name.Some? && entry.name.value != ""
  }

  /** `include_sections.get(key, True)`. */
  function Flag(given: Sections, key: string): bool {
    if key in given then given[key] else true
  }

  /** The `SubredditConfig` built from one named entry. */
  function ConfigOf(entry: ConfigEntry): (c: SubredditConfig)
    requires Named(entry)
    ensures c.name == entry.name.value
    ensures c.unansweredLimit == entry.unansweredLimit.GetOr(DefaultLimit)
    ensures c.topPostsLimit == entry.topPostsLimit.GetOr(DefaultLimit)
    ensures c.includeSections.Keys == {"stats", "trends", "top_posts", "unanswered"}
    ensures forall k :: k in c.includeSections ==>
      c.includeSections[k] == (entry.includeSections.None? || k !in entry.includeSections.value
                               || entry.includeSections.value[k])
  {
    var given := entry.includeSections.GetOr(map[]);
    SubredditConfig(
      entry.name.value,
      entry.unansweredLimit.GetOr(DefaultLimit),
      entry.topPostsLimit.GetOr(DefaultLimit),
      map["stats" := Flag(given, "stats"), "trends" := Flag(given, "trends"),
          "top_posts" := Flag(given, "top_posts"), "unanswered" := Flag(given, "unanswered")])
  }

  /** The configurations of a list of entries, each named entry written
      over any earlier one of the same name. */
  function Configs(entries: seq<ConfigEntry>): (r: map<string, SubredditConfig>)
    ensures |r| <= |entries|
  {
    if entries == [] then map[]
    else
      var earlier := Configs(entries[..|entries| - 1]);
      var last := entries[|entries| - 1];
      if Named(last) then earlier[last.name.value := ConfigOf(last)] else earlier
  }

  /** A name has a configuration exactly when some entry carries it. */
  lemma {:induction false} ConfigsKeys(entries: seq<ConfigEntry>, name: string)
    ensures name in Configs(entries) <==> exists i :: 0 <= i < |entries| && Named(entries[i]) && entries[i].name.value == name
  {
    if entries != [] {
      var init := entries[..|entries| - 1];
      ConfigsKeys(init, name);
      if name in Configs(init) {
        var i :| 0 <= i < |init| && Named(init[i]) && init[i].name.value == name;
        assert entries[i] == init[i];
      }
      forall i | 0 <= i < |init| && Named(entries[i]) && entries[i].name.value == name
        ensures name in Configs(init)
      {
        assert init[i] == entries[i];
      }
    }
  }

  /** The configuration of a name is the one built from the last entry carrying it. */
  lemma {:induction false} ConfigsLastWins(entries: seq<ConfigEntry>, i: int)
    requires 0 <= i < |entries| && Named(entries[i])
    requires forall j :: i < j < |entries| && Named(entries[j]) ==> entries[j].name.value != entries[i].name.value
    ensures entries[i].name.value in Configs(entries)
    ensures Configs(entries)[entries[i].name.value] == ConfigOf(entries[i])
  {
    var init := entries[..|entries| - 1];
    if i < |entries| - 1 {
      forall j | i < j < |init| && Named(init[j]) ensures init[j].name.value != init[i].name.value {
        assert init[j] == entries[j];
      }
      ConfigsLastWins(init, i);
      assert init[i] == entries[i];
    }
  }

  /** Every configuration is filed under its own name, with the four section flags. */
  lemma {:induction false} ConfigsWellFormed(entries: seq<ConfigEntry>)
    ensures forall name :: name in Configs(entries) ==>
      Configs(entries)[name].name == name
      && Configs(entries)[name].includeSections.Keys == {"stats", "trends", "top_posts", "unanswered"}
  {
    if entries != [] {
      ConfigsWellFormed(entries[..|entries| - 1]);
    }
  }

  /** `_load_subreddit_configs`. */
  method LoadSubredditConfigs(file: ConfigFile) returns (r: Result<map<string, SubredditConfig>, string>)
    ensures file.NoConfigFile? ==> r == Ok(map[])
    ensures file.NotFound? ==> r == Err("Config file not found: " + file.path)
    ensures file.Parsed? ==> r == Ok(Configs(file.subreddits.GetOr([])))
  {
    match file
    case NoConfigFile =>
      return Ok(map[]);
    case NotFound(path) =>
      return Err("Config file not found: " + path);
    case Parsed(subreddits) =>
      var entries := subreddits.GetOr([]);
      var configs: map<string, SubredditConfig> := map[];
      for i := 0 to |entries|
        invariant configs == Configs(entries[..i])
      {
        assert entries[..i + 1][..i] == entries[..i];
        var entry := entries[i];
        if !Named(entry) {
          continue;
        }
        var sections := entry.includeSections.GetOr(map[]);
        configs := configs[entry.name.value := SubredditConfig(
          entry.name.value,
          entry.unansweredLimit.GetOr(DefaultLimit),
          entry.topPostsLimit.GetOr(DefaultLimit),
          map["stats" := Flag(sections, "stats"), "trends" := Flag(sections, "trends"),
              "top_posts" := Flag(sections, "top_posts"), "unanswered" := Flag(sections, "unanswered")])];
      }
      assert entries[..|entries|] == entries;
      return Ok(configs);
  }

  // ---------------------------------------------------------------------
  // Environment

  /** The process environment after `.env` is loaded. */
  type Env = map<string, string>

  const Required: seq<string> :=
    ["REDDIT_CLIENT_ID", "REDDIT_CLIENT_SECRET", "REDDIT_USERNAME", "REDDIT_PASSWORD", "USER_AGENT"]

  /** `os.getenv(key, default)`: the default only for an unset variable. */
  function Getenv(env: Env, key: string, default: string): string {
    if key in env then env[key] else default
  }

  /** A variable that is unset or empty. */
  predicate Unset(env: Env, key: string) {
    key !in env || env[key] == ""
  }

  /** `[key for key in keys if not os.getenv(key)]`. */
  function Missing(keys: seq<string>, env: Env): (r: seq<string>)
    ensures |r| <= |keys|
  {
    if keys == [] then []
    else (if Unset(env, keys[0]) then [keys[0]] else []) + Missing(keys[1..], env)
  }

  /** The missing list holds exactly the unset or empty keys, in order. */
  lemma {:induction false} MissingExactly(keys: seq<string>, env: Env)
    ensures forall k :: k in Missing(keys, env) <==> k in keys && Unset(env, k)
    ensures Missing(keys, env) == [] <==> forall i :: 0 <= i < |keys| ==> !Unset(env, keys[i])
  {
    if keys != [] {
      MissingExactly(keys[1..], env);
      assert keys == [keys[0]] + keys[1..];
      assert forall i :: 1 <= i < |keys| ==> keys[i] == keys[1..][i - 1];
    }
  }

  datatype Settings = Settings(
    clientId: string,
    clientSecret: string,
    username: string,
    password: string,
    userAgent: string,
    outputDir: string,
    subredditConfigs: map<string, SubredditConfig>,
    webhookUrl: Option<string>)

  /** `load_settings`: fatal when a required variable is missing and
      `allowMissing` is off, or when the config file does not exist;
      otherwise the settings, with mock credentials only for unset variables
      when `allowMissing` is on. */
  method LoadSettings(env: Env, config: ConfigFile, allowMissing: bool) returns (r: Result<Settings, string>)
    ensures Missing(Required, env) != [] && !allowMissing ==>
      r == Err("Missing environment variables: " + Join(Missing(Required, env), ", "))
    ensures (Missing(Required, env) == [] || allowMissing) && config.NotFound? ==>
      r == Err("Config file not found: " + config.path)
    ensures r.Ok? ==>
      && (Missing(Required, env) == [] || allowMissing)
      && r.value.clientId == Getenv(env, "REDDIT_CLIENT_ID", if allowMissing then "mock_client_id" else "")
      && r.value.clientSecret == Getenv(env, "REDDIT_CLIENT_SECRET", if allowMissing then "mock_client_secret" else "")
      && r.value.username == Getenv(env, "REDDIT_USERNAME", if allowMissing then "mock_user" else "")
      && r.value.password == Getenv(env, "REDDIT_PASSWORD", if allowMissing then "mock_password" else "")
      && r.value.userAgent == Getenv(env, "USER_AGENT",
           if allowMissing then "server:community-health-bot:mock (by /u/mock)" else "")
      && r.value.outputDir == Getenv(env, "OUTPUT_DIR", "./output")
      && r.value.webhookUrl == (if "WEBHOOK_URL" in env then Some(env["WEBHOOK_URL"]) else None)
      && (config.NoConfigFile? ==> r.value.subredditConfigs == map[])
      && (config.Parsed? ==> r.value.subredditConfigs == Configs(config.subreddits.GetOr([])))
    ensures r.Err? ==> (Missing(Required, env) != [] && !allowMissing) || config.NotFound?
  {
    var missing := Missing(Required, env);
    if missing != [] && !allowMissing {
      return Err("Missing environment variables: " + Join(missing, ", "));
    }
    var outputDir := Getenv(env, "OUTPUT_DIR", "./output");
    var configs := LoadSubredditConfigs(config);
    if configs.Err? {
      return Err(configs.error);
    }
    r := Ok(Settings(
      Getenv(env, "REDDIT_CLIENT_ID", if allowMissing then "mock_client_id" else ""),
      Getenv(env, "REDDIT_CLIENT_SECRET", if allowMissing then "mock_client_secret" else ""),
      Getenv(env, "REDDIT_USERNAME", if allowMissing then "mock_user" else ""),
      Getenv(env, "REDDIT_PASSWORD", if allowMissing then "mock_password" else ""),
      Getenv(env, "USER_AGENT", if allowMissing then "server:community-health-bot:mock (by /u/mock)" else ""),
      outputDir,
      configs.value,
      if "WEBHOOK_URL" in env then Some(env["WEBHOOK_URL"]) else None));
  }

  /** Without `allowMissing`, loaded settings have every credential non-empty,
      each taken from the environment. */
  lemma CredentialsPresent(env: Env, allowMissing: bool)
    requires !allowMissing && Missing(Required, env) == []
    ensures forall k :: k in Required ==> k in env && env[k] != ""
  {
    MissingExactly(Required, env);
  }

  // ---------------------------------------------------------------------
  // User agent

  const Placeholder := "your_bot_username"

  /** `any(pattern in user_agent for pattern in patterns)`. */
  function AnyContained(userAgent: string, patterns: seq<string>): (r: bool)
    ensures r <==> exists i :: 0 <= i < |patterns| && Contains(userAgent, patterns[i])
  {
    if patterns == [] then false
    else if Contains(userAgent, patterns[0]) then true
    else
      assert forall i :: 1 <= i < |patterns| ==> patterns[i] == patterns[1..][i - 1];
      AnyContained(userAgent, patterns[1..])
  }

  /** `validate_user_agent`: `None` when accepted, else the exit message. */
  function ValidateUserAgent(userAgent: string, allowed: Option<seq<string>>): (r: Option<string>)
    ensures r.None? <==>
      && userAgent != ""
      && !Contains(userAgent, Placeholder)
      && (allowed.Some? && allowed.value != [] ==> exists i :: 0 <= i < |allowed.value| && Contains(userAgent, allowed.value[i]))
  {
    if userAgent == "" || Contains(userAgent, Placeholder) then
      Some("USER_AGENT must be set to a descriptive value (no placeholders).")
    else if allowed.Some? && allowed.value != [] && !AnyContained(userAgent, allowed.value) then
      Some("USER_AGENT does not match expected format. Example: server:app-name:1.0.0 (by /u/your_bot)")
    else None
  }

  /** A user agent without an underscore never counts as the placeholder, so
      with no patterns given any such non-empty value is accepted. */
  lemma NoUnderscoreAccepted(userAgent: string)
    requires userAgent != "" && '_' !in userAgent
    ensures !Contains(userAgent, Placeholder)
    ensures ValidateUserAgent(userAgent, None).None?
  {
    forall i ensures !Occurs(Placeholder, userAgent, i) {
      if 0 <= i <= |userAgent| - |Placeholder| {
        assert userAgent[i + 4] in userAgent;
        assert userAgent[i..i + |Placeholder|][4] == userAgent[i + 4];
      }
    }
  }
}
