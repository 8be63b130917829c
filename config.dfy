/**
  * The server configuration: a lazily created record holding the content directory.
  * The environment variable `MCP_CONTENT_PATH`, when set and non-empty, takes precedence
  * over the default directory next to the module; an explicit override replaces it, and
  * a reset makes the next read derive it afresh. The prompts, rules and per-system rules
  * directories are derived from the content directory.
  */
module Config {
  import opened Wrappers
  import opened Text

  /**
    * `path.resolve(__dirname, "../content")`: the `content` directory one level above the
    * module's own, spelled with its `..` step.
    */
  function DefaultContentPath(moduleDir: string): (p: string)
    ensures p == moduleDir + "/../content"
  {
    Resolve(moduleDir, "../content")
  }

  /** `process.env.MCP_CONTENT_PATH || defaultContentPath`: an empty variable counts as unset. */
  function InitialContentPath(env: Option<string>, moduleDir: string): (p: string)
    ensures env.Some? && env.value != "" ==> p == env.value
    ensures env.None? || env.value == "" ==> p == DefaultContentPath(moduleDir)
  {
    if env.Some? && env.value != "" then env.value else DefaultContentPath(moduleDir)
  }

  /** `path.join(contentPath, "prompts")`. */
  function PromptsPath(contentPath: string): string {
    PathJoin(contentPath, "prompts")
  }

  /** `path.join(contentPath, "rules")`. */
  function RulesPath(contentPath: string): string {
    PathJoin(contentPath, "rules")
  }

  /** `path.join(getRulesPath(), system)`. */
  function SystemRulesPath(contentPath: string, system: string): string {
    PathJoin(RulesPath(contentPath), system)
  }

  /**
    * The derived directories sit inside the content directory, the prompts and rules
    * directories differ, and each system, named by one path segment, has a directory of
    * its own under the rules one.
    */
  lemma DerivedPaths(contentPath: string, a: string, b: string)
    ensures contentPath + "/" <= PromptsPath(contentPath) && contentPath + "/" <= RulesPath(contentPath)
    ensures RulesPath(contentPath) + "/" <= SystemRulesPath(contentPath, a)
    ensures PromptsPath(contentPath) != RulesPath(contentPath)
    ensures IsSegment(a) && IsSegment(b) && a != b ==> SystemRulesPath(contentPath, a) != SystemRulesPath(contentPath, b)
  {
    if PromptsPath(contentPath) == RulesPath(contentPath) {
      PathJoinInjective(contentPath, "prompts", "rules");
    }
    if IsSegment(a) && IsSegment(b) && a != b && SystemRulesPath(contentPath, a) == SystemRulesPath(contentPath, b) {
      PathJoinInjective(RulesPath(contentPath), a, b);
    }
  }

  /** `ServerConfig`: the one record the module hands out and updates. */
  class ServerConfig {
    var contentPath: string

    constructor (contentPath: string)
      ensures this.contentPath == contentPath
    {
      this.contentPath := contentPath;
    }
  }

  /**
    * The module state: `config`, null until first read. The module's own directory and
    * the process's working directory, which `path.resolve` uses, are fixed for its life.
    */
  class ConfigStore {
    const moduleDir: string
    const cwd: string
    var config: ServerConfig?

    /** The module as first imported: no configuration yet. */
    constructor (moduleDir: string, cwd: string)
      ensures this.moduleDir == moduleDir && this.cwd == cwd && config == null
    {
      this.moduleDir := moduleDir;
      this.cwd := cwd;
      config := null;
    }

    /** The content directory a read would report now, with the environment as given. */
    function CurrentContentPath(env: Option<string>): string
      reads this, config
    {
      if config == null then InitialContentPath(env, moduleDir) else config.contentPath
    }

    /**
      * `getConfig()`: on the first call, a new record from the environment or the
      * default; afterwards the same record, without reading the environment again.
      */
    method GetConfig(env: Option<string>) returns (c: ServerConfig)
      modifies this
      ensures config == c && c.contentPath == old(CurrentContentPath(env))
      ensures old(config) != null ==> c == old(config)
      ensures old(config) == null ==> fresh(c)
    {
      if config == null {
        config := new ServerConfig(InitialContentPath(env, moduleDir));
      }
      c := config;
    }

    /**
      * `setContentPath(p)`: creates the record if there is none, then sets its content
      * directory to `p` resolved against the working directory.
      */
    method SetContentPath(env: Option<string>, p: string)
      modifies this, config
      ensures config != null && config.contentPath == Resolve(cwd, p)
      ensures old(config) != null ==> config == old(config)
      ensures old(config) == null ==> fresh(config)
    {
      if config == null {
        var c := GetConfig(env);
      }
      config.contentPath := Resolve(cwd, p);
    }

    /** `getPromptsPath()`: the prompts directory under the configured content directory. */
    method GetPromptsPath(env: Option<string>) returns (p: string)
      modifies this
      ensures p == PromptsPath(old(CurrentContentPath(env)))
      ensures config != null && config.contentPath == old(CurrentContentPath(env))
      ensures old(config) != null ==> config == old(config)
    {
      var c := GetConfig(env);
      p := PathJoin(c.contentPath, "prompts");
    }

    /** `getRulesPath()`: the rules directory under the configured content directory. */
    method GetRulesPath(env: Option<string>) returns (p: string)
      modifies this
      ensures p == RulesPath(old(CurrentContentPath(env)))
      ensures config != null && config.contentPath == old(CurrentContentPath(env))
      ensures old(config) != null ==> config == old(config)
    {
      var c := GetConfig(env);
      p := PathJoin(c.contentPath, "rules");
    }

    /** `getSystemRulesPath(system)`: the system's directory under the rules directory. */
    method GetSystemRulesPath(env: Option<string>, system: string) returns (p: string)
      modifies this
      ensures p == SystemRulesPath(old(CurrentContentPath(env)), system)
      ensures config != null && config.contentPath == old(CurrentContentPath(env))
      ensures old(config) != null ==> config == old(config)
    {
      var rules := GetRulesPath(env);
      p := PathJoin(rules, system);
    }

    /** `resetConfig()`: forget the record; the next read derives it afresh. */
    method ResetConfig()
      modifies this
      ensures config == null
    {
      config := null;
    }
  }

  /**
    * The configuration lifecycle: the environment read at the first access sticks even
    * when it later changes; an override replaces it; after a reset the environment is
    * read again and the override is gone.
    */
  method ConfigLifecycle(moduleDir: string, cwd: string, env: Option<string>, laterEnv: Option<string>, overridePath: string)
    returns (first: string, second: string, overridden: string, afterReset: string)
    ensures first == InitialContentPath(env, moduleDir)
    ensures second == first
    ensures overridden == Resolve(cwd, overridePath)
    ensures afterReset == InitialContentPath(laterEnv, moduleDir)
  {
    var store := new ConfigStore(moduleDir, cwd);
    var c := store.GetConfig(env);
    first := c.contentPath;
    c := store.GetConfig(laterEnv);
    second := c.contentPath;
    store.SetContentPath(laterEnv, overridePath);
    c := store.GetConfig(laterEnv);
    overridden := c.contentPath;
    store.ResetConfig();
    c := store.GetConfig(laterEnv);
    afterReset := c.contentPath;
  }
}
