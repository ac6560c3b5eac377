/**
 * The service configuration (configuration.go): its shape, the defaults
 * applied after the file is decoded, and the environment getter. Reading
 * the file, decoding it and reading `GO_ENV` happen outside the model:
 * `Init` receives their results as parameters.
 */
module Configuration {

  /** Go's `int` on the 64-bit platforms the service is built for. */
  newtype int64 = x: int | -0x8000_0000_0000_0000 <= x < 0x8000_0000_0000_0000

  datatype BindConfig = BindConfig(udp: string, tcp: string)

  datatype LogConfig = LogConfig(level: string, console: bool, file: bool)

  /** One override entry: a key and the two address texts configured for it. */
  datatype ItemConfig = ItemConfig(key: string, ipv4: string, ipv6: string)

  /** The value of every field of a configuration at one moment. */
  datatype Settings = Settings(
    bind: BindConfig,
    resolver: string,
    ttl: int64,
    log: LogConfig,
    hosts: seq<ItemConfig>,
    tlds: seq<ItemConfig>,
    env: string)

  /**
   * What decoding the configuration file leaves in a zero-valued
   * configuration: the values of the keys the file supplies, and zero
   * values for the rest (all zero when the file cannot be read or parsed).
   * The environment is not a key of the file.
   */
  datatype Decoded = Decoded(
    bind: BindConfig,
    resolver: string,
    ttl: int64,
    log: LogConfig,
    hosts: seq<ItemConfig>,
    tlds: seq<ItemConfig>)

  const DevelopmentEnv := "development"
  const DefaultTld := ItemConfig("dev.io", "127.0.0.1", "::1")
  const DefaultResolver := "/etc/resolv.conf"
  const DefaultTTL: int64 := 86400

  /** The fields as they stand once `init` has read the environment and decoded the file. */
  function Loaded(goEnv: string, file: Decoded): Settings
  {
    Settings(file.bind, file.resolver, file.ttl, file.log, file.hosts, file.tlds, goEnv)
  }

  /** A configuration on which the defaulting has nothing left to do. */
  predicate IsDefaulted(s: Settings) {
    && s.env != ""
    && (s.env == DevelopmentEnv ==> !s.log.file)
    && s.tlds != []
    && s.resolver != ""
    && s.ttl != 0
  }

  /**
   * The defaulting of `init`: an empty environment becomes "development",
   * which forces file logging off; an empty TLD list gets the single
   * "dev.io" entry; an empty resolver path becomes "/etc/resolv.conf"; a
   * zero TTL becomes 86400. Every other field is left as it was.
   */
  function WithDefaults(s: Settings): (d: Settings)
    ensures s.env == "" ==> d.env == DevelopmentEnv
    ensures s.env != "" ==> d.env == s.env
    ensures d.env == DevelopmentEnv ==> !d.log.file
    ensures d.env != DevelopmentEnv ==> d.log.file == s.log.file
    ensures s.tlds == [] ==> d.tlds == [DefaultTld]
    ensures s.tlds != [] ==> d.tlds == s.tlds
    ensures s.resolver == "" ==> d.resolver == DefaultResolver
    ensures s.resolver != "" ==> d.resolver == s.resolver
    ensures s.ttl == 0 ==> d.ttl == DefaultTTL
    ensures s.ttl != 0 ==> d.ttl == s.ttl
    ensures d.hosts == s.hosts && d.bind == s.bind
    ensures d.log.level == s.log.level && d.log.console == s.log.console
    ensures IsDefaulted(d)
  {
    var env := if s.env == "" then DevelopmentEnv else s.env;
    Settings(
      s.bind,
      if s.resolver == "" then DefaultResolver else s.resolver,
      if s.ttl == 0 then DefaultTTL else s.ttl,
      if env == DevelopmentEnv then s.log.(file := false) else s.log,
      s.hosts,
      if s.tlds == [] then [DefaultTld] else s.tlds,
      env)
  }

  /** The defaults are exactly what is missing: a configuration is a fixed point iff it is defaulted. */
  lemma DefaultedIsFixedPoint(s: Settings)
    ensures WithDefaults(s) == s <==> IsDefaulted(s)
  {
  }

  /** Applying the defaulting twice gives the same result as applying it once. */
  lemma WithDefaultsIdempotent(s: Settings)
    ensures WithDefaults(WithDefaults(s)) == WithDefaults(s)
  {
    DefaultedIsFixedPoint(WithDefaults(s));
  }

  /** The configuration; `init` updates its fields step by step. */
  class Configuration {
    var bind: BindConfig
    var resolver: string
    var ttl: int64
    var log: LogConfig
    var hosts: seq<ItemConfig>
    var tlds: seq<ItemConfig>
    var env: string

    ghost function Snapshot(): Settings
      reads this
    {
      Settings(bind, resolver, ttl, log, hosts, tlds, env)
    }

    /** A zero-valued configuration, as `&Configuration{}` allocates it. */
    constructor ()
      ensures Snapshot() == Settings(BindConfig("", ""), "", 0, LogConfig("", false, false), [], [], "")
    {
      bind := BindConfig("", "");
      resolver := "";
      ttl := 0;
      log := LogConfig("", false, false);
      hosts := [];
      tlds := [];
      env := "";
    }

    /** `GetCurrentEnvironment`: the environment exactly as stored. */
    function GetCurrentEnvironment(): (e: string)
      reads this
      ensures e == Snapshot().env
    {
      env
    }

    /**
     * `init` on a freshly allocated configuration (its one caller), given
     * the value of `GO_ENV` and what decoding the file produced: the fields
     * end up as the defaulting of the loaded values. Decoding keeps the
     * earlier value of every key the file leaves out, and on a fresh
     * receiver that earlier value is the zero value `Decoded` carries.
     */
    method Init(goEnv: string, file: Decoded)
      requires Snapshot() == Settings(BindConfig("", ""), "", 0, LogConfig("", false, false), [], [], "")
      modifies this
      ensures Snapshot() == WithDefaults(Loaded(goEnv, file))
      ensures IsDefaulted(Snapshot()) && GetCurrentEnvironment() != ""
    {
      env := goEnv;
      if env == "" {
        env := DevelopmentEnv;
      }
      bind, resolver, ttl, log, hosts, tlds := file.bind, file.resolver, file.ttl, file.log, file.hosts, file.tlds;

      if env == DevelopmentEnv {
        log := log.(file := false);
      }
      if |tlds| == 0 {
        tlds := tlds + [DefaultTld];
      }
      if resolver == "" {
        resolver := DefaultResolver;
      }
      if ttl == 0 {
        ttl := DefaultTTL;
      }
    }
  }
}
