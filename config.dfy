/** The configuration record of internal/config/config.go and its defaulting rules. */
module Config {
  import opened Wrappers
  import opened Bytes
  import opened Time

  datatype ElasticsearchConfig = ElasticsearchConfig(
    addresses: seq<Bytes>,
    username: Bytes,
    password: Bytes,
    cloudId: Bytes,
    apiKey: Bytes,
    tlsSkipVerify: bool,
    requestTimeout: Bytes,
    provider: Bytes,
    skipProductCheck: bool)

  datatype SchedulerConfig = SchedulerConfig(timezone: Bytes)

  datatype RulesConfig = RulesConfig(directory: Bytes, sampleSize: int, defaultQuietPeriod: Bytes)

  datatype WebhookConfig = WebhookConfig(url: Bytes, headers: map<Bytes, Bytes>, timeout: Bytes)

  datatype FeishuConfig = FeishuConfig(
    webhook: Bytes, enableAtAll: bool, timeout: Bytes, titlePrefix: Bytes, contentIntro: Bytes)

  datatype DingTalkConfig = DingTalkConfig(webhook: Bytes, secret: Bytes, enableAtAll: bool, timeout: Bytes)

  datatype WeChatConfig = WeChatConfig(webhook: Bytes, timeout: Bytes)

  datatype EmailConfig = EmailConfig(
    host: Bytes,
    port: int,
    username: Bytes,
    password: Bytes,
    from: Bytes,
    to: seq<Bytes>,
    useTLS: bool,
    tlsSkipVerify: bool,
    subjectPrefix: Bytes,
    timeout: Bytes)

  datatype Notifications = Notifications(
    webhook: WebhookConfig,
    feishu: FeishuConfig,
    dingTalk: DingTalkConfig,
    weChat: WeChatConfig,
    email: EmailConfig)

  datatype WebConfig = WebConfig(enabled: bool, listen: Bytes, baseURL: Bytes)

  datatype LoggingConfig = LoggingConfig(level: Bytes)

  datatype Config = Config(
    elasticsearch: ElasticsearchConfig,
    scheduler: SchedulerConfig,
    rules: RulesConfig,
    notifications: Notifications,
    web: WebConfig,
    logging: LoggingConfig)

  /** Why `Load` gave up: the file could not be read, or it is not valid YAML for a `Config`. */
  datatype ConfigError = ReadConfigError | UnmarshalConfigError

  /** `ElasticsearchConfig.GetRequestTimeout`: 30 s unless the setting is present and parses. */
  function GetRequestTimeout(e: ElasticsearchConfig, parse: DurationParser): (d: Duration)
    ensures e.requestTimeout == [] || parse(e.requestTimeout).None? ==> d == 30 * Second
    ensures e.requestTimeout != [] && parse(e.requestTimeout).Some? ==> d == parse(e.requestTimeout).value
  {
    ParseDurationDefault(parse, e.requestTimeout, 30 * Second)
  }

  /** `RulesConfig.GetDefaultQuietPeriod`: 5 min unless the setting is present and parses. */
  function GetDefaultQuietPeriod(r: RulesConfig, parse: DurationParser): (d: Duration)
    ensures r.defaultQuietPeriod == [] || parse(r.defaultQuietPeriod).None? ==> d == 5 * Minute
    ensures r.defaultQuietPeriod != [] && parse(r.defaultQuietPeriod).Some? ==> d == parse(r.defaultQuietPeriod).value
  {
    ParseDurationDefault(parse, r.defaultQuietPeriod, 5 * Minute)
  }

  const DefaultSampleSize := 3
  const DefaultTimezone: Bytes := [65, 115, 105, 97, 47, 83, 104, 97, 110, 103, 104, 97, 105]  // "Asia/Shanghai"
  const DefaultProvider: Bytes := [101, 108, 97, 115, 116, 105, 99, 115, 101, 97, 114, 99, 104]  // "elasticsearch"
  const DefaultListen: Bytes := [58, 56, 48, 56, 48]  // ":8080"
  const DefaultLogLevel: Bytes := [73, 78, 70, 79]  // "INFO"

  /** Every setting `Load` fills in has a usable value. */
  predicate HasDefaults(c: Config)
  {
    && c.rules.sampleSize > 0
    && c.scheduler.timezone != []
    && c.elasticsearch.provider != []
    && c.web.listen != []
    && c.logging.level != []
  }

  /** Byte strings that are set are kept; empty ones get `def`. */
  function OrDefault(s: Bytes, def: Bytes): Bytes
  {
    if s == [] then def else s
  }

  /**
   * The defaulting step of `Load` (the `if` statements before the LOG_LEVEL
   * override): a non-positive sample size becomes 3, and an empty timezone,
   * provider, listen address or log level gets its default. Nothing else moves.
   */
  function FillDefaults(c: Config): (d: Config)
    ensures HasDefaults(d)
    ensures c.rules.sampleSize <= 0 ==> d.rules.sampleSize == DefaultSampleSize
    ensures c.rules.sampleSize > 0 ==> d.rules.sampleSize == c.rules.sampleSize
    ensures c.scheduler.timezone == [] ==> d.scheduler.timezone == DefaultTimezone
    ensures c.elasticsearch.provider == [] ==> d.elasticsearch.provider == DefaultProvider
    ensures c.web.listen == [] ==> d.web.listen == DefaultListen
    ensures c.logging.level == [] ==> d.logging.level == DefaultLogLevel
    ensures c.scheduler.timezone != [] ==> d.scheduler.timezone == c.scheduler.timezone
    ensures c.elasticsearch.provider != [] ==> d.elasticsearch.provider == c.elasticsearch.provider
    ensures c.web.listen != [] ==> d.web.listen == c.web.listen
    ensures c.logging.level != [] ==> d.logging.level == c.logging.level
    ensures d.notifications == c.notifications
    ensures d.elasticsearch.(provider := c.elasticsearch.provider) == c.elasticsearch
    ensures d.rules.(sampleSize := c.rules.sampleSize) == c.rules
    ensures d.web.(listen := c.web.listen) == c.web
  {
    c.(rules := c.rules.(sampleSize := if c.rules.sampleSize <= 0 then DefaultSampleSize else c.rules.sampleSize),
       scheduler := c.scheduler.(timezone := OrDefault(c.scheduler.timezone, DefaultTimezone)),
       elasticsearch := c.elasticsearch.(provider := OrDefault(c.elasticsearch.provider, DefaultProvider)),
       web := c.web.(listen := OrDefault(c.web.listen, DefaultListen)),
       logging := c.logging.(level := OrDefault(c.logging.level, DefaultLogLevel)))
  }

  /** A configuration that already has every default is a fixed point of the defaulting step. */
  lemma FillDefaultsFixesDefaulted(c: Config)
    requires HasDefaults(c)
    ensures FillDefaults(c) == c
  {
  }

  /** Filling in defaults twice is the same as filling them in once. */
  lemma FillDefaultsIdempotent(c: Config)
    ensures FillDefaults(FillDefaults(c)) == FillDefaults(c)
  {
    FillDefaultsFixesDefaulted(FillDefaults(c));
  }

  /**
   * `Load` after the file has been read and unmarshalled (`file`), with the
   * value of the LOG_LEVEL environment variable passed in as `logLevelEnv`.
   * The fields of the local `cfg` are overwritten one `if` after another.
   */
  method Load(file: Result<Config, ConfigError>, logLevelEnv: Bytes) returns (r: Result<Config, ConfigError>)
    ensures file.Failure? ==> r == file
    ensures file.Success? ==> r.Success?
    ensures r.Success? ==> HasDefaults(r.value)
    ensures r.Success? && logLevelEnv != [] ==> r.value.logging.level == logLevelEnv
    ensures r.Success? ==> r.value.(logging := file.value.logging) == FillDefaults(file.value).(logging := file.value.logging)
    ensures r.Success? && logLevelEnv == [] ==> r.value == FillDefaults(file.value)
  {
    if file.Failure? {
      return file;
    }
    var cfg := file.value;
    ghost var f := FillDefaults(cfg);
    if cfg.rules.sampleSize <= 0 {
      cfg := cfg.(rules := cfg.rules.(sampleSize := DefaultSampleSize));
    }
    assert cfg == file.value.(rules := f.rules);
    if cfg.scheduler.timezone == [] {
      cfg := cfg.(scheduler := cfg.scheduler.(timezone := DefaultTimezone));
    }
    assert cfg == file.value.(rules := f.rules, scheduler := f.scheduler);
    if cfg.elasticsearch.provider == [] {
      cfg := cfg.(elasticsearch := cfg.elasticsearch.(provider := DefaultProvider));
    }
    assert cfg == file.value.(rules := f.rules, scheduler := f.scheduler, elasticsearch := f.elasticsearch);
    if cfg.web.listen == [] {
      cfg := cfg.(web := cfg.web.(listen := DefaultListen));
    }
    assert cfg == f.(logging := file.value.logging);
    if cfg.logging.level == [] {
      cfg := cfg.(logging := cfg.logging.(level := DefaultLogLevel));
    }
    assert cfg == f;
    if logLevelEnv != [] {
      cfg := cfg.(logging := cfg.logging.(level := logLevelEnv));
    }
    return Success(cfg);
  }
}
