/**
 * Configuration loading (grid_trading/config/loader.py).
 *
 * The YAML file arrives here already read, as a dictionary of sections, each a
 * dictionary of scalar values. Non-empty `EXCHANGE_API_KEY` and
 * `EXCHANGE_API_SECRET` environment values replace the file's credentials;
 * then the root model is built, which checks the field types, fills in the
 * defaults, runs the two grid validators and reports every failing field.
 */
module ConfigLoader {
  import opened Wrappers

  /** A scalar as YAML delivers it. */
  datatype Value = Str(s: string) | Integer(i: int) | Number(r: real) | Boolean(b: bool) | Null

  type Section = map<string, Value>
  type ConfigDict = map<string, Section>

  datatype ExchangeConfig = ExchangeConfig(apiKey: string, apiSecret: string, baseUrl: string, rateLimit: int)

  datatype GridConfig = GridConfig(
    tradingPair: string,
    gridSize: int,
    gridSpread: real,
    baseOrderSize: real,
    checkInterval: int)

  datatype DatabaseConfig = DatabaseConfig(path: string, poolSize: int)

  datatype Config = Config(exchange: ExchangeConfig, grid: GridConfig, database: DatabaseConfig)

  datatype ErrorKind = Missing | WrongType | Invalid(message: string)

  /** One entry of a validation error: where (section, then field) and what. */
  datatype FieldError = FieldError(loc: seq<string>, kind: ErrorKind)

  datatype LoadError =
    | KeyError(key: string)                      // an override hit a file without an `exchange` section
    | ValidationError(errors: seq<FieldError>)   // building the model failed

  type Parsed<T> = Result<T, seq<FieldError>>

  const DefaultRateLimit: int := 30
  const DefaultCheckInterval: int := 60
  const DefaultPoolSize: int := 5

  const GridSizeMessage: string := "grid_size must be at least 2"
  const GridSpreadMessage: string := "grid_spread must be between 0 and 1"

  /** `GridConfig.validate_grid_size`. */
  function ValidateGridSize(v: int): (r: Result<int, string>)
    ensures r.Success? <==> 2 <= v
    ensures r.Success? ==> r.value == v
    ensures r.Failure? ==> r.error == GridSizeMessage
  {
    if v < 2 then Failure(GridSizeMessage) else Success(v)
  }

  /** `GridConfig.validate_grid_spread`: both ends of the interval are excluded. */
  function ValidateGridSpread(v: real): (r: Result<real, string>)
    ensures r.Success? <==> 0.0 < v < 1.0
    ensures r.Success? ==> r.value == v
    ensures r.Failure? ==> r.error == GridSpreadMessage
  {
    if !(0.0 < v < 1.0) then Failure(GridSpreadMessage) else Success(v)
  }

  function Errors<T>(r: Parsed<T>): seq<FieldError> {
    if r.Failure? then r.error else []
  }

  /** The section holds `name` as a string. */
  predicate HasStr(sec: Section, name: string) {
    name in sec && sec[name].Str?
  }

  /** The section holds `name` as a number pydantic accepts for a `float`: a float or an integer. */
  predicate HasNumber(sec: Section, name: string) {
    name in sec && (sec[name].Number? || sec[name].Integer?)
  }

  /** The `float` value of a numeric field, an integer widened. */
  function NumberAt(sec: Section, name: string): real
    requires HasNumber(sec, name)
  {
    if sec[name].Number? then sec[name].r else sec[name].i as real
  }

  /** An optional `int` field is either omitted or an integer. */
  predicate OptionalInt(sec: Section, name: string) {
    name !in sec || sec[name].Integer?
  }

  /** The value of an optional `int` field, or its default when omitted. */
  function IntOr(sec: Section, name: string, default: int): int
    requires OptionalInt(sec, name)
  {
    if name in sec then sec[name].i else default
  }

  /** A required `str` field. */
  function StrField(sec: Section, section: string, name: string): (r: Parsed<string>)
    ensures r.Success? <==> HasStr(sec, name)
    ensures r.Success? ==> r.value == sec[name].s
    ensures r.Failure? ==> r.error == [FieldError([section, name], if name in sec then WrongType else Missing)]
  {
    if name !in sec then Failure([FieldError([section, name], Missing)])
    else if sec[name].Str? then Success(sec[name].s)
    else Failure([FieldError([section, name], WrongType)])
  }

  /** An `int` field, required when `default` is `None`. */
  function IntField(sec: Section, section: string, name: string, default: Option<int>): (r: Parsed<int>)
    ensures name !in sec ==> (r.Success? <==> default.Some?) && (r.Success? ==> r.value == default.value)
    ensures name in sec ==> (r.Success? <==> sec[name].Integer?) && (r.Success? ==> r.value == sec[name].i)
    ensures r.Failure? ==> r.error == [FieldError([section, name], if name in sec then WrongType else Missing)]
  {
    if name !in sec then
      match default
      case Some(d) => Success(d)
      case None => Failure([FieldError([section, name], Missing)])
    else if sec[name].Integer? then Success(sec[name].i)
    else Failure([FieldError([section, name], WrongType)])
  }

  /** A required `float` field; an integer is widened. */
  function FloatField(sec: Section, section: string, name: string): (r: Parsed<real>)
    ensures r.Success? <==> HasNumber(sec, name)
    ensures r.Success? ==> r.value == NumberAt(sec, name)
    ensures r.Failure? ==> r.error == [FieldError([section, name], if name in sec then WrongType else Missing)]
  {
    if name !in sec then Failure([FieldError([section, name], Missing)])
    else match sec[name]
      case Number(x) => Success(x)
      case Integer(n) => Success(n as real)
      case _ => Failure([FieldError([section, name], WrongType)])
  }

  /** `grid_size`: an `int`, then `validate_grid_size`. */
  function GridSizeField(sec: Section): (r: Parsed<int>)
    ensures r.Success? <==> "grid_size" in sec && sec["grid_size"].Integer? && 2 <= sec["grid_size"].i
    ensures r.Success? ==> r.value == sec["grid_size"].i
    ensures r.Failure? ==> r.error != []
    ensures "grid_size" in sec && sec["grid_size"].Integer? && sec["grid_size"].i < 2 ==>
      r == Failure([FieldError(["grid", "grid_size"], Invalid(GridSizeMessage))])
  {
    var size := IntField(sec, "grid", "grid_size", None);
    if size.Failure? then size
    else match ValidateGridSize(size.value)
      case Success(v) => Success(v)
      case Failure(message) => Failure([FieldError(["grid", "grid_size"], Invalid(message))])
  }

  /** `grid_spread`: a `float`, then `validate_grid_spread`. */
  function GridSpreadField(sec: Section): (r: Parsed<real>)
    ensures r.Success? <==> HasNumber(sec, "grid_spread") && 0.0 < NumberAt(sec, "grid_spread") < 1.0
    ensures r.Success? ==> r.value == NumberAt(sec, "grid_spread")
    ensures r.Failure? ==> r.error != []
    ensures HasNumber(sec, "grid_spread") && !(0.0 < NumberAt(sec, "grid_spread") < 1.0) ==>
      r == Failure([FieldError(["grid", "grid_spread"], Invalid(GridSpreadMessage))])
  {
    var spread := FloatField(sec, "grid", "grid_spread");
    if spread.Failure? then spread
    else match ValidateGridSpread(spread.value)
      case Success(v) => Success(v)
      case Failure(message) => Failure([FieldError(["grid", "grid_spread"], Invalid(message))])
  }

  /**
   * `ExchangeConfig`: built exactly when the three strings are there and a given
   * `rate_limit` is an integer, from the section's own values; `rate_limit`
   * defaults to 30. Otherwise every failing field is reported.
   */
  function ParseExchange(sec: Section): (r: Parsed<ExchangeConfig>)
    ensures r.Success? <==>
      && HasStr(sec, "api_key") && HasStr(sec, "api_secret") && HasStr(sec, "base_url")
      && OptionalInt(sec, "rate_limit")
    ensures r.Success? ==> r.value == ExchangeConfig(
      sec["api_key"].s, sec["api_secret"].s, sec["base_url"].s, IntOr(sec, "rate_limit", DefaultRateLimit))
    ensures r.Failure? ==> r.error != []
  {
    var apiKey := StrField(sec, "exchange", "api_key");
    var apiSecret := StrField(sec, "exchange", "api_secret");
    var baseUrl := StrField(sec, "exchange", "base_url");
    var rateLimit := IntField(sec, "exchange", "rate_limit", Some(DefaultRateLimit));
    var errors := Errors(apiKey) + Errors(apiSecret) + Errors(baseUrl) + Errors(rateLimit);
    if errors != [] then Failure(errors)
    else Success(ExchangeConfig(apiKey.value, apiSecret.value, baseUrl.value, rateLimit.value))
  }

  /**
   * `GridConfig`: built exactly when every field has its type and both
   * validators pass, from the section's own values; `check_interval` defaults
   * to 60.
   */
  function ParseGrid(sec: Section): (r: Parsed<GridConfig>)
    ensures r.Success? <==>
      && HasStr(sec, "trading_pair")
      && "grid_size" in sec && sec["grid_size"].Integer? && 2 <= sec["grid_size"].i
      && HasNumber(sec, "grid_spread") && 0.0 < NumberAt(sec, "grid_spread") < 1.0
      && HasNumber(sec, "base_order_size")
      && OptionalInt(sec, "check_interval")
    ensures r.Success? ==> r.value == GridConfig(
      sec["trading_pair"].s, sec["grid_size"].i, NumberAt(sec, "grid_spread"),
      NumberAt(sec, "base_order_size"), IntOr(sec, "check_interval", DefaultCheckInterval))
    ensures r.Failure? ==> r.error != []
  {
    var tradingPair := StrField(sec, "grid", "trading_pair");
    var gridSize := GridSizeField(sec);
    var gridSpread := GridSpreadField(sec);
    var baseOrderSize := FloatField(sec, "grid", "base_order_size");
    var checkInterval := IntField(sec, "grid", "check_interval", Some(DefaultCheckInterval));
    var errors := Errors(tradingPair) + Errors(gridSize) + Errors(gridSpread) + Errors(baseOrderSize) + Errors(checkInterval);
    if errors != [] then Failure(errors)
    else Success(GridConfig(tradingPair.value, gridSize.value, gridSpread.value, baseOrderSize.value, checkInterval.value))
  }

  /**
   * `DatabaseConfig`: built exactly when `path` is a string and a given
   * `pool_size` is an integer; `pool_size` defaults to 5.
   */
  function ParseDatabase(sec: Section): (r: Parsed<DatabaseConfig>)
    ensures r.Success? <==> HasStr(sec, "path") && OptionalInt(sec, "pool_size")
    ensures r.Success? ==> r.value == DatabaseConfig(sec["path"].s, IntOr(sec, "pool_size", DefaultPoolSize))
    ensures r.Failure? ==> r.error != []
  {
    var path := StrField(sec, "database", "path");
    var poolSize := IntField(sec, "database", "pool_size", Some(DefaultPoolSize));
    var errors := Errors(path) + Errors(poolSize);
    if errors != [] then Failure(errors)
    else Success(DatabaseConfig(path.value, poolSize.value))
  }

  /** A section the root model needs; a missing one is a single error at its name. */
  function SectionErrors<T>(d: ConfigDict, name: string, parsed: Parsed<T>): seq<FieldError> {
    if name in d then Errors(parsed) else [FieldError([name], Missing)]
  }

  /** `Config(**config_dict)`: every failing field of every section is reported. */
  function ParseConfig(d: ConfigDict): (r: Parsed<Config>)
    ensures r.Success? <==>
      && "exchange" in d && ParseExchange(d["exchange"]).Success?
      && "grid" in d && ParseGrid(d["grid"]).Success?
      && "database" in d && ParseDatabase(d["database"]).Success?
    ensures r.Success? ==> r.value == Config(
      ParseExchange(d["exchange"]).value, ParseGrid(d["grid"]).value, ParseDatabase(d["database"]).value)
  {
    var exchange := if "exchange" in d then ParseExchange(d["exchange"]) else Failure([]);
    var grid := if "grid" in d then ParseGrid(d["grid"]) else Failure([]);
    var database := if "database" in d then ParseDatabase(d["database"]) else Failure([]);
    var errors := SectionErrors(d, "exchange", exchange) + SectionErrors(d, "grid", grid)
      + SectionErrors(d, "database", database);
    if errors != [] then Failure(errors)
    else Success(Config(exchange.value, grid.value, database.value))
  }

  /** Python truthiness of an environment lookup: unset and empty are both false. */
  predicate Truthy(env: Option<string>) {
    env.Some? && env.value != ""
  }

  /** `config_dict['exchange'][field] = value` when the environment value is truthy. */
  function OverrideField(d: ConfigDict, field: string, env: Option<string>): Result<ConfigDict, LoadError> {
    if !Truthy(env) then Success(d)
    else if "exchange" !in d then Failure(KeyError("exchange"))
    else Success(d["exchange" := d["exchange"][field := Str(env.value)]])
  }

  /**
   * The environment override step: a truthy `EXCHANGE_API_KEY` replaces
   * `exchange.api_key`, a truthy `EXCHANGE_API_SECRET` replaces
   * `exchange.api_secret`, and nothing else changes.
   */
  function OverrideCredentials(d: ConfigDict, apiKeyEnv: Option<string>, apiSecretEnv: Option<string>)
    : (r: Result<ConfigDict, LoadError>)
    ensures r.Failure? <==> (Truthy(apiKeyEnv) || Truthy(apiSecretEnv)) && "exchange" !in d
    ensures r.Failure? ==> r.error == KeyError("exchange")
    ensures r.Success? ==> r.value.Keys == d.Keys
    ensures r.Success? ==> forall name :: name in d && name != "exchange" ==> r.value[name] == d[name]
    ensures r.Success? && "exchange" in d ==>
      && r.value["exchange"].Keys == d["exchange"].Keys
           + (if Truthy(apiKeyEnv) then {"api_key"} else {})
           + (if Truthy(apiSecretEnv) then {"api_secret"} else {})
      && (forall field :: field in d["exchange"] && field != "api_key" && field != "api_secret" ==>
           r.value["exchange"][field] == d["exchange"][field])
      && (Truthy(apiKeyEnv) ==> r.value["exchange"]["api_key"] == Str(apiKeyEnv.value))
      && (!Truthy(apiKeyEnv) && "api_key" in d["exchange"] ==> r.value["exchange"]["api_key"] == d["exchange"]["api_key"])
      && (Truthy(apiSecretEnv) ==> r.value["exchange"]["api_secret"] == Str(apiSecretEnv.value))
      && (!Truthy(apiSecretEnv) && "api_secret" in d["exchange"] ==> r.value["exchange"]["api_secret"] == d["exchange"]["api_secret"])
  {
    var withKey :- OverrideField(d, "api_key", apiKeyEnv);
    OverrideField(withKey, "api_secret", apiSecretEnv)
  }

  /**
   * `load_config` after the file has been read: override the credentials, then
   * build the model. A needed override without an `exchange` section raises
   * `KeyError`; otherwise the result is the root model of the overridden
   * dictionary, and a rejection carries every failing field.
   */
  function LoadConfig(file: ConfigDict, apiKeyEnv: Option<string>, apiSecretEnv: Option<string>)
    : (r: Result<Config, LoadError>)
    ensures (Truthy(apiKeyEnv) || Truthy(apiSecretEnv)) && "exchange" !in file ==> r == Failure(KeyError("exchange"))
    ensures r.Failure? && r.error.KeyError? ==> "exchange" !in file && (Truthy(apiKeyEnv) || Truthy(apiSecretEnv))
    ensures OverrideCredentials(file, apiKeyEnv, apiSecretEnv).Success? ==>
      && (r.Success? <==> ParseConfig(OverrideCredentials(file, apiKeyEnv, apiSecretEnv).value).Success?)
      && (r.Success? ==> r.value == ParseConfig(OverrideCredentials(file, apiKeyEnv, apiSecretEnv).value).value)
      && (r.Failure? ==> r.error == ValidationError(ParseConfig(OverrideCredentials(file, apiKeyEnv, apiSecretEnv).value).error))
    ensures r.Failure? && r.error.ValidationError? ==> r.error.errors != []
  {
    var d :- OverrideCredentials(file, apiKeyEnv, apiSecretEnv);
    match ParseConfig(d)
    case Success(config) => Success(config)
    case Failure(errors) => Failure(ValidationError(errors))
  }

  /** A truthy environment value wins over the file; otherwise the file's credential is kept. */
  lemma LoadedCredentials(file: ConfigDict, apiKeyEnv: Option<string>, apiSecretEnv: Option<string>)
    requires LoadConfig(file, apiKeyEnv, apiSecretEnv).Success?
    ensures var c := LoadConfig(file, apiKeyEnv, apiSecretEnv).value.exchange;
      && (if Truthy(apiKeyEnv) then c.apiKey == apiKeyEnv.value else file["exchange"]["api_key"] == Str(c.apiKey))
      && (if Truthy(apiSecretEnv) then c.apiSecret == apiSecretEnv.value else file["exchange"]["api_secret"] == Str(c.apiSecret))
  {
  }

  /** A loaded configuration always satisfies both grid validators. */
  lemma LoadedGridIsValid(file: ConfigDict, apiKeyEnv: Option<string>, apiSecretEnv: Option<string>)
    requires LoadConfig(file, apiKeyEnv, apiSecretEnv).Success?
    ensures var g := LoadConfig(file, apiKeyEnv, apiSecretEnv).value.grid;
      2 <= g.gridSize && 0.0 < g.gridSpread < 1.0
  {
  }

  /** Omitted optional fields take their defaults: 30 requests, 60 seconds, a pool of 5. */
  lemma LoadedDefaults(file: ConfigDict, apiKeyEnv: Option<string>, apiSecretEnv: Option<string>)
    requires LoadConfig(file, apiKeyEnv, apiSecretEnv).Success?
    ensures var c := LoadConfig(file, apiKeyEnv, apiSecretEnv).value;
      && ("rate_limit" !in file["exchange"] ==> c.exchange.rateLimit == 30)
      && ("check_interval" !in file["grid"] ==> c.grid.checkInterval == 60)
      && ("pool_size" !in file["database"] ==> c.database.poolSize == 5)
  {
  }

  /** A grid size below 2 in the file always fails, and the error names the field. */
  lemma SmallGridSizeRejected(file: ConfigDict, apiKeyEnv: Option<string>, apiSecretEnv: Option<string>)
    requires "grid" in file && "grid_size" in file["grid"]
    requires file["grid"]["grid_size"].Integer? && file["grid"]["grid_size"].i < 2
    ensures var r := LoadConfig(file, apiKeyEnv, apiSecretEnv);
      r.Failure? && (r.error.ValidationError? ==>
        FieldError(["grid", "grid_size"], Invalid(GridSizeMessage)) in r.error.errors)
  {
  }
}
