/** The exporter's configuration and its start-up validation (main.go:50-88). */
module Config {
  import opened Wrappers

  datatype Config = Config(
    username: string,
    password: string,
    jwt: string,
    address: string,
    serialNumber: string,
    sourceTag: string,
    influxDB: string,
    influxDBToken: string,
    influxDBOrg: string,
    influxDBBucket: string,
    interval: int,
    expVarPort: int)

  /** The failures Validate can report, one per check. */
  datatype ConfigError =
    | MissingAddress
    | MissingSerial
    | MissingAuth
    | MissingInfluxDB
    | MissingBucket
    | MissingToken
    | MissingOrg
  {
    /** The error text the process prints before exiting. */
    function Message(): string {
      match this
      case MissingAddress => "missing required configuration: address"
      case MissingSerial => "missing required configuration: serial"
      case MissingAuth => "missing Envoy authentication. Add username & password and optionally the JWT token"
      case MissingInfluxDB => "missing required configuration: influxdb"
      case MissingBucket => "missing required configuration: influxdb_bucket"
      case MissingToken => "missing required configuration: influxdb_token"
      case MissingOrg => "missing required configuration: influxdb_org"
    }

    /** The position of this error's check in the validation order. */
    function Rank(): nat {
      match this
      case MissingAddress => 0
      case MissingSerial => 1
      case MissingAuth => 2
      case MissingInfluxDB => 3
      case MissingBucket => 4
      case MissingToken => 5
      case MissingOrg => 6
    }
  }

  /** Whether the check reporting `e` fails on `c`. */
  predicate Fails(c: Config, e: ConfigError) {
    match e
    case MissingAddress => c.address == ""
    case MissingSerial => c.serialNumber == ""
    case MissingAuth => c.username == "" && c.password == "" && c.jwt == ""
    case MissingInfluxDB => c.influxDB == ""
    case MissingBucket => c.influxDBBucket == ""
    case MissingToken => c.influxDBToken == ""
    case MissingOrg => c.influxDBOrg == ""
  }

  /** A configuration the exporter can start with: gateway address and serial
      present, at least one way to authenticate with the gateway, and all four
      database settings present. */
  predicate Valid(c: Config) {
    && |c.address| > 0
    && |c.serialNumber| > 0
    && (|c.username| > 0 || |c.password| > 0 || |c.jwt| > 0)
    && |c.influxDB| > 0
    && |c.influxDBBucket| > 0
    && |c.influxDBToken| > 0
    && |c.influxDBOrg| > 0
  }

  /** Config.Validate: passes exactly on valid configurations and otherwise
      reports the first failing check in order. */
  function Validate(c: Config): (r: Outcome<ConfigError>)
    ensures r.Pass? <==> Valid(c)
    ensures r.Fail? ==> Fails(c, r.error)
    ensures r.Fail? ==> forall e: ConfigError :: e.Rank() < r.error.Rank() ==> !Fails(c, e)
  {
    if c.address == "" then Fail(MissingAddress)
    else if c.serialNumber == "" then Fail(MissingSerial)
    else if (c.username == "" && c.password == "") && c.jwt == "" then Fail(MissingAuth)
    else if c.influxDB == "" then Fail(MissingInfluxDB)
    else if c.influxDBBucket == "" then Fail(MissingBucket)
    else if c.influxDBToken == "" then Fail(MissingToken)
    else if c.influxDBOrg == "" then Fail(MissingOrg)
    else Pass
  }

  /** Validation looks only at the presence of settings: any failing check
      makes the configuration invalid, and a configuration with one setting
      missing fails on that setting's check unless an earlier one fails first. */
  lemma ValidateReportsSomeFailure(c: Config, e: ConfigError)
    requires Fails(c, e)
    ensures Validate(c).Fail?
    ensures Validate(c).error.Rank() <= e.Rank()
  {
  }

  /** Username alone, password alone or a token alone each satisfy the
      authentication check. */
  lemma AnyOneCredentialSuffices(c: Config)
    requires c.username != "" || c.password != "" || c.jwt != ""
    ensures !Fails(c, MissingAuth)
    ensures Validate(c).Fail? ==> Validate(c).error != MissingAuth
  {
  }

  /** The six configurations of the validation table test: the two complete
      ones pass and each one missing a setting fails on that setting, with
      the message naming it. */
  lemma ValidateTestCases()
    ensures Validate(Config("user", "", "", "http://localhost", "12345", "", "http://influx", "token", "org", "bucket", 0, 0)).Pass?
    ensures Validate(Config("", "", "token", "http://localhost", "12345", "", "http://influx", "token", "org", "bucket", 0, 0)).Pass?
    ensures Validate(Config("user", "", "", "", "12345", "", "http://influx", "token", "org", "bucket", 0, 0)) == Fail(MissingAddress)
    ensures Validate(Config("user", "", "", "http://localhost", "", "", "http://influx", "token", "org", "bucket", 0, 0)) == Fail(MissingSerial)
    ensures Validate(Config("", "", "", "http://localhost", "12345", "", "http://influx", "token", "org", "bucket", 0, 0)) == Fail(MissingAuth)
    ensures Validate(Config("user", "", "", "http://localhost", "12345", "", "", "token", "org", "bucket", 0, 0)) == Fail(MissingInfluxDB)
    ensures Validate(Config("user", "", "", "", "12345", "", "http://influx", "token", "org", "bucket", 0, 0)).error.Message()
            == "missing required configuration: address"
    ensures Validate(Config("user", "", "", "http://localhost", "", "", "http://influx", "token", "org", "bucket", 0, 0)).error.Message()
            == "missing required configuration: serial"
    ensures Validate(Config("user", "", "", "http://localhost", "12345", "", "", "token", "org", "bucket", 0, 0)).error.Message()
            == "missing required configuration: influxdb"
  {
  }

  // ---------------------------------------------------------------------------
  // The scrape interval

  const TwoTo63: int := 0x8000_0000_0000_0000
  const TwoTo64: int := 0x1_0000_0000_0000_0000

  /** One second in Go's `time.Duration` unit, the nanosecond. */
  const NanosPerSecond: int := 1_000_000_000

  /** The largest whole number of seconds a `time.Duration` can hold. */
  const MaxIntervalSeconds: int := 9_223_372_036

  /** Go's 64-bit signed integer arithmetic: the two's-complement value of
      the low 64 bits of `x`. */
  function Wrap64(x: int): (r: int)
    ensures -TwoTo63 <= r < TwoTo63
    ensures (x - r) % TwoTo64 == 0
    ensures -TwoTo63 <= x < TwoTo63 ==> r == x
  {
    var low := x % TwoTo64;
    if low < TwoTo63 then low else low - TwoTo64
  }

  /** The ticker period, in nanoseconds, the scrape loop is started with:
      the configured interval as it stands after decoding, converted to a
      duration and multiplied by one second in 64-bit arithmetic
      (main.go:211). Go's ticker panics on any period that is not positive. */
  function TickerPeriod(c: Config): int {
    Wrap64(Wrap64(c.interval) * NanosPerSecond)
  }

  /** As written, validation passes a configuration whose interval is 0, so a
      file saying `interval: 0` reaches the ticker with a period it refuses. */
  lemma ValidateAdmitsZeroInterval()
    ensures var c := Config("user", "", "", "http://localhost", "12345", "", "http://influx", "token", "org", "bucket", 0, 0);
      Validate(c).Pass? && TickerPeriod(c) <= 0
  {
  }

  /** As written, a positive interval too large for a duration also passes
      validation, and the multiplication by one second wraps to a negative
      period. */
  lemma ValidateAdmitsOverflowingInterval()
    ensures var c := Config("user", "", "", "http://localhost", "12345", "", "http://influx", "token", "org", "bucket", MaxIntervalSeconds + 1, 0);
      Validate(c).Pass? && c.interval > 0 && TickerPeriod(c) < 0
  {
  }

  /** Corrected: the interval the exporter evidently means to scrape at, the
      configured one when a ticker can run at it and otherwise the default of
      5 seconds. Its period in nanoseconds never wraps and is positive. */
  function EffectiveInterval(c: Config): (seconds: int)
    ensures 0 < seconds <= MaxIntervalSeconds
    ensures 0 < c.interval <= MaxIntervalSeconds ==> seconds == c.interval
    ensures !(0 < c.interval <= MaxIntervalSeconds) ==> seconds == 5
    ensures 0 < Wrap64(seconds * NanosPerSecond) == seconds * NanosPerSecond
  {
    if 0 < c.interval <= MaxIntervalSeconds then c.interval else 5
  }

  /** The as-written period is positive and exact for exactly the intervals
      the correction keeps, so the correction changes nothing a working
      configuration relies on. */
  lemma CorrectionKeepsWorkingIntervals(c: Config)
    requires 0 < c.interval <= MaxIntervalSeconds
    ensures TickerPeriod(c) == c.interval * NanosPerSecond > 0
    ensures TickerPeriod(c) == EffectiveInterval(c) * NanosPerSecond
  {
  }
}
