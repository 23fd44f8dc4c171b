/**
 * Configuration read from the process environment (server/components/Environment.js), together
 * with the JavaScript number conversions the servers rely on: `parseInt(value, 10)` and the
 * implicit string-to-number conversion of `value * n`.
 */
module Env {
  import opened Wrappers

  /** The process environment, `process.env`: variable name to value. */
  type Environment = map<string, string>

  /** A JavaScript number as the conversions below can produce it: NaN or an integer. */
  datatype Num = NaN | Int(value: int)

  function Lookup(env: Environment, name: string): Option<string>
  {
    if name in env then Some(env[name]) else None
  }

  /** JavaScript falsiness of an environment value: `undefined` or the empty string. */
  predicate Falsy(v: Option<string>)
  {
    v == None || v == Some("")
  }

  predicate IsDigit(c: char)
  {
    '0' <= c <= '9'
  }

  function DigitValue(c: char): nat
    requires IsDigit(c)
  {
    c as int - '0' as int
  }

  function DigitChar(d: nat): (c: char)
    requires d < 10
    ensures IsDigit(c) && DigitValue(c) == d
  {
    ('0' as int + d) as char
  }

  /** The white space `parseInt` skips before the number (the StrWhiteSpaceChar of ECMAScript). */
  predicate IsJsSpace(c: char)
  {
    c == '\t' || c == '\n' || c == '\U{000B}' || c == '\U{000C}' || c == '\r' || c == ' '
    || c == '\U{00A0}' || c == '\U{1680}' || ('\U{2000}' <= c <= '\U{200A}')
    || c == '\U{2028}' || c == '\U{2029}' || c == '\U{202F}' || c == '\U{205F}'
    || c == '\U{3000}' || c == '\U{FEFF}'
  }

  /** The decimal text of a natural number, as `String(n)` writes it. */
  function DecimalText(n: nat): (s: string)
    ensures |s| >= 1
    ensures forall i :: 0 <= i < |s| ==> IsDigit(s[i])
    decreases n
  {
    if n < 10 then [DigitChar(n)] else DecimalText(n / 10) + [DigitChar(n % 10)]
  }

  function TrimStart(s: string): string
  {
    if s != [] && IsJsSpace(s[0]) then TrimStart(s[1..]) else s
  }

  /** The longest prefix of `s` made of decimal digits. */
  function LeadingDigits(s: string): (ds: string)
    ensures |ds| <= |s| && ds == s[..|ds|]
    ensures forall i :: 0 <= i < |ds| ==> IsDigit(ds[i])
    ensures |ds| < |s| ==> !IsDigit(s[|ds|])
  {
    if s != [] && IsDigit(s[0]) then [s[0]] + LeadingDigits(s[1..]) else []
  }

  /** The value of a string of decimal digits, most significant first. */
  function DigitsValue(ds: string): nat
    requires forall i :: 0 <= i < |ds| ==> IsDigit(ds[i])
  {
    if ds == [] then 0 else DigitsValue(ds[..|ds| - 1]) * 10 + DigitValue(ds[|ds| - 1])
  }

  /**
   * `parseInt(s, 10)`: skip leading white space, read an optional sign, then the longest run of
   * decimal digits; NaN when there is none. Whatever follows the digits is ignored.
   */
  function ParseInt(s: string): Num
  {
    var t := TrimStart(s);
    var negative := t != [] && t[0] == '-';
    var unsigned := if t != [] && (t[0] == '-' || t[0] == '+') then t[1..] else t;
    var ds := LeadingDigits(unsigned);
    if ds == [] then NaN
    else if negative then Int(-(DigitsValue(ds) as int))
    else Int(DigitsValue(ds))
  }

  /**
   * The implicit conversion of a string to a number (`value * 3600`), for the forms the model
   * knows: a non-empty run of decimal digits; every other text is NaN here.
   */
  function ToNumber(s: string): Num
  {
    if s != [] && forall i :: 0 <= i < |s| ==> IsDigit(s[i]) then Int(DigitsValue(s)) else NaN
  }

  /** `_parseIntOrDefault(value, defaultValue)`: the default for a falsy value, else parseInt. */
  function ParseIntOrDefault(value: Option<string>, default: int): Num
  {
    if Falsy(value) then Int(default) else ParseInt(value.value)
  }

  lemma {:induction false} DigitsValueOfDecimalText(n: nat)
    ensures DigitsValue(DecimalText(n)) == n
    decreases n
  {
    if n >= 10 {
      var prefix := DecimalText(n / 10);
      var s := prefix + [DigitChar(n % 10)];
      assert s[..|s| - 1] == prefix;
      DigitsValueOfDecimalText(n / 10);
    }
  }

  lemma {:induction false} LeadingDigitsOfDigits(ds: string, rest: string)
    requires forall i :: 0 <= i < |ds| ==> IsDigit(ds[i])
    requires rest == [] || !IsDigit(rest[0])
    ensures LeadingDigits(ds + rest) == ds
  {
    if ds != [] {
      assert (ds + rest)[1..] == ds[1..] + rest;
      LeadingDigitsOfDigits(ds[1..], rest);
    }
  }

  /** parseInt reads back the decimal text of a number, and stops at the first non-digit. */
  lemma ParseIntDecimalPrefix(n: nat, rest: string)
    requires rest == [] || !IsDigit(rest[0])
    ensures ParseInt(DecimalText(n) + rest) == Int(n)
    ensures ParseInt("-" + DecimalText(n) + rest) == Int(-(n as int))
  {
    var s := DecimalText(n);
    LeadingDigitsOfDigits(s, rest);
    DigitsValueOfDecimalText(n);
    assert ("-" + s + rest)[1..] == s + rest;
  }

  /** ToNumber reads back the decimal text of a number. */
  lemma ToNumberDecimal(n: nat)
    ensures ToNumber(DecimalText(n)) == Int(n)
  {
    DigitsValueOfDecimalText(n);
  }

  /** Unlike `value || default`, `_parseIntOrDefault` keeps an explicit "0". */
  lemma ParseIntOrDefaultKeepsZero(default: int)
    ensures ParseIntOrDefault(Some("0"), default) == Int(0)
  {
    ParseIntDecimalPrefix(0, "");
  }

  /** The object Environment.js exports (field names follow the exported keys). */
  datatype Config = Config(
    isDevelopment: bool,
    port: Num,
    nodeEnv: Option<string>,
    logLevel: string,
    turnSecrets: Option<string>,
    hoursTurnCredentialValid: Option<string>,
    stunUrls: Option<string>,
    turnUrls: Option<string>,
    maxLocalClientCount: Num,
    maxLocalClientHttpBufSize: Num,
    localClientPingInterval: Num,
    localClientTimeoutMillis: Num,
    ticketExpiresIn: Num,
    maxRemoteClientCount: Num,
    maxRemoteClientHttpBufSize: Num,
    remoteClientTimeoutMillis: Num,
    remoteClientPingInterval: Num,
    remoteClientSuspendCloseMillis: Num,
    startKeyTimeoutCheckInterval: Num,
    startKeyTimeoutMillis: Num,
    storageProjectId: Option<string>,
    storageKeyPath: Option<string>)

  function Load(env: Environment): Config
  {
    var nodeEnv := Lookup(env, "NODE_ENV");
    var logLevel := Lookup(env, "LOG_LEVEL");
    Config(
      nodeEnv == Some("development"),
      ParseIntOrDefault(Lookup(env, "PORT"), 8080),
      nodeEnv,
      if Falsy(logLevel) then "info" else logLevel.value,
      Lookup(env, "TURN_SECRETS"),
      Lookup(env, "HOURS_TURN_CREDENTIAL_VALID"),
      Lookup(env, "STUN_URLS"),
      Lookup(env, "TURN_URLS"),
      ParseIntOrDefault(Lookup(env, "MAX_REMOTE_CLIENT_COUNT"), 1000),
      ParseIntOrDefault(Lookup(env, "MAX_HTTP_BUF_SIZE"), 1024 * 1024),
      ParseIntOrDefault(Lookup(env, "LOCAL_CLIENT_PING_INTERVAL"), 5 * 1000),
      ParseIntOrDefault(Lookup(env, "LOCAL_CLIENT_TIMEOUT_MILLIS"), 10 * 1000),
      ParseIntOrDefault(Lookup(env, "TICKET_EXPIRES_IN"), 10 * 1000),
      ParseIntOrDefault(Lookup(env, "MAX_REMOTE_CLIENT_COUNT"), 1000),
      ParseIntOrDefault(Lookup(env, "MAX_HTTP_BUF_SIZE"), 1024 * 1024),
      ParseIntOrDefault(Lookup(env, "REMOTE_CLIENT_TIMEOUT_MILLIS"), 10 * 1000),
      ParseIntOrDefault(Lookup(env, "REMOTE_CLIENT_PING_INTERVAL"), 3 * 1000),
      ParseIntOrDefault(Lookup(env, "REMOTE_CLIENT_SUSPEND_CLOSE_MILLIS"), 5 * 1000),
      ParseIntOrDefault(Lookup(env, "START_KEY_TIMEOUT_CHECK_INTERVAL"), 10 * 1000),
      ParseIntOrDefault(Lookup(env, "START_KEY_TIMEOUT_MILLIS"), 5 * 60 * 1000),
      Lookup(env, "STORAGE_PROJEDT_ID"),
      Lookup(env, "STORAGE_KEY_PATH"))
  }

  /** The string-valued exports, by name; a name Environment.js does not export is undefined. */
  function Export(c: Config, name: string): Option<string>
  {
    match name
    case "NODE_ENV" => c.nodeEnv
    case "LOG_LEVEL" => Some(c.logLevel)
    case "TURN_SECRETS" => c.turnSecrets
    case "HOURS_TURN_CREDENTIAL_VALID" => c.hoursTurnCredentialValid
    case "STUN_URLS" => c.stunUrls
    case "TURN_URLS" => c.turnUrls
    case "STORAGE_PROJEDT_ID" => c.storageProjectId
    case "STORAGE_KEY_PATH" => c.storageKeyPath
    case _ => None
  }

  /** isDevelopment holds exactly when NODE_ENV is the text "development". */
  lemma LoadIsDevelopment(env: Environment)
    ensures Load(env).isDevelopment <==> ("NODE_ENV" in env && env["NODE_ENV"] == "development")
  {
  }

  /** The local and the remote limits read the same variables, so they always agree. */
  lemma LoadLimitsAgree(env: Environment)
    ensures Load(env).maxLocalClientCount == Load(env).maxRemoteClientCount
    ensures Load(env).maxLocalClientHttpBufSize == Load(env).maxRemoteClientHttpBufSize
  {
  }

  /** With nothing set, every setting takes its default. */
  lemma LoadDefaults()
    ensures var c := Load(map[]);
      && !c.isDevelopment && c.port == Int(8080) && c.logLevel == "info"
      && c.maxLocalClientCount == Int(1000) && c.maxLocalClientHttpBufSize == Int(1048576)
      && c.localClientPingInterval == Int(5000) && c.localClientTimeoutMillis == Int(10000)
      && c.ticketExpiresIn == Int(10000) && c.remoteClientTimeoutMillis == Int(10000)
      && c.remoteClientPingInterval == Int(3000) && c.remoteClientSuspendCloseMillis == Int(5000)
      && c.startKeyTimeoutCheckInterval == Int(10000) && c.startKeyTimeoutMillis == Int(300000)
      && c.turnSecrets == None && c.stunUrls == None && c.turnUrls == None
  {
  }

  /** A port given in decimal is read as that number; TURN settings pass through unparsed. */
  lemma LoadReadsValues(env: Environment, port: nat)
    requires "PORT" in env && env["PORT"] == DecimalText(port)
    ensures Load(env).port == Int(port)
    ensures Load(env).turnSecrets == Lookup(env, "TURN_SECRETS")
    ensures Load(env).hoursTurnCredentialValid == Lookup(env, "HOURS_TURN_CREDENTIAL_VALID")
  {
    ParseIntDecimalPrefix(port, "");
    assert DecimalText(port) + "" == DecimalText(port);
  }
}
