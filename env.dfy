/** Configuration resolution (src/server/config/env.ts): the environment map
    and the working directory become an immutable configuration value. */
module Env {
  import opened Wrappers
  import Platform

  /** A number as `parseInt` produces it: an integer, or NaN when the text
      holds no digits where digits are expected. */
  datatype IntOrNaN = Int(value: int) | NaN

  datatype Config = Config(port: IntOrNaN, isDevelopment: bool, xmlFilesPath: string)

  /** The schema failure reported while the configuration is built: `NODE_ENV`
      holds a value outside the accepted enumeration. */
  datatype ConfigError = InvalidNodeEnv(received: string)

  const DefaultPort := "3000"
  const DefaultNodeEnv := "development"
  const NodeEnvs: set<string> := {"development", "production"}

  /** `env.PORT` after the schema: the given text, or the default when unset. */
  function PortText(env: map<string, string>): string {
    if "PORT" in env then env["PORT"] else DefaultPort
  }

  /** `env.NODE_ENV` after the schema: the default when unset, the value when it
      is one of the accepted modes, a failure otherwise. */
  function ResolveNodeEnv(env: map<string, string>): (r: Result<string, ConfigError>)
    ensures r.Ok? ==> r.value in NodeEnvs
    ensures r.Ok? <==> "NODE_ENV" !in env || env["NODE_ENV"] in NodeEnvs
    ensures "NODE_ENV" in env && r.Ok? ==> r.value == env["NODE_ENV"]
    ensures "NODE_ENV" !in env ==> r == Ok(DefaultNodeEnv)
  {
    if "NODE_ENV" !in env then Ok(DefaultNodeEnv)
    else if env["NODE_ENV"] in NodeEnvs then Ok(env["NODE_ENV"])
    else Err(InvalidNodeEnv(env["NODE_ENV"]))
  }

  /** The configuration built from the environment and `process.cwd()`. */
  function LoadConfig(env: map<string, string>, cwd: string): (r: Result<Config, ConfigError>)
    ensures r.Ok? <==> "NODE_ENV" !in env || env["NODE_ENV"] in NodeEnvs
    ensures r.Ok? ==> (r.value.isDevelopment <==> "NODE_ENV" !in env || env["NODE_ENV"] == "development")
    ensures r.Ok? ==> r.value.xmlFilesPath == Platform.Join(cwd, "data")
  {
    var nodeEnv :- ResolveNodeEnv(env);
    Ok(Config(ParseInt10(PortText(env)), nodeEnv == "development", Platform.Join(cwd, "data")))
  }

  /** The characters `parseInt` skips before the number: the ECMAScript
      white space and line terminators. */
  predicate IsJsWhiteSpace(c: char) {
    c in {'\t', '\n', '\U{B}', '\U{C}', '\r', ' ', '\U{A0}', '\U{1680}', '\U{2028}', '\U{2029}',
          '\U{202F}', '\U{205F}', '\U{3000}', '\U{FEFF}'}
    || '\U{2000}' <= c <= '\U{200A}'
  }

  predicate IsDigit(c: char) {
    '0' <= c <= '9'
  }

  function TrimStart(s: string): (r: string)
    ensures r == [] || !IsJsWhiteSpace(r[0])
    ensures |r| <= |s| && r == s[|s| - |r|..]
    ensures forall i | 0 <= i < |s| - |r| :: IsJsWhiteSpace(s[i])
  {
    if s != [] && IsJsWhiteSpace(s[0]) then TrimStart(s[1..]) else s
  }

  /** The longest prefix of `s` made of decimal digits. */
  function DigitPrefix(s: string): (r: string)
    ensures |r| <= |s| && r == s[..|r|]
    ensures forall i | 0 <= i < |r| :: IsDigit(r[i])
    ensures |r| < |s| ==> !IsDigit(s[|r|])
  {
    if s != [] && IsDigit(s[0]) then [s[0]] + DigitPrefix(s[1..]) else []
  }

  /** The value of a string of decimal digits, most significant first. */
  function DigitsValue(ds: string): nat
    requires forall i | 0 <= i < |ds| :: IsDigit(ds[i])
  {
    if ds == [] then 0
    else
      var last := ds[|ds| - 1];
      assert IsDigit(last);
      10 * DigitsValue(ds[..|ds| - 1]) + (last as int - '0' as int)
  }

  /** `parseInt(s, 10)`: skip leading white space, read an optional sign, then
      the longest run of decimal digits; NaN when that run is empty. The value
      is the exact integer (see the note on doubles in the README). */
  function ParseInt10(s: string): (r: IntOrNaN)
    ensures s == [] ==> r.NaN?
    ensures s != [] && !IsJsWhiteSpace(s[0]) && s[0] != '-' && s[0] != '+' && !IsDigit(s[0]) ==> r.NaN?
    ensures |s| >= 2 && s[0] == '-' && IsDigit(s[1]) ==> r.Int? && r.value <= 0
  {
    var t := TrimStart(s);
    var negative := t != [] && t[0] == '-';
    var body := if t != [] && (t[0] == '-' || t[0] == '+') then t[1..] else t;
    var digits := DigitPrefix(body);
    if digits == [] then NaN
    else if negative then Int(-(DigitsValue(digits) as int))
    else Int(DigitsValue(digits))
  }

  /** The decimal notation of a natural number, without leading zeros. */
  function DecimalString(n: nat): (s: string)
    ensures s != [] && forall i | 0 <= i < |s| :: IsDigit(s[i])
  {
    var last := ['0' + ((n % 10) as char)];
    if n < 10 then last else DecimalString(n / 10) + last
  }

  lemma {:induction false} DecimalStringValue(n: nat)
    ensures DigitsValue(DecimalString(n)) == n
  {
    var s := DecimalString(n);
    if n >= 10 {
      DecimalStringValue(n / 10);
      assert s[..|s| - 1] == DecimalString(n / 10);
    }
  }

  /** Digits only: `parseInt` reads the whole string. */
  lemma AllDigitsPrefix(s: string)
    requires forall i | 0 <= i < |s| :: IsDigit(s[i])
    ensures DigitPrefix(s) == s
  {
  }

  /** The largest integer a JavaScript number holds exactly (2^53 - 1). */
  const MaxSafeInteger: nat := 0x1F_FFFF_FFFF_FFFF

  /** `parseInt` reads a string of decimal digits, leading zeros included, as
      exactly the number those digits denote. */
  lemma AllDigitStrings(s: string)
    requires s != [] && forall i | 0 <= i < |s| :: IsDigit(s[i])
    ensures ParseInt10(s) == Int(DigitsValue(s))
  {
    assert IsDigit(s[0]);
    assert !IsJsWhiteSpace(s[0]);
    assert TrimStart(s) == s;
    assert s[0] != '-' && s[0] != '+';
    AllDigitsPrefix(s);
  }

  /** `parseInt` inverts decimal notation: the decimal notation of a number
      within the exact range of a JavaScript number yields that number. */
  lemma ParseDecimal(n: nat)
    requires n <= MaxSafeInteger
    ensures ParseInt10(DecimalString(n)) == Int(n)
  {
    AllDigitStrings(DecimalString(n));
    DecimalStringValue(n);
  }

  /** The default port text reads as 3000. */
  lemma DefaultPortValue()
    ensures ParseInt10(DefaultPort) == Int(3000)
  {
    AllDigitStrings(DefaultPort);
    assert DefaultPort[..3] == "300";
    assert "300"[..2] == "30";
    assert "30"[..1] == "3";
    assert ""[..0] == [];
    assert DigitsValue("3") == 3;
    assert DigitsValue("30") == 30;
    assert DigitsValue("300") == 300;
  }

  /** An unset `PORT` gives port 3000. */
  lemma DefaultPortIs3000(env: map<string, string>, cwd: string)
    requires "PORT" !in env
    requires LoadConfig(env, cwd).Ok?
    ensures LoadConfig(env, cwd).value.port == Int(3000)
  {
    DefaultPortValue();
    assert PortText(env) == DefaultPort;
  }

  /** A `PORT` made of decimal digits (leading zeros allowed) whose value a
      JavaScript number holds exactly becomes that port number. */
  lemma DecimalPort(env: map<string, string>, cwd: string)
    requires "PORT" in env && env["PORT"] != []
    requires forall i | 0 <= i < |env["PORT"]| :: IsDigit(env["PORT"][i])
    requires DigitsValue(env["PORT"]) <= MaxSafeInteger
    requires LoadConfig(env, cwd).Ok?
    ensures LoadConfig(env, cwd).value.port == Int(DigitsValue(env["PORT"]))
  {
    AllDigitStrings(env["PORT"]);
  }

  /** An unset `NODE_ENV` yields a development configuration. */
  lemma DefaultIsDevelopment(env: map<string, string>, cwd: string)
    requires "NODE_ENV" !in env
    ensures LoadConfig(env, cwd).Ok? && LoadConfig(env, cwd).value.isDevelopment
  {
  }
}
