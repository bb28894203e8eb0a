/**
 * What the handler reads from the process environment: the required SMTP
 * settings check, the transport options, and the `to`/`from` fallbacks.
 * The environment is an explicit map; an absent key and an empty value are
 * both "not set", as `!process.env[k]` treats them.
 */
module SmtpConfig {
  import opened Wrappers
  import opened JsText

  type Env = map<string, string>

  /** `process.env[k]`, with an absent key read as the empty string. */
  function EnvGet(env: Env, k: string): (v: string)
    ensures k !in env ==> v == []
  {
    if k in env then env[k] else []
  }

  /** `!!process.env[k]`. */
  predicate IsSet(env: Env, k: string)
  {
    EnvGet(env, k) != []
  }

  const RequiredEnv: seq<string> := ["SMTP_HOST", "SMTP_PORT", "SMTP_USER", "SMTP_PASS"]
  const DefaultPort: nat := 587
  const FallbackSender: string := "no-reply@marmolesbarreto.local"

  /** `keys.filter((k) => !process.env[k])`. */
  function MissingKeys(keys: seq<string>, env: Env): (r: seq<string>)
    ensures |r| <= |keys|
    ensures forall k :: k in r <==> k in keys && !IsSet(env, k)
  {
    if keys == [] then []
    else (if IsSet(env, keys[0]) then [] else [keys[0]]) + MissingKeys(keys[1..], env)
  }

  /** The `missing` list of the handler: the required settings that are absent or empty. */
  function Missing(env: Env): (r: seq<string>)
    ensures |r| <= |RequiredEnv|
    ensures forall k :: k in r <==> k in RequiredEnv && !IsSet(env, k)
  {
    MissingKeys(RequiredEnv, env)
  }

  /** `missing.length` is zero exactly when host, port, user and password are all set. */
  lemma MissingEmptyIff(env: Env)
    ensures Missing(env) == [] <==>
      IsSet(env, "SMTP_HOST") && IsSet(env, "SMTP_PORT") && IsSet(env, "SMTP_USER") && IsSet(env, "SMTP_PASS")
  {
    if Missing(env) != [] {
      assert Missing(env)[0] in Missing(env);
    }
  }

  predicate AllDigits(s: string)
  {
    forall i :: 0 <= i < |s| ==> IsDigit(s[i])
  }

  function DigitValue(c: char): (d: nat)
    requires IsDigit(c)
    ensures d < 10
  {
    c as int - '0' as int
  }

  function DigitChar(d: nat): (c: char)
    requires d < 10
    ensures IsDigit(c) && DigitValue(c) == d
  {
    ('0' as int + d) as char
  }

  /** The value of a string of decimal digits, most significant first. */
  function DecimalValue(s: string): nat
    requires AllDigits(s)
  {
    if s == [] then 0 else DecimalValue(s[..|s| - 1]) * 10 + DigitValue(s[|s| - 1])
  }

  /** The shortest decimal spelling of `n`. */
  function DecimalString(n: nat): (s: string)
    ensures s != [] && AllDigits(s)
  {
    if n < 10 then [DigitChar(n)] else DecimalString(n / 10) + [DigitChar(n % 10)]
  }

  /**
   * `Number(raw)` for a non-empty environment value: a string of decimal
   * digits gives its value, anything else is taken as not-a-number (None).
   */
  function ParsePort(raw: string): (p: Option<nat>)
    ensures p.Some? <==> raw != [] && AllDigits(raw)
  {
    if raw != [] && AllDigits(raw) then Some(DecimalValue(raw)) else None
  }

  /** Every port number written in decimal reads back as itself. */
  lemma {:induction false} ParsePortRoundTrip(n: nat)
    ensures ParsePort(DecimalString(n)) == Some(n)
  {
    var s := DecimalString(n);
    if n < 10 {
      assert s[..|s| - 1] == [];
    } else {
      ParsePortRoundTrip(n / 10);
      assert s[..|s| - 1] == DecimalString(n / 10);
      assert DigitValue(s[|s| - 1]) == n % 10;
    }
    assert DecimalValue(s) == n;
  }

  /** `Number(process.env.SMTP_PORT || 587)`. */
  function PortOf(env: Env): (p: Option<nat>)
    ensures !IsSet(env, "SMTP_PORT") ==> p == Some(DefaultPort)
    ensures IsSet(env, "SMTP_PORT") && AllDigits(EnvGet(env, "SMTP_PORT")) ==>
      p == Some(DecimalValue(EnvGet(env, "SMTP_PORT")))
    ensures p.None? <==> IsSet(env, "SMTP_PORT") && !AllDigits(EnvGet(env, "SMTP_PORT"))
  {
    if IsSet(env, "SMTP_PORT") then ParsePort(EnvGet(env, "SMTP_PORT")) else Some(DefaultPort)
  }

  /**
   * `String(process.env.SMTP_SECURE || 'false') === 'true'`: TLS from the
   * first byte is on exactly when SMTP_SECURE is the string `true`.
   */
  function SecureOf(env: Env): (secure: bool)
    ensures secure <==> EnvGet(env, "SMTP_SECURE") == "true"
  {
    OrElse(EnvGet(env, "SMTP_SECURE"), "false") == "true"
  }

  datatype Credentials = Credentials(user: string, pass: string)

  /** The options object handed to `createTransport`. */
  datatype TransportConfig = TransportConfig(
    host: string,
    port: Option<nat>,
    secure: bool,
    auth: Option<Credentials>)

  function TransportOf(env: Env): (c: TransportConfig)
    ensures c.host == EnvGet(env, "SMTP_HOST")
    ensures c.port == PortOf(env) && c.secure == SecureOf(env)
    ensures c.auth.Some? <==> IsSet(env, "SMTP_USER") && IsSet(env, "SMTP_PASS")
    ensures c.auth.Some? ==> c.auth.value == Credentials(EnvGet(env, "SMTP_USER"), EnvGet(env, "SMTP_PASS"))
  {
    TransportConfig(
      EnvGet(env, "SMTP_HOST"),
      PortOf(env),
      SecureOf(env),
      if IsSet(env, "SMTP_USER") && IsSet(env, "SMTP_PASS")
      then Some(Credentials(EnvGet(env, "SMTP_USER"), EnvGet(env, "SMTP_PASS")))
      else None)
  }

  /** `process.env.MAIL_TO || process.env.SMTP_USER`. */
  function RecipientOf(env: Env): (to: string)
    ensures IsSet(env, "MAIL_TO") ==> to == EnvGet(env, "MAIL_TO")
    ensures !IsSet(env, "MAIL_TO") ==> to == EnvGet(env, "SMTP_USER")
    ensures to != [] <==> IsSet(env, "MAIL_TO") || IsSet(env, "SMTP_USER")
  {
    OrElse(EnvGet(env, "MAIL_TO"), EnvGet(env, "SMTP_USER"))
  }

  /** `process.env.MAIL_FROM || process.env.SMTP_USER || 'no-reply@marmolesbarreto.local'`. */
  function SenderOf(env: Env): (from: string)
    ensures from != []
    ensures IsSet(env, "MAIL_FROM") ==> from == EnvGet(env, "MAIL_FROM")
    ensures !IsSet(env, "MAIL_FROM") && IsSet(env, "SMTP_USER") ==> from == EnvGet(env, "SMTP_USER")
    ensures !IsSet(env, "MAIL_FROM") && !IsSet(env, "SMTP_USER") ==> from == FallbackSender
  {
    OrElse(EnvGet(env, "MAIL_FROM"), OrElse(EnvGet(env, "SMTP_USER"), FallbackSender))
  }
}
