/**
 * The application configuration (appConfig.ts): the defaults, the overrides
 * read from the environment, the section-wise spread merge, and the
 * validation that lists what is wrong in check order.
 */
module AppConfig {
  import opened Common

  datatype BackofficeSettings = BackofficeSettings(baseUrl: string, timeout: int, healthCheckInterval: int)
  datatype QrSettings = QrSettings(ttlSeconds: int, syncIntervalMs: int, clockSkewSeconds: int, refreshThreshold: int)
  datatype EventSettings = EventSettings(id: string, name: string, venue: string, date: string)
  datatype UiSettings = UiSettings(brightnessDuration: int, brightnessLevel: int, autoRetryInterval: int, maxRetries: int)

  datatype Config = Config(backoffice: BackofficeSettings, qr: QrSettings, event: EventSettings, ui: UiSettings)

  const DefaultConfig: Config := Config(
    BackofficeSettings("http://localhost:8080", 5000, 30000),
    QrSettings(20, 60000, 0, 5),
    EventSettings("evt_1", "SuperFest 2025", "Estadio Nacional", "25 Sept 2025"),
    UiSettings(5000, 150, 10000, 3))

  // ---------------------------------------------------------------------------
  // Overrides and the spread merge

  /** The keys an override section carries; an absent section carries none. */
  datatype BackofficePatch = BackofficePatch(baseUrl: Option<string>, timeout: Option<int>, healthCheckInterval: Option<int>)
  datatype QrPatch = QrPatch(ttlSeconds: Option<int>, syncIntervalMs: Option<int>, clockSkewSeconds: Option<int>,
                             refreshThreshold: Option<int>)
  datatype EventPatch = EventPatch(id: Option<string>, name: Option<string>, venue: Option<string>, date: Option<string>)
  datatype UiPatch = UiPatch(brightnessDuration: Option<int>, brightnessLevel: Option<int>, autoRetryInterval: Option<int>,
                             maxRetries: Option<int>)

  /** A `Partial<AppConfig>`. */
  datatype Override = Override(backoffice: BackofficePatch, qr: QrPatch, event: EventPatch, ui: UiPatch)

  const NoOverride: Override := Override(
    BackofficePatch(None, None, None),
    QrPatch(None, None, None, None),
    EventPatch(None, None, None, None),
    UiPatch(None, None, None, None))

  /** A whole section written as an override, as `{ ...section }` does. */
  function BackofficeAsPatch(s: BackofficeSettings): BackofficePatch {
    BackofficePatch(Some(s.baseUrl), Some(s.timeout), Some(s.healthCheckInterval))
  }

  function QrAsPatch(s: QrSettings): QrPatch {
    QrPatch(Some(s.ttlSeconds), Some(s.syncIntervalMs), Some(s.clockSkewSeconds), Some(s.refreshThreshold))
  }

  function EventAsPatch(s: EventSettings): EventPatch {
    EventPatch(Some(s.id), Some(s.name), Some(s.venue), Some(s.date))
  }

  function UiAsPatch(s: UiSettings): UiPatch {
    UiPatch(Some(s.brightnessDuration), Some(s.brightnessLevel), Some(s.autoRetryInterval), Some(s.maxRetries))
  }

  /** `{ ...base, ...patch }` on each section: a key the override carries wins. */
  function MergeConfig(base: Config, o: Override): (c: Config)
    ensures && c.backoffice.baseUrl == o.backoffice.baseUrl.GetOr(base.backoffice.baseUrl)
            && c.backoffice.timeout == o.backoffice.timeout.GetOr(base.backoffice.timeout)
            && c.backoffice.healthCheckInterval == o.backoffice.healthCheckInterval.GetOr(base.backoffice.healthCheckInterval)
    ensures && c.qr.ttlSeconds == o.qr.ttlSeconds.GetOr(base.qr.ttlSeconds)
            && c.qr.syncIntervalMs == o.qr.syncIntervalMs.GetOr(base.qr.syncIntervalMs)
            && c.qr.clockSkewSeconds == o.qr.clockSkewSeconds.GetOr(base.qr.clockSkewSeconds)
            && c.qr.refreshThreshold == o.qr.refreshThreshold.GetOr(base.qr.refreshThreshold)
    ensures && c.event.id == o.event.id.GetOr(base.event.id)
            && c.event.name == o.event.name.GetOr(base.event.name)
            && c.event.venue == o.event.venue.GetOr(base.event.venue)
            && c.event.date == o.event.date.GetOr(base.event.date)
    ensures && c.ui.brightnessDuration == o.ui.brightnessDuration.GetOr(base.ui.brightnessDuration)
            && c.ui.brightnessLevel == o.ui.brightnessLevel.GetOr(base.ui.brightnessLevel)
            && c.ui.autoRetryInterval == o.ui.autoRetryInterval.GetOr(base.ui.autoRetryInterval)
            && c.ui.maxRetries == o.ui.maxRetries.GetOr(base.ui.maxRetries)
  {
    var b := o.backoffice;
    var q := o.qr;
    var e := o.event;
    var u := o.ui;
    Config(
      BackofficeSettings(b.baseUrl.GetOr(base.backoffice.baseUrl), b.timeout.GetOr(base.backoffice.timeout),
                         b.healthCheckInterval.GetOr(base.backoffice.healthCheckInterval)),
      QrSettings(q.ttlSeconds.GetOr(base.qr.ttlSeconds), q.syncIntervalMs.GetOr(base.qr.syncIntervalMs),
                 q.clockSkewSeconds.GetOr(base.qr.clockSkewSeconds), q.refreshThreshold.GetOr(base.qr.refreshThreshold)),
      EventSettings(e.id.GetOr(base.event.id), e.name.GetOr(base.event.name), e.venue.GetOr(base.event.venue),
                    e.date.GetOr(base.event.date)),
      UiSettings(u.brightnessDuration.GetOr(base.ui.brightnessDuration), u.brightnessLevel.GetOr(base.ui.brightnessLevel),
                 u.autoRetryInterval.GetOr(base.ui.autoRetryInterval), u.maxRetries.GetOr(base.ui.maxRetries)))
  }

  /** Merging an empty override changes nothing. */
  lemma MergeNothing(base: Config)
    ensures MergeConfig(base, NoOverride) == base
  {
  }

  /** Applying the same override twice is applying it once. */
  lemma MergeIdempotent(base: Config, o: Override)
    ensures MergeConfig(MergeConfig(base, o), o) == MergeConfig(base, o)
  {
  }

  /** A whole section given as the override replaces the base's section outright. */
  lemma MergeWholeSections(base: Config, b: BackofficeSettings, q: QrSettings, e: EventSettings, u: UiSettings)
    ensures MergeConfig(base, NoOverride.(backoffice := BackofficeAsPatch(b), qr := QrAsPatch(q), event := EventAsPatch(e)))
         == base.(backoffice := b, qr := q, event := e)
    ensures MergeConfig(base, Override(BackofficeAsPatch(b), QrAsPatch(q), EventAsPatch(e), UiAsPatch(u)))
         == Config(b, q, e, u)
  {
  }

  // ---------------------------------------------------------------------------
  // parseInt(text, 10)

  /** The characters `parseInt` skips before the number (WhiteSpace and LineTerminator). */
  predicate IsSpace(c: char) {
    || c == ' ' || '\t' <= c <= '\r' || c == '\U{00A0}' || c == '\U{1680}' || '\U{2000}' <= c <= '\U{200A}'
    || c == '\U{2028}' || c == '\U{2029}' || c == '\U{202F}' || c == '\U{205F}' || c == '\U{3000}' || c == '\U{FEFF}'
  }

  predicate IsDigit(c: char) {
    '0' <= c <= '9'
  }

  function TrimStart(s: string): (t: string)
    ensures |t| <= |s| && t == s[|s| - |t|..]
    ensures |t| > 0 ==> !IsSpace(t[0])
  {
    if |s| > 0 && IsSpace(s[0]) then TrimStart(s[1..]) else s
  }

  /** The longest prefix of decimal digits. */
  function DigitRun(s: string): (d: string)
    ensures d <= s && forall i :: 0 <= i < |d| ==> IsDigit(d[i])
    ensures |d| < |s| ==> !IsDigit(s[|d|])
  {
    if |s| > 0 && IsDigit(s[0]) then [s[0]] + DigitRun(s[1..]) else ""
  }

  /** The value of a run of decimal digits. */
  function DigitsValue(d: string): (n: nat)
    requires forall i :: 0 <= i < |d| ==> IsDigit(d[i])
  {
    if |d| == 0 then 0 else DigitsValue(d[..|d| - 1]) * 10 + DigitValue(d[|d| - 1])
  }

  function DigitValue(c: char): (n: nat)
    requires IsDigit(c)
    ensures n < 10
  {
    c as int - '0' as int
  }

  /**
   * `parseInt(text, 10)`: leading white space skipped, an optional sign, then
   * the longest run of digits; NaN (here `None`) when there is none.
   */
  function ParseInt(text: string): (r: Option<int>)
    ensures r.None? <==> DigitRun(SignStripped(TrimStart(text))) == ""
  {
    var t := TrimStart(text);
    var digits := DigitRun(SignStripped(t));
    var magnitude: int := DigitsValue(digits);
    if digits == "" then None
    else if |t| > 0 && t[0] == '-' then Some(-magnitude)
    else Some(magnitude)
  }

  /** The text after an optional leading '+' or '-'. */
  function SignStripped(t: string): string {
    if |t| > 0 && (t[0] == '-' || t[0] == '+') then t[1..] else t
  }

  /** `String(n)` consists of digits alone for a non-negative `n`. */
  lemma {:induction false} IntToStringDigits(n: nat)
    ensures forall i :: 0 <= i < |IntToString(n)| ==> IsDigit(IntToString(n)[i])
    decreases n
  {
    if n >= 10 {
      IntToStringDigits(n / 10);
    }
  }

  /** The digits of `String(n)` are worth `n`. */
  lemma {:induction false} IntToStringValue(n: nat)
    ensures forall i :: 0 <= i < |IntToString(n)| ==> IsDigit(IntToString(n)[i])
    ensures DigitsValue(IntToString(n)) == n
    decreases n
  {
    IntToStringDigits(n);
    if n >= 10 {
      IntToStringValue(n / 10);
      var s := IntToString(n);
      assert s[..|s| - 1] == IntToString(n / 10);
    }
  }

  /** A run of digits is its own longest digit prefix. */
  lemma {:induction false} DigitRunOfDigits(d: string)
    requires forall i :: 0 <= i < |d| ==> IsDigit(d[i])
    ensures DigitRun(d) == d
    decreases |d|
  {
    if |d| > 0 {
      DigitRunOfDigits(d[1..]);
    }
  }

  /** `parseInt` reads a run of digits as its value. */
  lemma ParseIntOfDigits(d: string)
    requires |d| >= 1 && forall i :: 0 <= i < |d| ==> IsDigit(d[i])
    ensures ParseInt(d) == Some(DigitsValue(d) as int)
  {
    assert !IsSpace(d[0]);
    assert TrimStart(d) == d;
    assert SignStripped(d) == d;
    DigitRunOfDigits(d);
  }

  /** `parseInt` reads '-' followed by a run of digits as the negated value of the digits. */
  lemma ParseIntOfNegatedDigits(d: string)
    requires |d| >= 1 && forall i :: 0 <= i < |d| ==> IsDigit(d[i])
    ensures ParseInt("-" + d) == Some(-(DigitsValue(d) as int))
  {
    var s := "-" + d;
    assert s[0] == '-' && s[1..] == d;
    assert !IsSpace(s[0]);
    assert SignStripped(s) == d;
    DigitRunOfDigits(d);
    ParseIntOfTrimmed(s, d);
  }

  /** `parseInt` of text with no leading white space whose signed digit run is `digits`. */
  lemma ParseIntOfTrimmed(text: string, digits: string)
    requires |text| > 0 && !IsSpace(text[0]) && DigitRun(SignStripped(text)) == digits && digits != ""
    ensures text[0] == '-' ==> ParseInt(text) == Some(-(DigitsValue(digits) as int))
    ensures text[0] != '-' ==> ParseInt(text) == Some(DigitsValue(digits) as int)
  {
    assert TrimStart(text) == text;
  }

  /** `parseInt(String(n), 10) == n` for every integer. */
  lemma ParseIntToString(n: int)
    ensures ParseInt(IntToString(n)) == Some(n)
  {
    var m: nat := if n < 0 then -n else n;
    IntToStringValue(m);
    if n < 0 {
      ParseIntOfNegatedDigits(IntToString(m));
    } else {
      ParseIntOfDigits(IntToString(m));
    }
  }

  /** `parseInt` stops at the first character that cannot continue the number. */
  lemma ParseIntStopsAtNonDigit()
    ensures ParseInt("45s") == Some(45)
  {
    assert "45s"[0] == '4' && !IsSpace('4');
    assert SignStripped("45s") == "45s";
    assert DigitRun("45s") == "45" by {
      assert DigitRun("s") == "";
      assert "45s"[1..] == "5s" && "5s"[1..] == "s";
    }
    ParseIntOfTrimmed("45s", "45");
    assert DigitsValue("45") == 45 by { assert "45"[..1] == "4"; }
  }

  /** `parseInt` of text with no digits is NaN. */
  lemma ParseIntNoDigits()
    ensures ParseInt("abc") == None
    ensures ParseInt("") == None
  {
    assert TrimStart("abc") == "abc" by { assert !IsSpace('a'); }
    assert SignStripped("abc") == "abc";
    assert DigitRun("abc") == "";
  }

  // ---------------------------------------------------------------------------
  // getEnvConfig

  /** The process environment: the variables that are set, with their text. */
  type Environment = map<string, string>

  function EnvVar(env: Environment, name: string): Option<string> {
    if name in env then Some(env[name]) else None
  }

  const BackofficeUrlVar: string := "REACT_APP_BACKOFFICE_URL"
  const EventIdVar: string := "REACT_APP_EVENT_ID"
  const QrTtlVar: string := "REACT_APP_QR_TTL_SECONDS"

  /** The TTL the environment supplies: set, parsed, and a number greater than 0. */
  function EnvTtl(env: Environment): (t: Option<int>)
    ensures t.Some? ==> t.value > 0
    ensures t.Some? <==> Truthy(EnvVar(env, QrTtlVar)) && ParseInt(env[QrTtlVar]).Some? && ParseInt(env[QrTtlVar]).value > 0
  {
    if !Truthy(EnvVar(env, QrTtlVar)) then None
    else
      var ttl := ParseInt(env[QrTtlVar]);
      if ttl.Some? && ttl.value > 0 then ttl else None
  }

  /**
   * The override the environment yields: each section present exactly when
   * its variable is usable, as the defaults of that section with the one
   * field replaced.
   */
  function EnvOverride(env: Environment): (o: Override)
    ensures o.ui == NoOverride.ui
    ensures o.backoffice.baseUrl == (if Truthy(EnvVar(env, BackofficeUrlVar)) then Some(env[BackofficeUrlVar]) else None)
    ensures o.event.id == (if Truthy(EnvVar(env, EventIdVar)) then Some(env[EventIdVar]) else None)
    ensures o.qr.ttlSeconds == EnvTtl(env)
  {
    NoOverride.(
      backoffice := if Truthy(EnvVar(env, BackofficeUrlVar))
                    then BackofficeAsPatch(DefaultConfig.backoffice.(baseUrl := env[BackofficeUrlVar]))
                    else NoOverride.backoffice,
      event := if Truthy(EnvVar(env, EventIdVar))
               then EventAsPatch(DefaultConfig.event.(id := env[EventIdVar]))
               else NoOverride.event,
      qr := if EnvTtl(env).Some?
            then QrAsPatch(DefaultConfig.qr.(ttlSeconds := EnvTtl(env).value))
            else NoOverride.qr)
  }

  /** `getEnvConfig`, building the override section by section. */
  method GetEnvConfig(env: Environment) returns (o: Override)
    ensures o == EnvOverride(env)
  {
    o := NoOverride;
    if Truthy(EnvVar(env, BackofficeUrlVar)) {
      o := o.(backoffice := BackofficeAsPatch(DefaultConfig.backoffice.(baseUrl := env[BackofficeUrlVar])));
    }
    if Truthy(EnvVar(env, EventIdVar)) {
      o := o.(event := EventAsPatch(DefaultConfig.event.(id := env[EventIdVar])));
    }
    if Truthy(EnvVar(env, QrTtlVar)) {
      var ttl := ParseInt(env[QrTtlVar]);
      if ttl.Some? && ttl.value > 0 {
        o := o.(qr := QrAsPatch(DefaultConfig.qr.(ttlSeconds := ttl.value)));
      }
    }
  }

  /** `appConfig`: the defaults merged with the environment's override. */
  function AppConfigFor(env: Environment): Config {
    MergeConfig(DefaultConfig, EnvOverride(env))
  }

  /**
   * The configuration the environment produces keeps every default except
   * the three fields the variables name, each of which takes its variable's
   * value when that is usable, and its TTL is never 0 or below.
   */
  lemma EnvConfigShape(env: Environment)
    ensures var c := AppConfigFor(env);
            && c.qr.ttlSeconds > 0
            && c.backoffice == DefaultConfig.backoffice.(baseUrl := c.backoffice.baseUrl)
            && c.qr == DefaultConfig.qr.(ttlSeconds := c.qr.ttlSeconds)
            && c.event == DefaultConfig.event.(id := c.event.id)
            && c.ui == DefaultConfig.ui
            && (c.backoffice.baseUrl != DefaultConfig.backoffice.baseUrl ==> c.backoffice.baseUrl == env[BackofficeUrlVar])
            && c.backoffice.baseUrl == (if Truthy(EnvVar(env, BackofficeUrlVar)) then env[BackofficeUrlVar]
                                        else DefaultConfig.backoffice.baseUrl)
            && c.event.id == (if Truthy(EnvVar(env, EventIdVar)) then env[EventIdVar] else DefaultConfig.event.id)
            && c.qr.ttlSeconds == EnvTtl(env).GetOr(DefaultConfig.qr.ttlSeconds)
  {
  }

  // ---------------------------------------------------------------------------
  // validateConfig

  const BaseUrlRequired: string := "URL del Backoffice es requerida"
  const TtlMustBePositive: string := "TTL del QR debe ser mayor a 0"
  const TtlTooLong: string := "TTL del QR no debe ser mayor a 5 minutos por seguridad"
  const EventIdRequired: string := "ID del evento es requerido"
  const MaxRetriesMustBePositive: string := "Número máximo de reintentos debe ser mayor a 0"

  /** The messages in the order the checks run. */
  const CheckOrder: seq<string> := [BaseUrlRequired, TtlMustBePositive, TtlTooLong, EventIdRequired, MaxRetriesMustBePositive]

  /** The conditions a usable configuration meets. */
  predicate Acceptable(c: Config) {
    && c.backoffice.baseUrl != ""
    && 0 < c.qr.ttlSeconds <= 300
    && c.event.id != ""
    && c.ui.maxRetries > 0
  }

  /** The messages `validateConfig` returns. */
  function ConfigErrors(c: Config): (errors: seq<string>)
    ensures forall e :: e in errors ==> e in CheckOrder
  {
    (if c.backoffice.baseUrl == "" then [BaseUrlRequired] else [])
    + (if c.qr.ttlSeconds <= 0 then [TtlMustBePositive] else [])
    + (if c.qr.ttlSeconds > 300 then [TtlTooLong] else [])
    + (if c.event.id == "" then [EventIdRequired] else [])
    + (if c.ui.maxRetries <= 0 then [MaxRetriesMustBePositive] else [])
  }

  /** `validateConfig`, pushing one message per failed check. */
  method ValidateConfig(c: Config) returns (errors: seq<string>)
    ensures errors == ConfigErrors(c)
  {
    errors := [];
    if c.backoffice.baseUrl == "" {
      errors := errors + [BaseUrlRequired];
    }
    if c.qr.ttlSeconds <= 0 {
      errors := errors + [TtlMustBePositive];
    }
    if c.qr.ttlSeconds > 300 {
      errors := errors + [TtlTooLong];
    }
    if c.event.id == "" {
      errors := errors + [EventIdRequired];
    }
    if c.ui.maxRetries <= 0 {
      errors := errors + [MaxRetriesMustBePositive];
    }
  }

  /** The position of a message in check order. */
  function Rank(message: string): (r: int)
    ensures message in CheckOrder ==> 0 <= r < |CheckOrder| && CheckOrder[r] == message
  {
    if message == BaseUrlRequired then 0
    else if message == TtlMustBePositive then 1
    else if message == TtlTooLong then 2
    else if message == EventIdRequired then 3
    else if message == MaxRetriesMustBePositive then 4
    else -1
  }

  /** No errors exactly for an acceptable configuration; each failed condition shows up as its message. */
  lemma ValidIffNoErrors(c: Config)
    ensures ConfigErrors(c) == [] <==> Acceptable(c)
    ensures c.backoffice.baseUrl == "" <==> BaseUrlRequired in ConfigErrors(c)
    ensures c.event.id == "" <==> EventIdRequired in ConfigErrors(c)
    ensures c.ui.maxRetries <= 0 <==> MaxRetriesMustBePositive in ConfigErrors(c)
    ensures c.qr.ttlSeconds <= 0 <==> TtlMustBePositive in ConfigErrors(c)
    ensures c.qr.ttlSeconds > 300 <==> TtlTooLong in ConfigErrors(c)
  {
  }

  /** Messages come in check order, each at most once, and never both TTL messages. */
  lemma ErrorsInCheckOrder(c: Config)
    ensures var errors := ConfigErrors(c);
            && (forall i, j :: 0 <= i < j < |errors| ==> Rank(errors[i]) < Rank(errors[j]))
            && !(TtlMustBePositive in errors && TtlTooLong in errors)
            && |errors| <= 4
  {
  }

  /** The defaults are acceptable. */
  lemma DefaultConfigValid()
    ensures Acceptable(DefaultConfig) && ConfigErrors(DefaultConfig) == []
  {
  }

  /** `String(301)` is the text "301". */
  lemma Text301()
    ensures IntToString(301) == "301"
  {
    assert IntToString(3) == "3";
    assert IntToString(30) == "30";
  }

  /** The environment's text "301" parses to a TTL the environment path accepts. */
  lemma EnvTtl301()
    ensures EnvTtl(map[QrTtlVar := "301"]) == Some(301)
  {
    Text301();
    ParseIntToString(301);
    EnvTtlOfText(map[QrTtlVar := "301"], IntToString(301), 301);
  }

  /** A non-empty TTL text that parses to a positive number is the environment's TTL. */
  lemma EnvTtlOfText(env: Environment, text: string, n: int)
    requires QrTtlVar in env && env[QrTtlVar] == text && text != ""
    requires ParseInt(text) == Some(n) && n > 0
    ensures EnvTtl(env) == Some(n)
  {
  }

  /** An environment that sets only a usable TTL overrides the TTL alone. */
  lemma EnvOverrideTtlOnly(env: Environment, n: int)
    requires BackofficeUrlVar !in env && EventIdVar !in env && EnvTtl(env) == Some(n)
    ensures EnvOverride(env) == NoOverride.(qr := QrAsPatch(DefaultConfig.qr.(ttlSeconds := n)))
  {
    assert !Truthy(EnvVar(env, BackofficeUrlVar)) && !Truthy(EnvVar(env, EventIdVar));
  }

  /**
   * The environment can supply a TTL that `getEnvConfig` takes and
   * `validateConfig` then refuses: any parsable value above 300, such as
   * "301" (`EnvTtl301`) with the other two variables unset.
   */
  lemma EnvTtlCanExceedLimit(env: Environment, n: int)
    requires BackofficeUrlVar !in env && EventIdVar !in env && EnvTtl(env) == Some(n) && n > 300
    ensures AppConfigFor(env).qr.ttlSeconds == n
    ensures ConfigErrors(AppConfigFor(env)) == [TtlTooLong]
  {
    var c := DefaultConfig.(qr := DefaultConfig.qr.(ttlSeconds := n));
    EnvOverrideTtlOnly(env, n);
    assert MergeConfig(DefaultConfig, NoOverride.(qr := QrAsPatch(c.qr))) == c;
    assert ConfigErrors(c) == [TtlTooLong];
  }
}
