/** The banner's configuration (the `BannerOptions` object of src/index.js): the
    values a caller may pass to `init`, the defaults they overlay, the checks of
    `verifyOptions`, and the cookie-domain inference of `getHostName`. */
module Config {
  import opened Wrappers
  import opened Props

  /** What a cookie helper object offers, as far as the banner uses it. */
  datatype HelperApi = HelperApi(
    hasSetItem: bool,      // `typeof helper.setItem === 'function'`
    cookiesEnabled: bool,  // what `helper.enabled()` reports
    setThrows: bool,       // `helper.setItem(...)` throws
    readThrows: bool)      // `helper.hasItem(...)` or `helper.getItem(...)` throws

  /** A JavaScript value as it may appear in a configuration object. Every object
      is an `Obj`; one that is not a cookie helper has an api without `setItem`. */
  datatype JsValue =
    | Undefined
    | Null
    | Bool(b: bool)
    | Num(n: int)
    | Str(s: string)
    | Obj(api: HelperApi)

  /** JavaScript's ToBoolean: what `if (value)` and `!value` see. Every object
      is truthy. */
  predicate ToBoolean(v: JsValue): (b: bool)
    ensures !b <==> v == Undefined || v == Null || v == Bool(false) || v == Num(0) || v == Str("")
  {
    match v
    case Undefined => false
    case Null => false
    case Bool(b) => b
    case Num(n) => n != 0
    case Str(s) => s != ""
    case Obj(_) => true
  }

  /** The resolved configuration; each field holds whatever value the caller gave. */
  datatype Options = Options(
    cookieDomain: JsValue,
    cookieExpiryDays: JsValue,
    cookieID: JsValue,
    optOut: JsValue,
    helper: JsValue)

  /** A configuration object passed to `init`: its own enumerable properties in
      enumeration order (empty when `init` gets no argument). */
  type UserConfig = seq<(string, JsValue)>

  const CookieId := "moz-consent-pref"
  const CookieExpiryDays := 182

  const Defaults := Options(Null, Num(CookieExpiryDays), Str(CookieId), Bool(false), Null)

  predicate IsOptionKey(key: string) {
    key == "cookieDomain" || key == "cookieExpiryDays" || key == "cookieID" ||
    key == "optOut" || key == "helper"
  }

  /** The field of `o` that property `key` names. */
  function Field(o: Options, key: string): JsValue
    requires IsOptionKey(key)
  {
    if key == "cookieDomain" then o.cookieDomain
    else if key == "cookieExpiryDays" then o.cookieExpiryDays
    else if key == "cookieID" then o.cookieID
    else if key == "optOut" then o.optOut
    else o.helper
  }

  /** `defaults[key] = value`. A key the banner never reads leaves the options as
      they were. */
  function SetOption(o: Options, key: string, value: JsValue): (r: Options)
    ensures forall k | IsOptionKey(k) :: Field(r, k) == if k == key then value else Field(o, k)
  {
    if key == "cookieDomain" then o.(cookieDomain := value)
    else if key == "cookieExpiryDays" then o.(cookieExpiryDays := value)
    else if key == "cookieID" then o.(cookieID := value)
    else if key == "optOut" then o.(optOut := value)
    else if key == "helper" then o.(helper := value)
    else o
  }

  /** `base` after copying every own property of `config` into it, in order. A
      configured option takes the value the config gives it (the last one, should
      a key repeat); an option the config does not mention keeps its value in `base`. */
  function Overlay(base: Options, config: UserConfig): (r: Options)
    ensures forall key | IsOptionKey(key) ::
              Field(r, key) == (match Lookup(config, key) case Some(v) => v case None => Field(base, key))
    decreases |config|
  {
    if config == [] then base
    else
      var last := config[|config| - 1];
      SetOption(Overlay(base, config[..|config| - 1]), last.0, last.1)
  }

  /** The `for...in` loop of `init`: copies the config's own properties over a
      fresh copy of the defaults. */
  method MergeConfig(config: UserConfig) returns (o: Options)
    ensures o == Overlay(Defaults, config)
  {
    o := Defaults;
    var i := 0;
    while i < |config|
      invariant 0 <= i <= |config|
      invariant o == Overlay(Defaults, config[..i])
    {
      assert config[..i + 1][..i] == config[..i];
      o := SetOption(o, config[i].0, config[i].1);
      i := i + 1;
    }
    assert config[..i] == config;
  }

  // ---------------------------------------------------------------- validation

  const MsgErrorDisabled := "verifyOptions(): cookies are disabled."
  const MsgErrorExpiry := "verifyOptions(): options.cookieExpiryDays not set."
  const MsgErrorHelper := "verifyOptions(): options.helper not set."
  const MsgErrorOptOut := "verifyOptions(): options.optOut not set."
  const MsgValid := "verifyOptions(): success."

  /** `options.helper` is truthy and its `setItem` is a function. */
  predicate HasSetItem(helper: JsValue) {
    ToBoolean(helper) && helper.Obj? && helper.api.hasSetItem
  }

  /** All four requirements hold, in no particular order. */
  predicate Usable(o: Options) {
    o.cookieExpiryDays.Num? && HasSetItem(o.helper) && o.optOut.Bool? && o.helper.api.cookiesEnabled
  }

  /** `verifyOptions`: the message of the first requirement that fails. */
  function VerifyOptions(o: Options): (msg: string)
    ensures msg == MsgValid <==> Usable(o)
    ensures msg in {MsgValid, MsgErrorExpiry, MsgErrorHelper, MsgErrorOptOut, MsgErrorDisabled}
  {
    if !o.cookieExpiryDays.Num? then MsgErrorExpiry
    else if !HasSetItem(o.helper) then MsgErrorHelper
    else if !o.optOut.Bool? then MsgErrorOptOut
    else if !o.helper.api.cookiesEnabled then MsgErrorDisabled
    else MsgValid
  }

  /** The requirements in the order they are checked, each with the message that
      reports it. The last one calls `helper.enabled()`, so it is only meaningful
      once the helper is known to be there. */
  function Checks(o: Options): seq<(bool, string)> {
    [ (o.cookieExpiryDays.Num?, MsgErrorExpiry),
      (HasSetItem(o.helper), MsgErrorHelper),
      (o.optOut.Bool?, MsgErrorOptOut),
      (HasSetItem(o.helper) && o.helper.api.cookiesEnabled, MsgErrorDisabled) ]
  }

  /** The message of the first failing check, or success when none fails. */
  function FirstFailure(checks: seq<(bool, string)>): (msg: string)
    ensures (forall i :: 0 <= i < |checks| ==> checks[i].0) ==> msg == MsgValid
    ensures (exists i :: 0 <= i < |checks| && !checks[i].0) ==>
      exists i :: 0 <= i < |checks| && !checks[i].0 && checks[i].1 == msg && forall j :: 0 <= j < i ==> checks[j].0
  {
    if checks == [] then MsgValid
    else if !checks[0].0 then checks[0].1
    else
      assert forall i :: 1 <= i < |checks| ==> checks[i] == checks[1..][i - 1];
      FirstFailure(checks[1..])
  }

  /** Validation short-circuits: the result is the message of the first failing
      check, so later checks (and `helper.enabled()`) are never consulted once an
      earlier one fails. */
  lemma VerifyOptionsIsFirstFailure(o: Options)
    ensures VerifyOptions(o) == FirstFailure(Checks(o))
  {
    var c := Checks(o);
    var c1, c2, c3 := c[1..], c[1..][1..], c[1..][1..][1..];
    assert c3[1..] == [];
    assert FirstFailure(c3) == if !c3[0].0 then c3[0].1 else MsgValid;
    assert FirstFailure(c2) == if !c2[0].0 then c2[0].1 else FirstFailure(c3);
    assert FirstFailure(c1) == if !c1[0].0 then c1[0].1 else FirstFailure(c2);
  }

  /** Which message comes back, stated per message: a non-number expiry is reported
      even when the helper is missing too, a missing helper before a bad `optOut`,
      and cookies are reported disabled only once the helper is known to have
      `setItem`, so `enabled()` is never called on a missing helper. */
  lemma VerifyOptionsMessages(o: Options)
    ensures VerifyOptions(o) == MsgErrorExpiry <==> !o.cookieExpiryDays.Num?
    ensures VerifyOptions(o) == MsgErrorHelper <==> o.cookieExpiryDays.Num? && !HasSetItem(o.helper)
    ensures VerifyOptions(o) == MsgErrorOptOut <==>
      o.cookieExpiryDays.Num? && HasSetItem(o.helper) && !o.optOut.Bool?
    ensures VerifyOptions(o) == MsgErrorDisabled <==>
      o.cookieExpiryDays.Num? && HasSetItem(o.helper) && o.optOut.Bool? && !o.helper.api.cookiesEnabled
  {
  }

  /** Each failure is reported by its own message, distinct from every other. */
  lemma MessagesDistinct()
    ensures |{MsgValid, MsgErrorExpiry, MsgErrorHelper, MsgErrorOptOut, MsgErrorDisabled}| == 5
  {
  }

  // ---------------------------------------------------------------- host name

  /** `sub` occurs in `s` at position `i`. */
  predicate OccursAt(s: string, sub: string, i: int) {
    0 <= i && i + |sub| <= |s| && s[i..i + |sub|] == sub
  }

  ghost predicate Contains(s: string, sub: string) {
    exists i :: OccursAt(s, sub, i)
  }

  /** `s.indexOf(sub, from)`: the first position at or after `from` where `sub`
      occurs, or -1. */
  function IndexOf(s: string, sub: string, from: nat): (r: int)
    ensures r == -1 || (from <= r && OccursAt(s, sub, r))
    ensures r == -1 ==> forall i :: from <= i ==> !OccursAt(s, sub, i)
    ensures r != -1 ==> forall i :: from <= i < r ==> !OccursAt(s, sub, i)
    decreases |s| - from
  {
    if from + |sub| > |s| then -1
    else if s[from..from + |sub|] == sub then from
    else IndexOf(s, sub, from + 1)
  }

  const MozillaDomain := ".mozilla.org"
  const AllizomDomain := ".allizom.org"

  /** The host `getHostName` looks at: its argument when that is a string, else
      the page's own host name. */
  function HostToCheck(hostname: JsValue, pageHost: string): string {
    if hostname.Str? then hostname.s else pageHost
  }

  /** `getHostName`: the parent domain to scope the consent cookie to, or `None`
      (JavaScript's `null`) for a host that is neither a production nor a staging
      Mozilla host. */
  function GetHostName(hostname: JsValue, pageHost: string): (r: Option<string>)
    ensures var url := HostToCheck(hostname, pageHost);
      && (r == Some(MozillaDomain) <==> Contains(url, MozillaDomain))
      && (r == Some(AllizomDomain) <==> Contains(url, AllizomDomain) && !Contains(url, MozillaDomain))
      && (r == None <==> !Contains(url, MozillaDomain) && !Contains(url, AllizomDomain))
  {
    var url := if hostname.Str? then hostname.s else pageHost;
    var domain := if IndexOf(url, AllizomDomain, 0) != -1 then Some(AllizomDomain) else None;
    if IndexOf(url, MozillaDomain, 0) != -1 then Some(MozillaDomain) else domain
  }

  /** The cookie domain `init` stores: the inferred domain, or `null`. */
  function DomainValue(d: Option<string>): JsValue {
    match d
    case Some(s) => Str(s)
    case None => Null
  }

  /** The value `config` gives option `key`, or the option's default when it gives none. */
  function Configured(config: UserConfig, key: string): JsValue
    requires IsOptionKey(key)
  {
    match Lookup(config, key)
    case Some(v) => v
    case None => Field(Defaults, key)
  }

  /** The options `init` leaves in place: the config over the defaults, with a falsy
      `cookieDomain` replaced by the domain inferred from the page's host. */
  function ResolveOptions(config: UserConfig, pageHost: string): (r: Options)
    ensures forall key | IsOptionKey(key) && key != "cookieDomain" :: Field(r, key) == Configured(config, key)
    ensures r.cookieDomain ==
      if ToBoolean(Configured(config, "cookieDomain")) then Configured(config, "cookieDomain")
      else DomainValue(GetHostName(Undefined, pageHost))
  {
    var merged := Overlay(Defaults, config);
    if ToBoolean(merged.cookieDomain) then merged
    else merged.(cookieDomain := DomainValue(GetHostName(Undefined, pageHost)))
  }

  // ---------------------------------------------------------------- properties

  /** A config holding only a helper resolves to the documented defaults. */
  lemma HelperOnlyConfig(helper: JsValue, pageHost: string)
    ensures ResolveOptions([("helper", helper)], pageHost) ==
      Options(DomainValue(GetHostName(Undefined, pageHost)), Num(182), Str("moz-consent-pref"), Bool(false), helper)
  {
    var config := [("helper", helper)];
    assert config[..0] == [];
    assert Overlay(Defaults, config) == SetOption(Defaults, "helper", helper);
    assert SetOption(Defaults, "helper", helper) == Defaults.(helper := helper);
  }

  /** Without a helper in the config, initialisation can never validate. */
  lemma MissingHelperFails(config: UserConfig, pageHost: string)
    requires Lookup(config, "helper").None?
    ensures VerifyOptions(ResolveOptions(config, pageHost)) != MsgValid
  {
  }

  /** A truthy configured domain, such as "www.example.com", is used as given and
      the page's host is not consulted. */
  lemma ConfiguredDomainKept(config: UserConfig, pageHost: string, domain: JsValue)
    requires Lookup(config, "cookieDomain") == Some(domain) && ToBoolean(domain)
    ensures ResolveOptions(config, pageHost).cookieDomain == domain
  {
  }

  /** A config that leaves `optOut` out gets the opt-in default, which passes
      validation; only an `optOut` property present with a non-boolean value fails. */
  lemma OmittedOptOutIsOptIn(config: UserConfig, pageHost: string)
    requires Lookup(config, "optOut").None?
    ensures ResolveOptions(config, pageHost).optOut == Bool(false)
  {
  }

  lemma NonBooleanOptOutFails(config: UserConfig, pageHost: string)
    requires Lookup(config, "optOut").Some? && !Lookup(config, "optOut").value.Bool?
    ensures VerifyOptions(ResolveOptions(config, pageHost)) != MsgValid
  {
  }

  /** Only the type of `cookieExpiryDays` is checked: zero or a negative number of
      days passes validation just as 182 does. */
  lemma AnyExpiryNumberAccepted(o: Options, n: int)
    ensures VerifyOptions(o.(cookieExpiryDays := Num(n))) == VerifyOptions(o.(cookieExpiryDays := Num(CookieExpiryDays)))
  {
  }

  /** A host containing both substrings gets the production domain. */
  lemma MozillaBeatsAllizom(url: string, pageHost: string)
    requires Contains(url, MozillaDomain) && Contains(url, AllizomDomain)
    ensures GetHostName(Str(url), pageHost) == Some(MozillaDomain)
  {
  }

  /** Wherever `sub` occurs in `s`, its `k`-th character is in place. */
  lemma OccurrenceChar(s: string, sub: string, k: nat)
    requires k < |sub|
    ensures forall i :: OccursAt(s, sub, i) ==> s[i + k] == sub[k]
  {
    forall i | OccursAt(s, sub, i) ensures s[i + k] == sub[k] {
      assert s[i..i + |sub|][k] == s[i + k];
    }
  }

  /** Any subdomain of mozilla.org gets the production domain. */
  lemma ProductionSubdomain(hostname: JsValue, pageHost: string, subdomain: string)
    requires HostToCheck(hostname, pageHost) == subdomain + MozillaDomain
    ensures GetHostName(hostname, pageHost) == Some(MozillaDomain)
  {
    var url := subdomain + MozillaDomain;
    assert url[|subdomain|..|subdomain| + |MozillaDomain|] == MozillaDomain;
    assert OccursAt(url, MozillaDomain, |subdomain|);
  }

  /** A one-label subdomain of allizom.org gets the staging domain. */
  lemma StagingSubdomain(hostname: JsValue, pageHost: string, subdomain: string)
    requires HostToCheck(hostname, pageHost) == subdomain + AllizomDomain
    requires '.' !in subdomain
    ensures GetHostName(hostname, pageHost) == Some(AllizomDomain)
  {
    var url := subdomain + AllizomDomain;
    assert url[|subdomain|..|subdomain| + |AllizomDomain|] == AllizomDomain;
    assert OccursAt(url, AllizomDomain, |subdomain|);
    OccurrenceChar(url, MozillaDomain, 0);
    OccurrenceChar(url, MozillaDomain, 1);
    forall i ensures !OccursAt(url, MozillaDomain, i) {
      if 0 <= i < |subdomain| {
        assert url[i] == subdomain[i];
        assert subdomain[i] in subdomain;
      } else if i == |subdomain| {
        assert url[i + 1] == 'a';
      }
    }
  }

  /** The production host the documentation names shares its cookie across mozilla.org. */
  lemma SupportHost(pageHost: string)
    ensures GetHostName(Str("support.mozilla.org"), pageHost) == Some(".mozilla.org")
  {
    assert "support" + MozillaDomain == "support.mozilla.org";
    ProductionSubdomain(Str("support.mozilla.org"), pageHost, "support");
  }

  /** A staging host shares its cookie across allizom.org. */
  lemma DevHost(pageHost: string)
    ensures GetHostName(Str("www-dev.allizom.org"), pageHost) == Some(".allizom.org")
  {
    assert "www-dev" + AllizomDomain == "www-dev.allizom.org";
    StagingSubdomain(Str("www-dev.allizom.org"), pageHost, "www-dev");
  }

  /** A string argument replaces the page's host even when it is empty. */
  lemma OtherHosts(pageHost: string)
    ensures GetHostName(Str("example.com"), pageHost) == None
    ensures GetHostName(Str(""), pageHost) == None
    ensures GetHostName(Undefined, "localhost") == None
  {
  }
}
