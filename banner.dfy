/** The consent banner controller (`MozConsentBanner` of src/index.js): the
    consent cookie read and written through the injected helper, `init`, and the
    accept and reject handlers. Dispatching an event appends it to a log. */
module Banner {
  import opened Wrappers
  import opened Props
  import opened Json
  import opened Config
  import opened Preferences

  const EventStatus := "mozConsentStatus"
  const EventOpen := "mozConsentOpen"
  const EventClose := "mozConsentClose"
  const EmptyObject := JObj([])

  /** A dispatched event: its name and its `detail`. */
  datatype Event = Event(name: string, detail: JsonVal)

  /** One call `helper.setItem(key, value, expires, path, domain, secure, sameSite)`.
      The expiry date is represented by the number of days it lies ahead. */
  datatype SetItemCall = SetItemCall(
    key: JsValue,
    value: string,
    expiryDays: JsValue,
    path: string,
    domain: JsValue,
    secure: bool,
    sameSite: string)

  /** The cookies the helper can see: raw string values by cookie name. */
  type CookieJar = map<JsValue, string>

  // ---------------------------------------------------------------- cookie access

  /** `setConsentCookie` gets as far as calling `setItem`: the options exist and
      the helper has a `setItem` function; otherwise reading them throws first. */
  predicate ReachesSetItem(options: Option<Options>) {
    options.Some? && HasSetItem(options.value.helper)
  }

  /** ... and `setItem` returns normally. */
  predicate WriteSucceeds(options: Option<Options>) {
    ReachesSetItem(options) && !options.value.helper.api.setThrows
  }

  /** `getConsentCookie` gets past the helper: the options exist and the helper is
      an object whose `hasItem` and `getItem` do not throw. */
  predicate CanRead(options: Option<Options>) {
    options.Some? && options.value.helper.Obj? && !options.value.helper.api.readThrows
  }

  /** The arguments `setConsentCookie(data)` passes to `setItem`. */
  function SetItemCallFor(o: Options, data: JsonVal): SetItemCall {
    SetItemCall(o.cookieID, Encode(data), o.cookieExpiryDays, "/", o.cookieDomain, false, "lax")
  }

  /** `getConsentCookie`: the parsed cookie value, or `false` when the cookie is
      absent or reading or parsing it throws. */
  function GetConsentCookie(options: Option<Options>, jar: CookieJar): (r: JsonVal)
    ensures r == JBool(false) ||
      (CanRead(options) && options.value.cookieID in jar && Parse(jar[options.value.cookieID]) == Some(r))
    ensures !CanRead(options) || options.value.cookieID !in jar ==> r == JBool(false)
    ensures CanRead(options) && options.value.cookieID in jar && Parse(jar[options.value.cookieID]).Some? ==>
              r == Parse(jar[options.value.cookieID]).value
  {
    if !CanRead(options) then JBool(false)
    else if options.value.cookieID !in jar then JBool(false)
    else
      match Parse(jar[options.value.cookieID])
      case None => JBool(false)
      case Some(v) => v
  }

  // ---------------------------------------------------------------- init

  /** The events `init` dispatches once its options are resolved to `o`: none
      when they fail validation, otherwise a well-formed sequence without `close`. */
  function InitEvents(o: Options, jar: CookieJar): (r: seq<Event>)
    ensures r == [] <==> !Usable(o)
    ensures EventsWellFormed(r)
    ensures forall i :: 0 <= i < |r| ==> r[i].name != EventClose
  {
    if VerifyOptions(o) != MsgValid then []
    else
      var consent := GetConsentCookie(Some(o), jar);
      if Truthy(consent) then [Event(EventStatus, consent)]
      else [Event(EventOpen, EmptyObject)] + (if ToBoolean(o.optOut) then [Event(EventStatus, OptOutPayload)] else [])
  }

  /** Every event is one of the three the banner knows; `open` and `close` carry
      an empty object; every `close` directly follows a `status`. */
  predicate EventsWellFormed(events: seq<Event>) {
    (forall i :: 0 <= i < |events| ==>
      events[i].name == EventStatus ||
      ((events[i].name == EventOpen || events[i].name == EventClose) && events[i].detail == EmptyObject)) &&
    (forall i :: 0 <= i < |events| && events[i].name == EventClose ==> 0 < i && events[i - 1].name == EventStatus)
  }

  /** Every cookie written is site-wide, not secure-only and `SameSite=Lax`. */
  predicate CallsWellFormed(calls: seq<SetItemCall>) {
    forall i :: 0 <= i < |calls| ==> calls[i].path == "/" && !calls[i].secure && calls[i].sameSite == "lax"
  }

  // ---------------------------------------------------------------- properties

  /** An event may be dispatched after `events` when it is a status, or an open or
      close with an empty object, and a close only directly after a status. */
  predicate MayFollow(events: seq<Event>, e: Event) {
    e.name == EventStatus ||
    (e.name == EventOpen && e.detail == EmptyObject) ||
    (e.name == EventClose && e.detail == EmptyObject && events != [] && events[|events| - 1].name == EventStatus)
  }

  /** A well-formed log stays well-formed after one more event exactly when the
      event may follow it. */
  lemma AppendKeepsWellFormed(events: seq<Event>, e: Event)
    requires EventsWellFormed(events)
    ensures EventsWellFormed(events + [e]) <==> MayFollow(events, e)
  {
    var extended := events + [e];
    if EventsWellFormed(extended) {
      assert extended[|events|] == e;
      if e.name == EventClose {
        assert extended[|events| - 1] == events[|events| - 1];
      }
    }
  }

  /** With a helper that keeps what it is given, reading the cookie back gives
      exactly the value that was written. */
  lemma WriteThenRead(o: Options, jar: CookieJar, data: JsonVal)
    requires WriteSucceeds(Some(o)) && !o.helper.api.readThrows
    ensures GetConsentCookie(Some(o), jar[o.cookieID := Encode(data)]) == data
  {
  }

  /** Once a choice is stored, the next `init` announces it and never opens the banner. */
  lemma ChoiceRemembered(o: Options, jar: CookieJar, c: Consent)
    requires Usable(o) && !o.helper.api.setThrows && !o.helper.api.readThrows
    ensures InitEvents(o, jar[o.cookieID := Encode(ConsentJson(c))]) == [Event(EventStatus, ConsentJson(c))]
  {
    StoredChoiceAnnounced(o, jar[o.cookieID := Encode(ConsentJson(c))], c);
  }

  /** Stored consent is announced once, as stored, and the banner stays closed. */
  lemma StoredConsentAnnounced(o: Options, jar: CookieJar)
    requires Usable(o) && Truthy(GetConsentCookie(Some(o), jar))
    ensures |InitEvents(o, jar)| == 1
    ensures InitEvents(o, jar)[0] == Event(EventStatus, GetConsentCookie(Some(o), jar))
  {
  }

  /** Without stored consent the banner opens; in opt-out mode an all-true status
      follows the open. */
  lemma NoConsentOpensBanner(o: Options, jar: CookieJar)
    requires Usable(o) && !Truthy(GetConsentCookie(Some(o), jar))
    ensures InitEvents(o, jar)[0] == Event(EventOpen, EmptyObject)
    ensures |InitEvents(o, jar)| == if o.optOut.b then 2 else 1
    ensures o.optOut.b ==> InitEvents(o, jar)[1] == Event(EventStatus, OptOutPayload)
  {
  }

  /** A cookie that holds the text of a choice is announced as that choice,
      however it got there. */
  lemma StoredChoiceAnnounced(o: Options, jar: CookieJar, c: Consent)
    requires Usable(o) && !o.helper.api.readThrows
    requires o.cookieID in jar && jar[o.cookieID] == Encode(ConsentJson(c))
    ensures InitEvents(o, jar) == [Event(EventStatus, ConsentJson(c))]
  {
    assert GetConsentCookie(Some(o), jar) == ConsentJson(c);
  }

  /** A stored rejection is announced as such on the next page load. */
  lemma StoredRejectionAnnounced(o: Options, jar: CookieJar)
    requires Usable(o) && !o.helper.api.readThrows
    requires o.cookieID in jar && jar[o.cookieID] == "{\"analytics\":false,\"preference\":false}"
    ensures InitEvents(o, jar) == [Event(EventStatus, ConsentJson(Rejected))]
  {
    RejectedCookieText();
    StoredChoiceAnnounced(o, jar, Rejected);
  }

  class MozConsentBanner {
    /** The module-level `options`: `None` until `init` first runs. */
    var options: Option<Options>
    /** The cookies the helper reads and writes. */
    var jar: CookieJar
    /** Every call made to `helper.setItem`, in order. */
    var setItemCalls: seq<SetItemCall>
    /** Every event dispatched, in order. */
    var events: seq<Event>

    ghost predicate Valid()
      reads this
    {
      EventsWellFormed(events) && CallsWellFormed(setItemCalls)
    }

    /** A page load: no options yet, the cookies the browser already holds. */
    constructor (cookies: CookieJar)
      ensures Valid()
      ensures options == None && jar == cookies && setItemCalls == [] && events == []
    {
      options := None;
      jar := cookies;
      setItemCalls := [];
      events := [];
    }

    /** `dispatchEvent`: listeners see the event before the call returns. */
    method DispatchEvent(name: string, detail: JsonVal)
      requires Valid() && MayFollow(events, Event(name, detail))
      modifies this`events
      ensures Valid()
      ensures events == old(events) + [Event(name, detail)]
    {
      AppendKeepsWellFormed(events, Event(name, detail));
      events := events + [Event(name, detail)];
    }

    /** `setConsentCookie`: stores `data` as JSON under the configured cookie name
      and reports whether the helper accepted it; never throws. */
    method SetConsentCookie(data: JsonVal) returns (ok: bool)
      requires Valid()
      modifies this`jar, this`setItemCalls
      ensures Valid()
      ensures ok == WriteSucceeds(options)
      ensures setItemCalls == old(setItemCalls) + if ReachesSetItem(options) then [SetItemCallFor(options.value, data)] else []
      ensures jar == if ok then old(jar)[options.value.cookieID := Encode(data)] else old(jar)
    {
      if !ReachesSetItem(options) {
        // reading `options.cookieExpiryDays` or calling `options.helper.setItem` throws
        return false;
      }
      var o := options.value;
      setItemCalls := setItemCalls + [SetItemCallFor(o, data)];
      if o.helper.api.setThrows {
        return false;
      }
      jar := jar[o.cookieID := Encode(data)];
      return true;
    }

    /** `onAcceptClick`: store and announce the all-true record, then close. */
    method OnAcceptClick()
      requires Valid()
      modifies this`jar, this`setItemCalls, this`events
      ensures Valid()
      ensures events == old(events) + [Event(EventStatus, ConsentJson(Accepted)), Event(EventClose, EmptyObject)]
      ensures setItemCalls == old(setItemCalls) +
        if ReachesSetItem(options) then [SetItemCallFor(options.value, ConsentJson(Accepted))] else []
      ensures jar == if WriteSucceeds(options) then old(jar)[options.value.cookieID := Encode(ConsentJson(Accepted))] else old(jar)
    {
      var preferences := ConsentJson(Accepted);
      var stored := SetConsentCookie(preferences);
      DispatchEvent(EventStatus, preferences);
      DispatchEvent(EventClose, EmptyObject);
    }

    /** `onRejectClick`: store and announce the all-false record, then close. */
    method OnRejectClick()
      requires Valid()
      modifies this`jar, this`setItemCalls, this`events
      ensures Valid()
      ensures events == old(events) + [Event(EventStatus, ConsentJson(Rejected)), Event(EventClose, EmptyObject)]
      ensures setItemCalls == old(setItemCalls) +
        if ReachesSetItem(options) then [SetItemCallFor(options.value, ConsentJson(Rejected))] else []
      ensures jar == if WriteSucceeds(options) then old(jar)[options.value.cookieID := Encode(ConsentJson(Rejected))] else old(jar)
    {
      var preferences := ConsentJson(Rejected);
      var stored := SetConsentCookie(preferences);
      DispatchEvent(EventStatus, preferences);
      DispatchEvent(EventClose, EmptyObject);
    }

    /** `init`: resolve and install the options, validate them, then either
      announce the stored consent or open the banner. */
    method Init(config: UserConfig, pageHost: string) returns (ok: bool)
      requires Valid()
      modifies this`options, this`events
      ensures Valid()
      ensures options == Some(ResolveOptions(config, pageHost))
      ensures ok == Usable(options.value)
      ensures events == old(events) + InitEvents(options.value, jar)
    {
      var merged := MergeConfig(config);
      options := Some(merged);
      if !ToBoolean(merged.cookieDomain) {
        options := Some(merged.(cookieDomain := DomainValue(GetHostName(Undefined, pageHost))));
      }
      var o := options.value;
      assert o == ResolveOptions(config, pageHost);

      var configValidationMsg := VerifyOptions(o);
      if configValidationMsg != MsgValid {
        assert InitEvents(o, jar) == [];
        return false;
      }

      var consent := GetConsentCookie(options, jar);
      ghost var announced := InitEvents(o, jar);
      if Truthy(consent) {
        DispatchEvent(EventStatus, consent);
        assert announced == [Event(EventStatus, consent)];
      } else {
        DispatchEvent(EventOpen, EmptyObject);
        if ToBoolean(o.optOut) {
          DispatchEvent(EventStatus, OptOutPayload);
          assert announced == [Event(EventOpen, EmptyObject), Event(EventStatus, OptOutPayload)];
        } else {
          assert announced == [Event(EventOpen, EmptyObject)];
        }
      }
      return true;
    }
  }

  /** The options a staging page resolves from a config holding only a helper. */
  lemma StagingOptions(helper: JsValue, subdomain: string)
    requires '.' !in subdomain
    ensures ResolveOptions([("helper", helper)], subdomain + AllizomDomain) ==
      Options(Str(AllizomDomain), Num(CookieExpiryDays), Str(CookieId), Bool(false), helper)
  {
    HelperOnlyConfig(helper, subdomain + AllizomDomain);
    StagingSubdomain(Undefined, subdomain + AllizomDomain, subdomain);
  }

  /** The walk-through of a first visit to a staging host: no stored cookie,
      a config holding only a helper, then a click on accept. */
  method StagingFirstVisit() {
    var host := "www" + AllizomDomain;
    assert host == "www.allizom.org";
    var api := HelperApi(hasSetItem := true, cookiesEnabled := true, setThrows := false, readThrows := false);
    var o := Options(Str(AllizomDomain), Num(CookieExpiryDays), Str(CookieId), Bool(false), Obj(api));
    StagingOptions(Obj(api), "www");
    assert Usable(o);
    assert InitEvents(o, map[]) == [Event(EventOpen, EmptyObject)];

    var banner := new MozConsentBanner(map[]);
    var ok := banner.Init([("helper", Obj(api))], host);
    assert ok;
    var shown := banner.events;
    assert shown == [Event(EventOpen, EmptyObject)];

    banner.OnAcceptClick();
    AcceptedCookieText();
    assert banner.setItemCalls == [SetItemCall(Str(CookieId), "{\"analytics\":true,\"preference\":true}",
                                               Num(CookieExpiryDays), "/", Str(AllizomDomain), false, "lax")];
    assert banner.events == shown + [Event(EventStatus, ConsentJson(Accepted)), Event(EventClose, EmptyObject)];
  }
}
