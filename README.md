# Consent banner controller, in Dafny

A model of `MozConsentBanner` from `src/index.js` of the Mozilla consent banner.
The controller does four things:

- It reads the visitor's cookie-consent choice from a cookie through an injected cookie helper.
- `init` resolves the banner's options from the caller's config and validates them. It then either announces the stored choice (`mozConsentStatus`) or asks the page to open the banner (`mozConsentOpen`). In opt-out mode, an all-true status follows the open.
- The accept and reject handlers write the choice to the cookie and announce it. They then ask the page to close the banner (`mozConsentClose`).
- `getHostName` infers the parent domain the cookie is scoped to.

Files:

- `wrappers.dfy` defines `Option`.
- `props.dfy` defines property lookup in an object written as an ordered list of key/value pairs.
- `json.dfy` defines JSON values, their truthiness, and `JSON.stringify`/`JSON.parse` over the values the banner stores. The round trip between them is proved.
- `config.dfy` holds the JavaScript values a config may carry, the options record and its defaults, the `for...in` merge, `verifyOptions` and `getHostName`.
- `preferences.dfy` holds the consent record, the opt-out payload and the exact cookie text.
- `banner.dfy` holds the controller: a class whose fields are the module-level `options`, the helper's cookie jar, the log of `setItem` calls and the log of dispatched events.

The model has two inputs from outside. The page's own host name (`window.location.hostname`) is the parameter `pageHost`. The cookie helper is a `JsValue.Obj` whose flags say four things:

- whether it has `setItem`;
- what `enabled()` reports;
- whether `setItem` throws;
- whether `hasItem`/`getItem` throw.

Cookies the helper holds are a map from cookie name to raw text.

### How validation treats two options

- **Expiry days.** The option is documented only as the cookie's expiry in days (src/index.js:177). `verifyOptions` checks only `typeof === 'number'` (src/index.js:150-153). Zero and negative numbers therefore pass validation (`Config.AnyExpiryNumberAccepted`).
- **`optOut`.** The option is documented as switching the banner to opt-out (src/index.js:180). Its default is `false` (src/index.js:196), so a config that omits it resolves to `false` and validates (`Config.OmittedOptOutIsOptIn`). Only a value that is present and not a boolean fails, as the test that sets `optOut` to `null` shows (tests/index.js:364-367; `Config.NonBooleanOptOutFails`).

## Model

| member | source | states |
|---|---|---|
| Props.Lookup | src/index.js:201-205 | A property read from a config: absent exactly when no pair has the key, otherwise the value of the last pair with that key |
| Config.ToBoolean | src/index.js:213 | A configuration value is falsy exactly when it is `undefined`, `null`, `false`, `0` or the empty string; every object is truthy |
| Config.SetOption | src/index.js:203 | `defaults[opt] = config[opt]` changes exactly the named option and leaves every other option as it was; unknown keys change nothing |
| Config.Overlay | src/index.js:192-205 | After copying the config's properties, each option is the config's value when the config has the key (the last one, should a key repeat), and its earlier value otherwise |
| Config.MergeConfig | src/index.js:192-207 | The `for...in` loop over the config leaves exactly the overlay of the config onto the defaults |
| Config.VerifyOptions | src/index.js:149-171 | Returns one of the five fixed messages, and returns success exactly when the expiry is a number, the helper has `setItem`, `optOut` is a boolean and `enabled()` is true |
| Config.FirstFailure | src/index.js:149-171 | Success when every check passes; otherwise the message of a failing check before which every check passed, that is, the first failing one |
| Config.VerifyOptionsIsFirstFailure | src/index.js:149-171 | Validation returns the message of the first failing check, in the source's order |
| Config.VerifyOptionsMessages | src/index.js:150-168 | Each error message is returned exactly when its check fails and every earlier check passes; "cookies are disabled" implies a helper with `setItem` was present |
| Config.MessagesDistinct | src/index.js:14-19 | The five messages are pairwise distinct |
| Config.IndexOf | src/index.js:75 | `indexOf` gives the first position at or after the start where the substring occurs, or -1 when it occurs nowhere |
| Config.GetHostName | src/index.js:70-84 | `.mozilla.org` exactly when the host contains it; `.allizom.org` exactly when the host contains that and not `.mozilla.org`; null exactly when it contains neither. A string argument replaces the page host |
| Config.MozillaBeatsAllizom | src/index.js:75-81 | A host containing both substrings gets `.mozilla.org` |
| Config.ProductionSubdomain | src/index.js:79-81 | Any host ending in `.mozilla.org` gets `.mozilla.org` |
| Config.StagingSubdomain | src/index.js:75-81 | A one-label subdomain of `allizom.org` gets `.allizom.org` |
| Config.SupportHost | tests/index.js:387-388 | `support.mozilla.org` gives `.mozilla.org` |
| Config.DevHost | tests/index.js:398-399 | `www-dev.allizom.org` gives `.allizom.org` |
| Config.OtherHosts | src/index.js:70-84 | `example.com` and the empty string give null whatever the page host; no argument on a `localhost` page gives null |
| Config.ResolveOptions | src/index.js:192-215 | Every resolved option but `cookieDomain` is the config's value or its default; `cookieDomain` is the configured or default value when that is truthy, and otherwise the domain inferred from the page host (`null` when there is none) |
| Config.HelperOnlyConfig | src/index.js:192-215 | A config with only a helper gives the documented defaults: expiry 182, cookie `moz-consent-pref`, opt-in, and the inferred domain |
| Config.MissingHelperFails | src/index.js:155-158 | Without a helper in the config, validation of the resolved options never succeeds |
| Config.ConfiguredDomainKept | src/index.js:213-215 | A truthy configured `cookieDomain` is kept as given |
| Config.OmittedOptOutIsOptIn | src/index.js:192-205 | A config that omits `optOut` resolves it to `false` |
| Config.NonBooleanOptOutFails | src/index.js:160-163 | A config whose `optOut` is present but not a boolean never validates |
| Config.AnyExpiryNumberAccepted | src/index.js:150-153 | Validation does not depend on which number the expiry is |
| Json.Truthy | src/index.js:235 | A parsed cookie value is falsy exactly when it is `null`, `false`, `0` or the empty string; every array and object, even an empty one, is truthy |
| Json.Encode | src/index.js:35 | `JSON.stringify` never writes empty text, and its text never starts with `]` or `}`, so a parser can tell a first item from the end of an array or object |
| Json.NatToString | src/index.js:35 | A number is written as a non-empty run of decimal digits |
| Json.DigitPrefix | src/index.js:57 | The parser reads exactly the leading run of digits |
| Json.DigitsValueOfNatToString | src/index.js:35 | The digits written for n denote n |
| Json.NumberRoundTrip | src/index.js:35-57 | Parsing the text written for an integer gives it back and stops just after it |
| Json.EscapeCharDecodes | src/index.js:35-57 | Every escaped character reads back as itself and never looks like a closing quote |
| Json.PlainStringUnescaped | src/index.js:35 | A string with no quote, backslash or control character is written unchanged |
| Json.StringBodyRoundTrip | src/index.js:35-57 | Reading an escaped string body gives back the string and what follows its quote |
| Json.ValueRoundTrip | src/index.js:35-57 | Reading the text written for any value, followed by a delimiter, gives back the value and the delimiter |
| Json.ItemsRoundTrip | src/index.js:35-57 | The same for the items of an array |
| Json.MembersRoundTrip | src/index.js:35-57 | The same for the members of an object, in order |
| Json.ParseEncoded | src/index.js:35-57 | Reading a value from the text `JSON.stringify` wrote for `v` gives `v` and consumes all of the text |
| Json.Parse | src/index.js:57 | `JSON.parse` of any text that `JSON.stringify` wrote for a value `v` gives `v` back |
| Preferences.AcceptedCookieText | src/index.js:120-125 | Accepting writes the cookie text `{"analytics":true,"preference":true}` |
| Preferences.RejectedCookieText | src/index.js:134-139 | Rejecting writes the cookie text `{"analytics":false,"preference":false}` |
| Preferences.OptOutPayloadIsAcceptance | src/index.js:245-248 | The opt-out status payload has every property equal to the accepted record's |
| Banner.GetConsentCookie | src/index.js:53-62 | When the helper reads without throwing, the cookie exists and its text parses, the result is the parsed value. In every other case (reading throws, no cookie, text that does not parse) it is `false` |
| Banner.WriteThenRead | src/index.js:27-62 | With a helper that stores faithfully, reading the cookie after writing a value gives that value |
| Banner.InitEvents | src/index.js:220-250 | `init` dispatches no event exactly when the options fail validation, as it returns at src/index.js:222-227 before any dispatch; otherwise its events form a well-formed log and none of them is `close` |
| Banner.AppendKeepsWellFormed | src/index.js:92-142 | A well-formed event log stays well-formed after one more event exactly when the event is a status, an open or close carrying `{}`, and a close only directly after a status |
| Banner.StoredChoiceAnnounced | src/index.js:233-236 | A cookie holding the text written for a choice is announced as that choice, whoever wrote it |
| Banner.ChoiceRemembered | src/index.js:233-236 | After a choice has been stored, `init` announces that choice and does not open the banner |
| Banner.StoredRejectionAnnounced | src/index.js:233-236 | A stored rejection cookie is announced as the rejected record |
| Banner.StoredConsentAnnounced | src/index.js:233-236 | Stored truthy consent gives exactly one status event carrying it |
| Banner.NoConsentOpensBanner | src/index.js:237-250 | Without stored consent the first event is `open` with `{}`; a second event, the all-true status, comes exactly when `optOut` is true |
| Banner.MozConsentBanner.DispatchEvent | src/index.js:92-114 | The event is appended to the log and nothing else changes. Called only with an event that may follow the log, it keeps the log well-formed |
| Banner.MozConsentBanner.SetConsentCookie | src/index.js:27-47 | Returns true exactly when `setItem` is reached and does not throw. It records one `setItem` call with path `/`, not secure and `lax` when the helper has `setItem`, and none otherwise. It updates the cookie only on success. The event log and well-formedness are unaffected |
| Banner.MozConsentBanner.OnAcceptClick | src/index.js:119-128 | Writes the all-true record as above, then appends status(all-true) and close({}), whether or not the write succeeded |
| Banner.MozConsentBanner.OnRejectClick | src/index.js:133-142 | The same with the all-false record |
| Banner.MozConsentBanner.Init | src/index.js:188-253 | Replaces the options with the resolved ones, whatever they were before. Returns whether they validate. Appends exactly the events the resolved options and the stored cookie call for. Never touches the cookies or `setItem` |
| Banner.StagingOptions | src/index.js:192-215 | A page on a one-label subdomain of `allizom.org` whose config holds only a helper resolves to domain `.allizom.org` with the default expiry, cookie name and opt-in |

## Left out

- `dispatchEvent`'s three browser code paths (`CustomEvent`, `createEvent`, `createEventObject`) are one append to the event log. Listeners are outside the model.
- The expiry date is recorded as `cookieExpiryDays` itself. Date arithmetic and `toUTCString()` depend on the clock.
- `console.error` on a validation failure is not modelled. It is output only.
- The unused `eventName` default is not modelled. No code reads it, and a config key of that name changes nothing in the model.
- Numbers are integers. Fractions, `NaN` and `Infinity` are not modelled. They would still pass the `typeof` check, as every `Num` does. Integers are unbounded and kept exact, where `JSON.parse` rounds an integer beyond 2^53 to the nearest double.
- Json.Parse: accepts what `JSON.stringify` writes, `\u` escapes with lower- or upper-case hex digits, and `\/`, as `JSON.parse` does. It rejects whitespace anywhere in the text (before, between or after tokens), fractions and exponents, and an escaped surrogate pair such as `"\ud83d\ude00"`, which `JSON.parse` reads as one character. For a stored cookie in one of those forms, `Banner.GetConsentCookie` gives `false` where the source gives the parsed value, so for a truthy stored value `init` opens the banner where the source announces it (src/index.js:233-236). For a falsy one, such as ` 0` or ` false`, both open the banner. The banner itself never writes such text.
- Json.Parse: keeps every member of an object whose keys repeat, in order, so `{"a":1,"a":2}` has two members. `JSON.parse` keeps only the last value. A status event announcing such a cookie carries the repeated members in the model.
- Strings are sequences of Unicode scalar values. JavaScript's UTF-16 code units and lone surrogates are not modelled.
- The cookie helper library is a set of flags plus a map. Its cookie-name coercion, its own encoding of values, and browser refusals that do not throw are not modelled.
- A helper object with `setItem` but no `enabled` function would make `init` throw. That case is not modelled; every helper reports `enabled()`.
- A non-string `cookieID` is used as the map key directly. JavaScript would turn it into a string.
- A config object cannot hold a key twice in JavaScript; a `UserConfig` can, and the merge then takes the last pair for that key.
- `demo/main.js` (button wiring and styles) and the webpack configurations are not part of this model.
