# reCAPTCHA manager — a Dafny model

This project models the manager class `Recaptcha` of the Pollen reCAPTCHA plugin. The plugin adds
Google reCAPTCHA (version 2 or 3) widgets to a PHP framework's fields and forms. The manager does five things:

- it validates the site and secret keys, site key first (`checkConfig`);
- it coerces the configured version to 2 or 3 (`getVersion`);
- it maps the locale to a reCAPTCHA language code (`getLanguage`);
- it keeps an ordered registry of rendered widget ids (`addWidgetRender`). It hands the bootstrap script
  to the page's asset queue once (`assetsAutoloader`);
- it builds that bootstrap script (`getJsScripts`): a `reCaptchaCallback` function for the configured
  version, then a lazy loader. The loader observes each widget's `<id>-intersectionObserver` wrapper
  and injects the library script the first time a wrapper becomes fully visible.

For a submitted form, it resolves the response token and the remote IP, then asks the verification
library, through a client it builds once (`getHandleResponse`, `isResponseValid`, `reCaptchaDriver`).

Layout:

- `wrappers.dfy`: `Option`, `Result` and `Outcome`. They stand for PHP's `null` and for exceptions.
- `php.dfy`: PHP value semantics used by the code: truthiness, `empty()` on strings, `=== true`.
- `config.dfy`: the configuration record, `CheckConfig`, `VersionOf`, `LanguageOf` and their lemmas.
- `script.dfy`: the script as a sequence of `Piece`s. There is one piece per `.=` in `getJsScripts`,
  except that each of the lazy loader's three runs of consecutive fixed lines is one piece.
  `Text` gives each piece's exact text and `Render` gives the whole string. The module also holds the
  specification function `ScriptFor` and `Targets`, which reads a script back (which ids it fills,
  renders or observes, which site key it executes with, which URL it loads, whether it logs).
- `script_facts.dfy`: what every generated script contains, proved from `ScriptFor`.
- `verification.dfy`: token and remote-IP resolution, and the verification client value.
- `manager.dfy`: the class `Recaptcha` and its state: `widgetIds`, `assetsAutoloaded`, the cached
  `driver`, and a ghost record of the scripts handed to the asset queue. Its methods are proved against
  the specification functions. The parts of `getJsScripts` sit in helper methods: `BuildCallback`
  and `AppendLoader`, and one method per `foreach` loop (`AppendTokenFills`, `AppendRenders`,
  `AppendObservers`).

Two behaviours of the code are easy to misread:

- `getLanguage` falls back to `explode("_", $locale, 1)`. A limit of 1 returns one element, the whole
  locale, so an unlisted locale is returned unchanged. `en_US`, the default, yields `en_US`, not `en`
  (`LanguageFallbackKeepsLocale`).
- `assetsAutoloader` captures the script by value when it first schedules it. Widgets rendered after
  that are registered but are not in the scheduled script (`TwoFieldsOnePage`): it observes, fills
  or renders only the ids registered at the first render.

## Model

| member | source | states |
|---|---|---|
| `RecaptchaConfig.CheckConfig` | src/Recaptcha.php:179-190 | returns normally iff both keys are truthy; the site-key error iff the site key is falsy (null, "" or "0"); the secret-key error iff the site key is truthy and the secret key falsy |
| `RecaptchaConfig.SiteKeyErrorFirst` | src/Recaptcha.php:181-186 | a falsy site key raises the site-key error whatever the secret key is |
| `RecaptchaConfig.VersionOf` | src/Recaptcha.php:388-393 | the version is always 2 or 3; a configured 2 or 3 is kept; it is 2 exactly when 2 is configured, so any other value (or none) gives 3 |
| `RecaptchaConfig.LanguageOf` | src/Recaptcha.php:326-367 | the Spanish-American locales give `es-419`; a locale outside the table is returned unchanged; an unset locale reads as `en_US` |
| `RecaptchaConfig.LanguageRegionalCodes` | src/Recaptcha.php:332-355 | zh_CN, zh_TW, en_GB, fr_CA, de_AT, de_CH, pt_BR and pt_PT give zh-CN, zh-TW, en-GB, fr-CA, de-AT, de-CH, pt-BR and pt-PT |
| `RecaptchaConfig.LanguageGroupsAndFallback` | src/Recaptcha.php:328-364 | the seven Spanish-American locales give `es-419`; every locale outside the table is returned as it is |
| `RecaptchaConfig.LanguageFallbackKeepsLocale` | src/Recaptcha.php:328-331 | the fallback does not cut at the underscore: `en_US` (also the default) and `fr_FR` come back whole |
| `ScriptText.CallbackScriptNotEmpty` | src/Recaptcha.php:277 | a script that opens with the callback is neither "" nor "0", so the `!empty($js)` test lets the loader be appended |
| `ScriptText.PerIdSnoc` | src/Recaptcha.php:257-260 | one more iteration of a `foreach ($ids as $id)` loop appends that id's chunks after the earlier ones |
| `ScriptText.TargetsPerId` | src/Recaptcha.php:311-313 | each loop leaves every id once, in order, in the one reading it produces (token target, render call or observe call) and nothing in any other |
| `ScriptFacts.CallbackReads` | src/Recaptcha.php:252-275 | version 3's callback fills each id in order inside exactly one execute call with the site key; version 2's renders into each id in order and has no execute call |
| `ScriptFacts.LoaderHeadReads` | src/Recaptcha.php:278-310 | the listener loads exactly one library URL, with `hl=<lang>` and `render=<sitekey>` (v3) or `render=explicit` (v2), and holds the log line only in debug mode |
| `ScriptFacts.LoaderReads` | src/Recaptcha.php:277-315 | the loader observes every id's wrapper once, in registration order, on top of the listener's URL and debug line |
| `ScriptFacts.ScriptPerIdContent` | src/Recaptcha.php:252-314 | for registered ids and valid keys: every id is observed once in order; version 3 fills every id in order and renders none; version 2 renders into every id in order and fills none |
| `ScriptFacts.ScriptVersionBranch` | src/Recaptcha.php:252-301 | exactly one branch is taken: version 3 has one execute call with the site key and `render=<sitekey>`; version 2 none and `render=explicit` |
| `ScriptFacts.ScriptLanguageAndDebug` | src/Recaptcha.php:294-307 | the one URL carries `hl=<getLanguage()>`; the initialisation log line is present, once, iff `debug` is exactly `true` |
| `ScriptFacts.ScriptRenderCalls` | src/Recaptcha.php:266-273 | every render call is in a version-2 script and uses the configured site key and the `light` theme |
| `ScriptFacts.ScriptEmptyIff` | src/Recaptcha.php:244-320 | with no ids the script is empty and no configuration check happens; a generated script's text is empty iff no id is registered; otherwise it starts with the callback and is not PHP-empty |
| `ScriptFacts.ScriptConfigErrors` | src/Recaptcha.php:244-245 | with ids registered, generation fails iff a key is missing, with the site-key error first, then the secret-key error |
| `Verification.ResolveToken` | src/Recaptcha.php:226 | the token is the given value when non-null, else the `g-recaptcha-response` request field |
| `Verification.ResolveRemoteIp` | src/Recaptcha.php:228-234 | a null IP sends the client IP, an `empty()` IP ("" or "0") sends none, any other IP is sent unchanged |
| `Verification.RemoteIpSent` | src/Recaptcha.php:228-234 | an IP is sent iff a non-empty one is given or none is given and the client's is known; the IP sent is always the given or the client's one |
| `Verification.NewDriver` | src/Recaptcha.php:409-411 | the client carries the secret key and uses the socket transport exactly when `allow_url_fopen` is off |
| `RecaptchaManager.AutoloadSchedulesIff` | src/Recaptcha.php:115-118 | a call schedules a script iff the flag is down, the autoloader is enabled (unset or `=== true`), an id is registered and both keys are set; the script is the one for the ids registered at that call |
| `RecaptchaManager.AutoloadFailsIff` | src/Recaptcha.php:115-117 | a call raises iff it generates a script for registered ids under a bad configuration, with checkConfig's error; once the flag is set, a call does nothing |
| `RecaptchaManager.AppendTokenFills` | src/Recaptcha.php:257-260 | the version-3 loop appends, after what is already built, one token assignment per id in order |
| `RecaptchaManager.AppendRenders` | src/Recaptcha.php:267-272 | the version-2 loop appends, after what is already built, one guarded render call per id in order |
| `RecaptchaManager.AppendObservers` | src/Recaptcha.php:311-313 | the observer loop appends, after what is already built, one observe call per id in order |
| `RecaptchaManager.BuildCallback` | src/Recaptcha.php:252-275 | the callback built by the loops is the version's callback for the ids, and starts with `function reCaptchaCallback() {` |
| `RecaptchaManager.AppendLoader` | src/Recaptcha.php:277-315 | the loader built by the observe loop is appended after the callback unchanged |
| `RecaptchaManager.Recaptcha.constructor` | src/Recaptcha.php:44-62 | a new manager has no ids, the flag down, no client and nothing scheduled |
| `RecaptchaManager.Recaptcha.AddWidgetRender` | src/Recaptcha.php:103-108 | the id is appended at the end; earlier ids and their order are kept, duplicates are kept, no other field changes; the manager's invariant holds |
| `RecaptchaManager.Recaptcha.GetJsScripts` | src/Recaptcha.php:242-321 | the result is the specified script for the configuration and the registered ids (or its configuration error) |
| `RecaptchaManager.Recaptcha.AssetsAutoloader` | src/Recaptcha.php:113-146 | performs exactly one autoload step: schedules at most once over the manager's life, sets the flag only when it schedules, propagates a configuration error with no state change, does nothing once the flag is set |
| `RecaptchaManager.Recaptcha.ReCaptchaDriver` | src/Recaptcha.php:406-415 | the client is built on first use from the secret key and returned unchanged afterwards |
| `RecaptchaManager.Recaptcha.GetHandleResponse` | src/Recaptcha.php:224-237 | the response is the library's verdict for the resolved token and remote IP, using the cached client, or on first use a new client built from the configured secret key |
| `RecaptchaManager.Recaptcha.IsResponseValid` | src/Recaptcha.php:398-401 | the result is the library's success flag for the given value and the client's IP, from the cached client or a new one built from the configured secret key |
| `RecaptchaManager.Recaptcha.RenderField` | src/Field/RecaptchaField.php:70-72 | rendering a field registers its id, then runs one autoload step |
| `RecaptchaManager.TwoFieldsOnePage` | src/Recaptcha.php:117-142 | two fields on one page: one script is scheduled, at the first render; it observes only the first widget, fills it (v3) or renders it (v2) and nothing else, and a distinct second id is registered but not observed |

## Left out

- Event bus, asset queue and WordPress footer hook (`event()->one`, `enqueueJs`, `InlineAsset`, `add_action`): framework I/O. The ghost field `scheduled` records the script they would deliver.
- `ReCaptchaDriver::verify` and the network call behind it: a foreign library. It is the `verify` parameter of the manager's methods. The `allow_url_fopen` setting is a parameter too. `Verifier` is a total function, so the exceptions `verify` can raise (transport or API failures), which propagate unchanged through `getHandleResponse` and `isResponseValid`, are not modelled.
- The HTTP request accessor: the `Request` value (response field, client IP) is a parameter.
- `boot()`, its field/form driver registration and the `recaptcha.booting` / `recaptcha.booted` events: dependency-injection and event wiring.
- The static singleton `getInstance`, the proxy and the service provider: container wiring.
- `setConfig` after construction and `defaultConfig`: the configuration is fixed for a manager's life. `None`/`Null` stands for an unset key, so each read's default applies (see the `RecaptchaConfig.LanguageOf` line below).
- The `(int)` and `(string)` casts of config values: `version` is modelled after the cast as an integer and `locale` as a string. The keys are `null` or a string.
- `getSiteKey` and `getTheme`: the site key is read from the configuration once it is checked, and the theme is the constant `light`.
- Field and form adapters: they call the manager and add no logic of their own, apart from the render sequence modelled by `RenderField`. Their `checkConfig` at boot, the default id `FieldRecaptcha--<index>`, `sanitize_key`, and the "Invalid Recaptcha response." validation message are not modelled.
- The widget's HTML template: markup only. The wrapper id `<id>-intersectionObserver` appears in the `Observe` piece's text.
- RecaptchaConfig.LanguageOf: a locale stored as `null` (the default configuration stores `'locale' => null`) is modelled as `None`, read as the default `en_US`, as the configuration's doc comment says. Whether the configuration store returns that default for a stored `null` is decided by the framework's config bag, which is not part of this model. A store that returned the `null` would make `(string)null` the empty locale, and the script would load `hl=`.
- Exception classes and their messages: folded into `ConfigError` (`SiteKeyMissing`, `SecretKeyMissing`).
