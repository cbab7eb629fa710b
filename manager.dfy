/**
 * The manager object: the registry of rendered widget ids, the one-shot
 * asset autoloader, the lazily built verification client, and the script
 * generator that reads the registry.
 */
module RecaptchaManager {
  import opened Wrappers
  import opened Php
  import opened RecaptchaConfig
  import opened ScriptText
  import opened ScriptFacts
  import opened Verification

  /** The library's verification call: client, token and remote IP to verdict (network I/O). */
  type Verifier = (Driver, Option<string>, Option<string>) -> Response

  /** `asset.autoloader` is on when unset (default `true`) or exactly `true`. */
  predicate AutoloadEnabled(v: PhpValue)
  {
    v == Null || IsTrue(v)
  }

  /** What one assetsAutoloader call does: its outcome, and the script it hands to the asset queue, if any. */
  datatype Step = Step(outcome: Outcome<ConfigError>, script: Option<seq<Piece>>)

  function AutoloadStep(cfg: Config, loaded: bool, ids: seq<string>): Step
  {
    if loaded || !AutoloadEnabled(cfg.autoloader) then Step(Pass, None)
    else match ScriptFor(cfg, ids)
      case Failure(e) => Step(Fail(e), None)
      case Success(ps) => if EmptyString(Render(ps)) then Step(Pass, None) else Step(Pass, Some(ps))
  }

  /**
   * A call schedules a script exactly when the flag is still down, the
   * autoloader is enabled, an id is registered and both keys are set; the
   * script is the one for the ids registered at that moment.
   */
  lemma AutoloadSchedulesIff(cfg: Config, loaded: bool, ids: seq<string>)
    ensures AutoloadStep(cfg, loaded, ids).script.Some? <==>
      !loaded && AutoloadEnabled(cfg.autoloader) && ids != [] && KeysPresent(cfg)
    ensures AutoloadStep(cfg, loaded, ids).script.Some? ==>
      ScriptFor(cfg, ids) == Success(AutoloadStep(cfg, loaded, ids).script.value)
  {
    ScriptEmptyIff(cfg, ids);
  }

  /**
   * A call fails exactly when it generates a script for registered ids under a
   * bad configuration, with checkConfig's error; once loaded it does nothing.
   */
  lemma AutoloadFailsIff(cfg: Config, loaded: bool, ids: seq<string>)
    ensures AutoloadStep(cfg, loaded, ids).outcome.Fail? <==>
      !loaded && AutoloadEnabled(cfg.autoloader) && ids != [] && !KeysPresent(cfg)
    ensures AutoloadStep(cfg, loaded, ids).outcome.Fail? ==>
      AutoloadStep(cfg, loaded, ids).outcome == CheckConfig(cfg)
    ensures loaded ==> AutoloadStep(cfg, loaded, ids) == Step(Pass, None)
  {
  }

  /** The version-3 loop (one token assignment per id), appended to `js0`. */
  method AppendTokenFills(js0: seq<Piece>, ids: seq<string>) returns (js: seq<Piece>)
    ensures js == js0 + PerId(ids, FillToken)
  {
    js := js0;
    for i := 0 to |ids|
      invariant js == js0 + PerId(ids[..i], FillToken)
    {
      PerIdSnoc(ids[..i], ids[i], FillToken);
      assert ids[..i + 1] == ids[..i] + [ids[i]];
      js := js + [FillResponse(ids[i])];
      js := js + [Fixed(TokenAssign)];
    }
    assert ids[..|ids|] == ids;
  }

  /** The version-2 loop (one guarded render call per id), appended to `js0`. */
  method AppendRenders(js0: seq<Piece>, siteKey: string, ids: seq<string>) returns (js: seq<Piece>)
    ensures js == js0 + PerId(ids, RenderInto(siteKey))
  {
    js := js0;
    for i := 0 to |ids|
      invariant js == js0 + PerId(ids[..i], RenderInto(siteKey))
    {
      PerIdSnoc(ids[..i], ids[i], RenderInto(siteKey));
      assert ids[..i + 1] == ids[..i] + [ids[i]];
      js := js + [FindWidget(ids[i])];
      js := js + [Fixed(IfWidget)];
      js := js + [RenderWidget(ids[i], siteKey, Theme)];
      js := js + [Fixed(BlockEnd)];
    }
    assert ids[..|ids|] == ids;
  }

  /** The observer loop (one observe call per id), appended to `js0`. */
  method AppendObservers(js0: seq<Piece>, ids: seq<string>) returns (js: seq<Piece>)
    ensures js == js0 + PerId(ids, ObserveWrapper)
  {
    js := js0;
    for i := 0 to |ids|
      invariant js == js0 + PerId(ids[..i], ObserveWrapper)
    {
      PerIdSnoc(ids[..i], ids[i], ObserveWrapper);
      assert ids[..i + 1] == ids[..i] + [ids[i]];
      js := js + [Observe(ids[i])];
    }
    assert ids[..|ids|] == ids;
  }

  /** The callback part of getJsScripts: the version's opening, its loop over the ids, the closing. */
  method BuildCallback(version: int, siteKey: string, ids: seq<string>) returns (js: seq<Piece>)
    requires version == 2 || version == 3
    ensures js == Callback(version, siteKey, ids)
    ensures js != [] && js[0] == CallbackOpen
  {
    js := [];
    if version == 3 {
      js := js + [CallbackOpen];
      js := js + [Fixed(ReadyOpen)];
      js := js + [ExecuteOpen(siteKey)];
      js := AppendTokenFills(js, ids);
      js := js + [Fixed(CallClose)];
      js := js + [Fixed(CallClose)];
      js := js + [Fixed(FunctionEnd)];
    } else if version == 2 {
      js := js + [CallbackOpen];
      js := AppendRenders(js, siteKey, ids);
      js := js + [Fixed(FunctionEnd)];
    }
  }

  /** The lazy-loader part of getJsScripts, appended to the callback: the listener, one observe call per id, the end. */
  method AppendLoader(callback: seq<Piece>, version: int, siteKey: string, lang: string, debug: bool, ids: seq<string>)
    returns (js: seq<Piece>)
    requires version == 2 || version == 3
    ensures js == callback + Loader(version, siteKey, lang, debug, ids)
  {
    var head := [Fixed(ObserverSetup)];
    if version == 3 {
      head := head + [ScriptSrc(lang, siteKey)];
    } else if version == 2 {
      head := head + [ScriptSrc(lang, "explicit")];
    }
    head := head + [Fixed(ScriptInject)];
    if debug {
      head := head + [DebugLog];
    }
    head := head + [Fixed(HandlerEnd)];
    assert head == LoaderHead(version, siteKey, lang, debug);
    js := AppendObservers(callback + head, ids);
    js := js + [Fixed(LoadListenerClose)];
  }

  class Recaptcha {
    /** The configuration, fixed for the manager's lifetime. */
    const config: Config
    /** Ids of the widgets rendered so far, in rendering order, duplicates kept. */
    var widgetIds: seq<string>
    /** Set once the bootstrap script has been handed to the asset queue. */
    var assetsAutoloaded: bool
    /** The verification client, built on first use. */
    var driver: Option<Driver>
    /** Scripts handed to the asset queue (stands for the event and footer hooks). */
    ghost var scheduled: seq<seq<Piece>>
    /** The ids registered when the script was scheduled. */
    ghost var scheduledFor: seq<string>

    /**
     * At most one script is ever scheduled, exactly when the flag is set, and
     * it is the script for the ids registered up to that moment, a prefix of
     * the current ones.
     */
    ghost predicate Valid()
      reads this
    {
      |scheduled| <= 1 &&
      (assetsAutoloaded <==> |scheduled| == 1) &&
      scheduledFor <= widgetIds &&
      (|scheduled| == 1 ==> scheduledFor != [] && ScriptFor(config, scheduledFor) == Success(scheduled[0]))
    }

    constructor (config: Config)
      ensures Valid()
      ensures this.config == config
      ensures widgetIds == [] && !assetsAutoloaded && driver == None && scheduled == []
    {
      this.config := config;
      widgetIds := [];
      assetsAutoloaded := false;
      driver := None;
      scheduled := [];
      scheduledFor := [];
    }

    /** addWidgetRender: append the id; earlier ids, their order and every other field are kept. */
    method AddWidgetRender(id: string)
      requires Valid()
      modifies this`widgetIds
      ensures Valid()
      ensures widgetIds == old(widgetIds) + [id]
    {
      widgetIds := widgetIds + [id];
    }

    /** getJsScripts: build the bootstrap script for the registered ids, chunk by chunk. */
    method GetJsScripts() returns (r: Result<seq<Piece>, ConfigError>)
      ensures r == ScriptFor(config, widgetIds)
    {
      var ids := widgetIds;
      if ids == [] {
        return Success([]);
      }
      var check := CheckConfig(config);
      if check.Fail? {
        return Failure(check.error);
      }
      var siteKey := config.siteKey.value;
      var lang := LanguageOf(config.locale);
      var version := VersionOf(config.version);
      var js := BuildCallback(version, siteKey, ids);
      if !EmptyString(Render(js)) {
        js := AppendLoader(js, version, siteKey, lang, IsTrue(config.debug), ids);
      } else {
        CallbackScriptNotEmpty(js);
        assert false;
      }
      return Success(js);
    }

    /**
     * assetsAutoloader: on the first call with the autoloader enabled and a
     * non-empty script, hand that script, as it is now, to the asset queue and
     * set the flag; every later call does nothing. A configuration error from
     * the script generator propagates and leaves the state as it was.
     */
    method AssetsAutoloader() returns (r: Outcome<ConfigError>)
      requires Valid()
      modifies this`assetsAutoloaded, this`scheduled, this`scheduledFor
      ensures Valid()
      ensures var step := AutoloadStep(config, old(assetsAutoloaded), widgetIds);
        r == step.outcome &&
        assetsAutoloaded == (old(assetsAutoloaded) || step.script.Some?) &&
        scheduled == old(scheduled) + (if step.script.Some? then [step.script.value] else [])
    {
      r := Pass;
      if !assetsAutoloaded && AutoloadEnabled(config.autoloader) {
        var js := GetJsScripts();
        if js.Failure? {
          return Fail(js.error);
        }
        if !EmptyString(Render(js.value)) {
          ScriptEmptyIff(config, widgetIds);
          scheduled := scheduled + [js.value];
          scheduledFor := widgetIds;
          assetsAutoloaded := true;
        }
      }
    }

    /** reCaptchaDriver: build the client from the secret key on first use, then always return that one. */
    method ReCaptchaDriver(allowUrlFopen: bool) returns (d: Driver)
      modifies this`driver
      ensures driver == Some(d)
      ensures old(driver).Some? ==> d == old(driver).value
      ensures old(driver).None? ==> d == NewDriver(config.secretKey, allowUrlFopen)
    {
      if driver.None? {
        driver := Some(NewDriver(config.secretKey, allowUrlFopen));
      }
      d := driver.value;
    }

    /** getHandleResponse: verify the resolved token and remote IP with the (cached) client. */
    method GetHandleResponse(value: Option<string>, ip: Option<string>, request: Request,
                             allowUrlFopen: bool, verify: Verifier) returns (response: Response)
      modifies this`driver
      ensures driver.Some? && (old(driver).Some? ==> driver == old(driver))
      ensures old(driver).None? ==> driver == Some(NewDriver(config.secretKey, allowUrlFopen))
      ensures response == verify(driver.value, ResolveToken(value, request), ResolveRemoteIp(ip, request.clientIp))
    {
      var token := ResolveToken(value, request);
      var remoteIp := ResolveRemoteIp(ip, request.clientIp);
      var d := ReCaptchaDriver(allowUrlFopen);
      response := verify(d, token, remoteIp);
    }

    /** isResponseValid: the library's success flag for this token and the client's IP. */
    method IsResponseValid(value: string, request: Request, allowUrlFopen: bool, verify: Verifier)
      returns (valid: bool)
      modifies this`driver
      ensures driver.Some? && (old(driver).Some? ==> driver == old(driver))
      ensures old(driver).None? ==> driver == Some(NewDriver(config.secretKey, allowUrlFopen))
      ensures valid == verify(driver.value, Some(value), request.clientIp).success
    {
      var response := GetHandleResponse(Some(value), None, request, allowUrlFopen, verify);
      valid := response.success;
    }

    /** The field's render step: register the widget's id, then run the autoloader. */
    method RenderField(id: string) returns (r: Outcome<ConfigError>)
      requires Valid()
      modifies this`widgetIds, this`assetsAutoloaded, this`scheduled, this`scheduledFor
      ensures Valid()
      ensures widgetIds == old(widgetIds) + [id]
      ensures var step := AutoloadStep(config, old(assetsAutoloaded), widgetIds);
        r == step.outcome &&
        assetsAutoloaded == (old(assetsAutoloaded) || step.script.Some?) &&
        scheduled == old(scheduled) + (if step.script.Some? then [step.script.value] else [])
    {
      AddWidgetRender(id);
      r := AssetsAutoloader();
    }
  }

  /**
   * Two fields rendered on one page with a valid configuration: one script is
   * scheduled, at the first render, and it observes, fills or renders only
   * the first widget; a second id different from the first is registered but
   * absent from the scheduled script.
   */
  method TwoFieldsOnePage(cfg: Config, first: string, second: string) returns (m: Recaptcha)
    requires KeysPresent(cfg) && AutoloadEnabled(cfg.autoloader)
    ensures m.widgetIds == [first, second]
    ensures |m.scheduled| == 1 && m.assetsAutoloaded
    ensures Targets(m.scheduled[0], ObservedIds) == [first]
    ensures Targets(m.scheduled[0], FilledIds) == (if VersionOf(cfg.version) == 3 then [first] else [])
    ensures Targets(m.scheduled[0], RenderedIds) == (if VersionOf(cfg.version) == 2 then [first] else [])
    ensures first != second ==> second !in Targets(m.scheduled[0], ObservedIds)
  {
    m := new Recaptcha(cfg);
    var r1 := m.RenderField(first);
    assert m.widgetIds == [first];
    AutoloadSchedulesIff(cfg, false, [first]);
    assert m.scheduled == [ScriptFor(cfg, [first]).value];
    var r2 := m.RenderField(second);
    assert m.scheduled == [ScriptFor(cfg, [first]).value];
    ScriptPerIdContent(cfg, [first]);
  }
}
