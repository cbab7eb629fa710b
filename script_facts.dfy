/**
 * What the bootstrap script contains, read back from its pieces: which ids
 * it fills, renders and observes, in which order, and which version branch,
 * URL and debug line it carries.
 */
module ScriptFacts {
  import opened Wrappers
  import opened Php
  import opened RecaptchaConfig
  import opened ScriptText

  /** Version 3's callback fills each id in order inside one execute call with the site key. */
  lemma ExecuteCallbackReads(siteKey: string, ids: seq<string>, k: Kind)
    ensures Targets(Callback(3, siteKey, ids), k) ==
      if k == FilledIds then ids else if k == ExecuteKeys then [siteKey] else []
  {
    var opening := [CallbackOpen, Fixed(ReadyOpen)];
    assert ExecuteHead(siteKey) == opening + [ExecuteOpen(siteKey)];
    TargetsAppend(ExecuteHead(siteKey) + PerId(ids, FillToken), ExecuteTail, k);
    TargetsAppend(ExecuteHead(siteKey), PerId(ids, FillToken), k);
    TargetsAppend(opening, [ExecuteOpen(siteKey)], k);
    FixedChunksReadNothing(opening, k);
    TargetsSingle(ExecuteOpen(siteKey), k);
    TargetsPerId(ids, FillToken, k);
    FixedChunksReadNothing(ExecuteTail, k);
  }

  /** Version 2's callback renders into each id in order. */
  lemma RenderCallbackReads(siteKey: string, ids: seq<string>, k: Kind)
    ensures Targets(Callback(2, siteKey, ids), k) == if k == RenderedIds then ids else []
  {
    TargetsAppend([CallbackOpen] + PerId(ids, RenderInto(siteKey)), [Fixed(FunctionEnd)], k);
    TargetsAppend([CallbackOpen], PerId(ids, RenderInto(siteKey)), k);
    FixedChunksReadNothing([CallbackOpen], k);
    TargetsPerId(ids, RenderInto(siteKey), k);
    FixedChunksReadNothing([Fixed(FunctionEnd)], k);
  }

  /** The callback holds the ids of exactly one version branch, and the site key once for version 3. */
  lemma CallbackReads(version: int, siteKey: string, ids: seq<string>, k: Kind)
    requires version == 2 || version == 3
    ensures Targets(Callback(version, siteKey, ids), k) ==
      if version == 3 && k == FilledIds then ids
      else if version == 2 && k == RenderedIds then ids
      else if version == 3 && k == ExecuteKeys then [siteKey]
      else []
  {
    if version == 3 {
      ExecuteCallbackReads(siteKey, ids, k);
    } else {
      RenderCallbackReads(siteKey, ids, k);
    }
  }

  /** Parts that read nothing around two parts leave just those two parts' readings. */
  lemma FramedReads(a: seq<Piece>, b: seq<Piece>, c: seq<Piece>, d: seq<Piece>, e: seq<Piece>, k: Kind)
    requires Targets(a, k) == [] && Targets(c, k) == [] && Targets(e, k) == []
    ensures Targets(a + b + c + d + e, k) == Targets(b, k) + Targets(d, k)
  {
    TargetsAppend(a + b + c + d, e, k);
    TargetsAppend(a + b + c, d, k);
    TargetsAppend(a + b, c, k);
    TargetsAppend(a, b, k);
  }

  /** The script URL holds its `render=` value and its language. */
  lemma SourceReads(lang: string, render: string, k: Kind)
    ensures Targets([ScriptSrc(lang, render)], k) ==
      if k == SourceRenders then [render] else if k == SourceLangs then [lang] else []
  {
    TargetsSingle(ScriptSrc(lang, render), k);
  }

  /** The debug part holds the log line exactly in debug mode. */
  lemma DebugReads(debug: bool, k: Kind)
    ensures Targets(if debug then [DebugLog] else [], k) ==
      if k == DebugLines && debug then [DebugMessage] else []
  {
    if debug {
      TargetsSingle(DebugLog, k);
    }
  }

  /** The listener before the observe calls holds one URL and, in debug mode only, the log line. */
  lemma LoaderHeadReads(version: int, siteKey: string, lang: string, debug: bool, k: Kind)
    ensures Targets(LoaderHead(version, siteKey, lang, debug), k) ==
      if k == SourceRenders then [RenderTarget(version, siteKey)]
      else if k == SourceLangs then [lang]
      else if k == DebugLines && debug then [DebugMessage]
      else []
  {
    var src := [ScriptSrc(lang, RenderTarget(version, siteKey))];
    var dbg: seq<Piece> := if debug then [DebugLog] else [];
    FixedChunksReadNothing([Fixed(ObserverSetup)], k);
    FixedChunksReadNothing([Fixed(ScriptInject)], k);
    FixedChunksReadNothing([Fixed(HandlerEnd)], k);
    FramedReads([Fixed(ObserverSetup)], src, [Fixed(ScriptInject)], dbg, [Fixed(HandlerEnd)], k);
    SourceReads(lang, RenderTarget(version, siteKey), k);
    DebugReads(debug, k);
  }

  /** The loader observes every id in order, loads one URL, and logs only in debug mode. */
  lemma LoaderReads(version: int, siteKey: string, lang: string, debug: bool, ids: seq<string>, k: Kind)
    ensures Targets(Loader(version, siteKey, lang, debug, ids), k) ==
      if k == ObservedIds then ids
      else if k == SourceRenders then [RenderTarget(version, siteKey)]
      else if k == SourceLangs then [lang]
      else if k == DebugLines && debug then [DebugMessage]
      else []
  {
    var head := LoaderHead(version, siteKey, lang, debug);
    LoaderHeadReads(version, siteKey, lang, debug, k);
    TargetsAppend(head + PerId(ids, ObserveWrapper), [Fixed(LoadListenerClose)], k);
    TargetsAppend(head, PerId(ids, ObserveWrapper), k);
    TargetsPerId(ids, ObserveWrapper, k);
    FixedChunksReadNothing([Fixed(LoadListenerClose)], k);
  }

  /** A script reads back as its callback's reading followed by its loader's. */
  lemma ScriptReads(cfg: Config, ids: seq<string>, k: Kind)
    requires ids != [] && KeysPresent(cfg)
    ensures ScriptFor(cfg, ids).Success?
    ensures
      var v, key := VersionOf(cfg.version), cfg.siteKey.value;
      Targets(ScriptFor(cfg, ids).value, k) ==
        Targets(Callback(v, key, ids), k)
        + Targets(Loader(v, key, LanguageOf(cfg.locale), IsTrue(cfg.debug), ids), k)
  {
    var v, key := VersionOf(cfg.version), cfg.siteKey.value;
    TargetsAppend(Callback(v, key, ids), Loader(v, key, LanguageOf(cfg.locale), IsTrue(cfg.debug), ids), k);
  }

  /**
   * Per-id content: every registered id is observed once, in registration
   * order; version 3 assigns the token to each id in order and renders none,
   * version 2 renders a widget into each id in order and assigns no token.
   */
  lemma ScriptPerIdContent(cfg: Config, ids: seq<string>)
    requires ids != [] && KeysPresent(cfg)
    ensures ScriptFor(cfg, ids).Success?
    ensures
      var ps, v := ScriptFor(cfg, ids).value, VersionOf(cfg.version);
      Targets(ps, ObservedIds) == ids &&
      Targets(ps, FilledIds) == (if v == 3 then ids else []) &&
      Targets(ps, RenderedIds) == (if v == 2 then ids else [])
  {
    var v, key, lang, debug := VersionOf(cfg.version), cfg.siteKey.value, LanguageOf(cfg.locale), IsTrue(cfg.debug);
    forall k | k in {ObservedIds, FilledIds, RenderedIds}
      ensures Targets(ScriptFor(cfg, ids).value, k) ==
        Targets(Callback(v, key, ids), k) + Targets(Loader(v, key, lang, debug, ids), k)
    {
      ScriptReads(cfg, ids, k);
    }
    CallbackReads(v, key, ids, ObservedIds);
    CallbackReads(v, key, ids, FilledIds);
    CallbackReads(v, key, ids, RenderedIds);
    LoaderReads(v, key, lang, debug, ids, ObservedIds);
    LoaderReads(v, key, lang, debug, ids, FilledIds);
    LoaderReads(v, key, lang, debug, ids, RenderedIds);
  }

  /**
   * The version branch: version 3 opens exactly one `grecaptcha.execute` with
   * the site key and loads the library with `render=<sitekey>`; version 2 has
   * no execute call and loads it with `render=explicit`. Exactly one URL.
   */
  lemma ScriptVersionBranch(cfg: Config, ids: seq<string>)
    requires ids != [] && KeysPresent(cfg)
    ensures ScriptFor(cfg, ids).Success?
    ensures
      var ps, v, key := ScriptFor(cfg, ids).value, VersionOf(cfg.version), cfg.siteKey.value;
      Targets(ps, ExecuteKeys) == (if v == 3 then [key] else []) &&
      Targets(ps, SourceRenders) == (if v == 3 then [key] else ["explicit"])
  {
    var v, key, lang, debug := VersionOf(cfg.version), cfg.siteKey.value, LanguageOf(cfg.locale), IsTrue(cfg.debug);
    ScriptReads(cfg, ids, ExecuteKeys);
    ScriptReads(cfg, ids, SourceRenders);
    CallbackReads(v, key, ids, ExecuteKeys);
    CallbackReads(v, key, ids, SourceRenders);
    LoaderReads(v, key, lang, debug, ids, ExecuteKeys);
    LoaderReads(v, key, lang, debug, ids, SourceRenders);
  }

  /**
   * The library URL carries `hl=<getLanguage()>`, and the initialisation log
   * line appears (once) exactly when `debug` is `true`.
   */
  lemma ScriptLanguageAndDebug(cfg: Config, ids: seq<string>)
    requires ids != [] && KeysPresent(cfg)
    ensures ScriptFor(cfg, ids).Success?
    ensures
      var ps := ScriptFor(cfg, ids).value;
      Targets(ps, SourceLangs) == [LanguageOf(cfg.locale)] &&
      Targets(ps, DebugLines) == (if cfg.debug == Bool(true) then [DebugMessage] else [])
  {
    var v, key, lang, debug := VersionOf(cfg.version), cfg.siteKey.value, LanguageOf(cfg.locale), IsTrue(cfg.debug);
    ScriptReads(cfg, ids, SourceLangs);
    ScriptReads(cfg, ids, DebugLines);
    CallbackReads(v, key, ids, SourceLangs);
    CallbackReads(v, key, ids, DebugLines);
    LoaderReads(v, key, lang, debug, ids, SourceLangs);
    LoaderReads(v, key, lang, debug, ids, DebugLines);
  }

  /** The only loop that makes render calls is the version-2 one, and they use its site key and the `light` theme. */
  lemma {:induction false} RenderCallsIn(ids: seq<string>, b: LoopBody)
    ensures forall p | p in PerId(ids, b) && p.RenderWidget? :: b == RenderInto(p.siteKey) && p.theme == Theme
  {
    if ids != [] {
      RenderCallsIn(ids[1..], b);
    }
  }

  /** The loader makes no render call. */
  lemma LoaderRendersNothing(version: int, siteKey: string, lang: string, debug: bool, ids: seq<string>)
    ensures forall p | p in Loader(version, siteKey, lang, debug, ids) :: !p.RenderWidget?
  {
    RenderCallsIn(ids, ObserveWrapper);
  }

  /**
   * Every render call in the script uses the configured site key and the
   * `light` theme (and only version 2 has any).
   */
  lemma ScriptRenderCalls(cfg: Config, ids: seq<string>)
    requires ids != [] && KeysPresent(cfg)
    ensures ScriptFor(cfg, ids).Success?
    ensures forall p | p in ScriptFor(cfg, ids).value && p.RenderWidget? ::
      VersionOf(cfg.version) == 2 && p.siteKey == cfg.siteKey.value && p.theme == "light"
  {
    var v, key := VersionOf(cfg.version), cfg.siteKey.value;
    RenderCallsIn(ids, FillToken);
    RenderCallsIn(ids, RenderInto(key));
    LoaderRendersNothing(v, key, LanguageOf(cfg.locale), IsTrue(cfg.debug), ids);
  }

  /**
   * getJsScripts is empty exactly when no widget is registered, and then it
   * does not check the configuration (it cannot fail); otherwise it starts with
   * the callback, so its text is neither "" nor "0".
   */
  lemma ScriptEmptyIff(cfg: Config, ids: seq<string>)
    ensures ids == [] ==> ScriptFor(cfg, ids) == Success([])
    ensures ScriptFor(cfg, ids).Success? ==>
      (Render(ScriptFor(cfg, ids).value) == "" <==> ids == [])
    ensures ids != [] && ScriptFor(cfg, ids).Success? ==>
      ScriptFor(cfg, ids).value[0] == CallbackOpen && !EmptyString(Render(ScriptFor(cfg, ids).value))
  {
    if ids != [] && ScriptFor(cfg, ids).Success? {
      var ps := ScriptFor(cfg, ids).value;
      assert ps[0] == CallbackOpen;
      CallbackScriptNotEmpty(ps);
    }
  }

  /** With ids registered, getJsScripts raises exactly checkConfig's error, site key first. */
  lemma ScriptConfigErrors(cfg: Config, ids: seq<string>)
    requires ids != []
    ensures ScriptFor(cfg, ids).Failure? <==> !KeysPresent(cfg)
    ensures !Truthy(cfg.siteKey) ==> ScriptFor(cfg, ids) == Failure(SiteKeyMissing)
    ensures Truthy(cfg.siteKey) && !Truthy(cfg.secretKey) ==> ScriptFor(cfg, ids) == Failure(SecretKeyMissing)
  {
  }
}
