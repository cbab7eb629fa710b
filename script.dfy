/**
 * The bootstrap script built by getJsScripts. The script is a string built
 * by repeated `.=`; here it is the sequence of those appended chunks
 * (`Piece`s), and `Render` gives the exact text of the string.
 */
module ScriptText {
  import opened Wrappers
  import opened Php
  import opened RecaptchaConfig

  /**
   * The chunks whose text does not depend on any input: one `.=` line each,
   * except the three runs of consecutive fixed lines in the lazy loader.
   */
  datatype Chunk =
    | CallbackStart | ReadyOpen | TokenAssign | CallClose | FunctionEnd | IfWidget | BlockEnd
    | ObserverSetup | ScriptInject | HandlerEnd | LoadListenerClose

  /** The text of a fixed chunk. */
  function ChunkText(c: Chunk): string
  {
    match c
    case CallbackStart => "function reCaptchaCallback() {"
    case ReadyOpen => "grecaptcha.ready(function () {"
    case TokenAssign => "recaptchaResponse.value = token;"
    case CallClose => "});"
    case FunctionEnd => "};"
    case IfWidget => "if(reCaptchaEl){"
    case BlockEnd => "}"
    case ObserverSetup =>
      // the page-load listener and the intersection handler, up to the script URL
      "var recaptchaScriptInitialized = false;"
      + "var recaptchaObserver;"
      + "window.addEventListener('load', function(event) {"
      + "recaptchaObserver = new IntersectionObserver(recaptchaWidgetHandleIntersect, {"
      + "root: null,"
      + "rootMargin: \"0px\","
      + "threshold: 1.0"
      + "});"
      + "function recaptchaWidgetHandleIntersect(entries, observer) {"
      + "entries.forEach(function(entry) {"
      + "if (recaptchaScriptInitialized) {"
      + "recaptchaObserver.unobserve(entry.target);"
      + "return;"
      + "}"
      + "if (entry.isIntersecting) {"
      + "var recaptchaScript = document.createElement('script');"
    case ScriptInject =>
      // load the library script and mark it loaded
      "recaptchaScript.defer = true;"
      + "document.getElementsByTagName('head')[0].appendChild(recaptchaScript);"
      + "recaptchaScriptInitialized = true;"
    case HandlerEnd => "}" + "});" + "};"
    case LoadListenerClose => "}, false);"
  }

  /** One appended chunk of the script; the parameterised ones carry their inputs. */
  datatype Piece =
    | Fixed(chunk: Chunk)
    | ExecuteOpen(siteKey: string)                          // grecaptcha.execute('<sitekey>')...
    | FillResponse(id: string)                              // token target lookup
    | FindWidget(id: string)                                // version-2 container lookup
    | RenderWidget(id: string, siteKey: string, theme: string)
    | ScriptSrc(lang: string, render: string)               // URL of the library script
    | DebugLog
    | Observe(id: string)                                   // observe '<id>-intersectionObserver'

  /** The text a piece appends to the script. */
  function Text(p: Piece): string
  {
    match p
    case Fixed(c) => ChunkText(c)
    case ExecuteOpen(k) => "grecaptcha.execute('" + k + "').then(function (token) {"
    case FillResponse(id) => "var recaptchaResponse = document.getElementById('" + id + "');"
    case FindWidget(id) => "var reCaptchaEl=document.getElementById('" + id + "');"
    case RenderWidget(id, k, theme) =>
      "try{grecaptcha.render('" + id + "',{sitekey:'" + k + "',theme:'" + theme
      + "'});} catch(error){console.log(error);}"
    case ScriptSrc(lang, render) =>
      "recaptchaScript.src = 'https://www.google.com/recaptcha/api.js?hl=" + lang
      + "&onload=reCaptchaCallback&render=" + render + "';"
    case DebugLog => "console.log('Recaptcha script is initialized');"
    case Observe(id) => "recaptchaObserver.observe(document.getElementById('" + id + "-intersectionObserver'));"
  }

  /** The string a sequence of pieces builds. */
  function Render(ps: seq<Piece>): string
  {
    if ps == [] then "" else Text(ps[0]) + Render(ps[1..])
  }

  /** The first chunk of every non-empty script. */
  const CallbackOpen: Piece := Fixed(CallbackStart)

  /** The script begins with its first chunk, so it is at least that long. */
  lemma RenderStartsWith(ps: seq<Piece>)
    requires ps != []
    ensures Render(ps)[..|Text(ps[0])|] == Text(ps[0])
  {
  }

  /** A script opening with the callback is neither "" nor "0", so PHP finds it non-empty. */
  lemma {:induction false} CallbackScriptNotEmpty(ps: seq<Piece>)
    requires ps != [] && ps[0] == CallbackOpen
    ensures !EmptyString(Render(ps))
  {
    RenderStartsWith(ps);
    assert |Render(ps)| >= |Text(CallbackOpen)| > 1;
  }

  lemma {:induction false} RenderAppend(a: seq<Piece>, b: seq<Piece>)
    ensures Render(a + b) == Render(a) + Render(b)
  {
    if a != [] {
      assert (a + b)[1..] == a[1..] + b;
      RenderAppend(a[1..], b);
    } else {
      assert a + b == b;
    }
  }

  /** The body of one of the three `foreach ($ids as $id)` loops. */
  datatype LoopBody = FillToken | RenderInto(siteKey: string) | ObserveWrapper

  /** The chunks one iteration appends for `id`. */
  function Body(b: LoopBody, id: string): seq<Piece>
  {
    match b
    case FillToken =>
      // version 3: write the token into the hidden input with this id
      [FillResponse(id), Fixed(TokenAssign)]
    case RenderInto(key) =>
      // version 2: render a visible widget into the container with this id
      [FindWidget(id), Fixed(IfWidget), RenderWidget(id, key, Theme), Fixed(BlockEnd)]
    case ObserveWrapper =>
      [Observe(id)]
  }

  /** The chunks a whole loop appends: the body for each id, in order. */
  function PerId(ids: seq<string>, b: LoopBody): seq<Piece>
  {
    if ids == [] then [] else Body(b, ids[0]) + PerId(ids[1..], b)
  }

  /** One more loop iteration appends one more id's chunks at the end. */
  lemma {:induction false} PerIdSnoc(ids: seq<string>, id: string, b: LoopBody)
    ensures PerId(ids + [id], b) == PerId(ids, b) + Body(b, id)
  {
    if ids == [] {
      assert PerId([id], b) == Body(b, id) + PerId([], b);
    } else {
      assert (ids + [id])[0] == ids[0];
      assert (ids + [id])[1..] == ids[1..] + [id];
      PerIdSnoc(ids[1..], id, b);
    }
  }

  // ---- version-dependent callback -------------------------------------------

  /** Version 3: the callback up to the token loop. */
  function ExecuteHead(siteKey: string): seq<Piece>
  {
    [CallbackOpen, Fixed(ReadyOpen), ExecuteOpen(siteKey)]
  }

  const ExecuteTail: seq<Piece> := [Fixed(CallClose), Fixed(CallClose), Fixed(FunctionEnd)]

  /** The `reCaptchaCallback` definition for a version (2 or 3). */
  function Callback(version: int, siteKey: string, ids: seq<string>): seq<Piece>
  {
    if version == 3 then ExecuteHead(siteKey) + PerId(ids, FillToken) + ExecuteTail
    else [CallbackOpen] + PerId(ids, RenderInto(siteKey)) + [Fixed(FunctionEnd)]
  }

  // ---- lazy loader ------------------------------------------------------------

  /** The `render=` value of the library URL. */
  function RenderTarget(version: int, siteKey: string): string
  {
    if version == 3 then siteKey else "explicit"
  }

  /** Page-load listener up to the per-id observe calls. */
  function LoaderHead(version: int, siteKey: string, lang: string, debug: bool): seq<Piece>
  {
    [Fixed(ObserverSetup)] + [ScriptSrc(lang, RenderTarget(version, siteKey))] + [Fixed(ScriptInject)]
    + (if debug then [DebugLog] else []) + [Fixed(HandlerEnd)]
  }

  /** The lazy loader: the listener, one observe call per id, the listener's end. */
  function Loader(version: int, siteKey: string, lang: string, debug: bool, ids: seq<string>): seq<Piece>
  {
    LoaderHead(version, siteKey, lang, debug) + PerId(ids, ObserveWrapper) + [Fixed(LoadListenerClose)]
  }

  /**
   * What getJsScripts yields: nothing for no ids; otherwise the configuration
   * error, or the callback followed by the lazy loader.
   */
  function ScriptFor(cfg: Config, ids: seq<string>): Result<seq<Piece>, ConfigError>
  {
    if ids == [] then Success([])
    else match CheckConfig(cfg)
      case Fail(e) => Failure(e)
      case Pass =>
        var v := VersionOf(cfg.version);
        Success(Callback(v, cfg.siteKey.value, ids)
                + Loader(v, cfg.siteKey.value, LanguageOf(cfg.locale), IsTrue(cfg.debug), ids))
  }

  // ---- reading a script back --------------------------------------------------

  /** What to read back from a script. */
  datatype Kind = FilledIds | RenderedIds | ObservedIds | ExecuteKeys | SourceRenders | SourceLangs | DebugLines

  const DebugMessage: string := "Recaptcha script is initialized"

  /** What a piece contributes to a kind of reading. */
  function TargetOf(p: Piece, k: Kind): Option<string>
  {
    match p
    case FillResponse(id) => if k == FilledIds then Some(id) else None
    case RenderWidget(id, _, _) => if k == RenderedIds then Some(id) else None
    case Observe(id) => if k == ObservedIds then Some(id) else None
    case ExecuteOpen(key) => if k == ExecuteKeys then Some(key) else None
    case ScriptSrc(lang, render) =>
      if k == SourceRenders then Some(render) else if k == SourceLangs then Some(lang) else None
    case DebugLog => if k == DebugLines then Some(DebugMessage) else None
    case _ => None
  }

  /** The values a script holds for a kind, in script order. */
  function Targets(ps: seq<Piece>, k: Kind): seq<string>
  {
    if ps == [] then []
    else (match TargetOf(ps[0], k) case Some(t) => [t] case None => []) + Targets(ps[1..], k)
  }

  lemma {:induction false} TargetsAppend(a: seq<Piece>, b: seq<Piece>, k: Kind)
    ensures Targets(a + b, k) == Targets(a, k) + Targets(b, k)
  {
    if a == [] {
      assert a + b == b;
    } else {
      assert (a + b)[0] == a[0];
      assert (a + b)[1..] == a[1..] + b;
      TargetsAppend(a[1..], b, k);
    }
  }

  /** Fixed chunks hold nothing to read back. */
  lemma {:induction false} FixedChunksReadNothing(ps: seq<Piece>, k: Kind)
    requires forall p | p in ps :: p.Fixed?
    ensures Targets(ps, k) == []
  {
    if ps != [] {
      assert ps[0] in ps;
      assert forall p | p in ps[1..] :: p in ps;
      FixedChunksReadNothing(ps[1..], k);
    }
  }

  lemma TargetsSingle(p: Piece, k: Kind)
    ensures Targets([p], k) == match TargetOf(p, k) case Some(t) => [t] case None => []
  {
    assert [p][1..] == [];
  }

  /** The loop that reads back `kind` of its own ids. */
  predicate Reads(b: LoopBody, k: Kind)
  {
    (b.FillToken? && k == FilledIds) || (b.RenderInto? && k == RenderedIds) || (b.ObserveWrapper? && k == ObservedIds)
  }

  lemma FillTokenReads(id: string, k: Kind)
    ensures Targets(Body(FillToken, id), k) == if k == FilledIds then [id] else []
  {
    var fill, assign := [FillResponse(id)], [Fixed(TokenAssign)];
    assert Body(FillToken, id) == fill + assign;
    TargetsAppend(fill, assign, k);
    TargetsSingle(FillResponse(id), k);
    FixedChunksReadNothing(assign, k);
  }

  lemma RenderIntoReads(id: string, key: string, k: Kind)
    ensures Targets(Body(RenderInto(key), id), k) == if k == RenderedIds then [id] else []
  {
    var find, open, call, close := [FindWidget(id)], [Fixed(IfWidget)], [RenderWidget(id, key, Theme)], [Fixed(BlockEnd)];
    assert Body(RenderInto(key), id) == find + open + call + close;
    TargetsAppend(find + open + call, close, k);
    TargetsAppend(find + open, call, k);
    TargetsAppend(find, open, k);
    TargetsSingle(FindWidget(id), k);
    TargetsSingle(RenderWidget(id, key, Theme), k);
    FixedChunksReadNothing(open, k);
    FixedChunksReadNothing(close, k);
  }

  /** One iteration leaves its id in the kind its loop reads, and nothing in any other. */
  lemma BodyTargets(b: LoopBody, id: string, k: Kind)
    ensures Targets(Body(b, id), k) == if Reads(b, k) then [id] else []
  {
    match b {
      case FillToken => FillTokenReads(id, k);
      case RenderInto(key) => RenderIntoReads(id, key, k);
      case ObserveWrapper => TargetsSingle(Observe(id), k);
    }
  }

  /** A loop leaves its ids, once each and in order, in the one kind it reads, and nothing in any other. */
  lemma {:induction false} TargetsPerId(ids: seq<string>, b: LoopBody, k: Kind)
    ensures Targets(PerId(ids, b), k) == if Reads(b, k) then ids else []
  {
    if ids != [] {
      BodyTargets(b, ids[0], k);
      TargetsAppend(Body(b, ids[0]), PerId(ids[1..], b), k);
      TargetsPerId(ids[1..], b, k);
      assert ids == [ids[0]] + ids[1..];
    }
  }
}
