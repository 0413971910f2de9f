/**
 * DefaultRenderingManager: the facade that wires the markup parser, the
 * renderers and the document cache together and flushes cache entries
 * when a page is saved.
 *
 * Class loading by name is modelled by a `Classpath` (what each known
 * class is), the parser and the renderers by function-typed oracles, and
 * the reference manager by a function from a page name to its referrers.
 */
module Rendering {
  import opened Wrappers
  import opened CacheKeys
  import opened RenderCache
  import opened Ehcache

  /** Capacity of a document cache created with defaults. */
  const DEFAULT_CACHESIZE: nat := 1_000
  /** Time to live and time to idle, in seconds, of a cache created with defaults. */
  const CACHE_EXPIRY_PERIOD: nat := 24 * 60 * 60

  const PROP_PARSER: string := "jspwiki.renderingManager.markupParser"
  const PROP_RENDERER: string := "jspwiki.renderingManager.renderer"
  const PROP_WYSIWYG_RENDERER: string := "jspwiki.renderingManager.renderer.wysiwyg"
  /** PageManager.PROP_USECACHE. */
  const PROP_USECACHE: string := "jspwiki.usePageCache"
  /** RenderingManager.DOCUMENTCACHE_NAME, appended to the application name. */
  const DOCUMENTCACHE_NAME: string := "jspwiki.renderingCache"
  const DEFAULT_PARSER: string := "org.apache.wiki.parser.JSPWikiMarkupParser"
  const DEFAULT_RENDERER: string := "org.apache.wiki.render.XHTMLRenderer"
  const DEFAULT_WYSIWYG_RENDERER: string := "org.apache.wiki.render.WysiwygEditingRenderer"
  /** WikiContext.VIEW, the request context of a plain page view. */
  const VIEW: string := "view"

  /**
   * The parts of a request's WikiContext the manager reads: the real page's name and
   * version, the execute-plugins variable, the request context and the
   * WYSIWYG-editor-mode variable (None when the variable is not set).
   */
  datatype WikiContext = WikiContext(
    realPageName: string,
    realPageVersion: int,
    executePlugins: PluginFlag,
    requestContext: string,
    wysiwygEditorMode: Option<bool>)

  /**
   * The key under which a request's document is cached; it reads back as the real
   * page's name and version and the execute-plugins flag.
   */
  function PageKey(ctx: WikiContext): (key: string)
    ensures ParseCacheKey(key) == Some(PageId(ctx.realPageName, ctx.realPageVersion, ctx.executePlugins))
  {
    ParseCacheKeyRoundTrip(ctx.realPageName, ctx.realPageVersion, ctx.executePlugins);
    CacheKey(ctx.realPageName, ctx.realPageVersion, ctx.executePlugins)
  }

  type Properties = map<string, string>

  /** Properties.getProperty(key, default). */
  function GetProperty(props: Properties, key: string, default: string): string
  {
    if key in props then props[key] else default
  }

  /** What reflection can find out about a class of the given name. */
  datatype JavaClass = JavaClass(isMarkupParser: bool, hasRendererConstructor: bool)

  /** The loadable classes by name; a name missing here is a ClassNotFoundException. */
  type Classpath = map<string, JavaClass>

  /** ClassUtil.assignable(className, MarkupParser): false for an unknown class. */
  predicate Assignable(classpath: Classpath, className: string)
  {
    className in classpath && classpath[className].isMarkupParser
  }

  /** A renderer's (WikiContext, WikiDocument) constructor, named by its class. */
  datatype RendererConstructor = RendererConstructor(className: string)

  datatype WikiException = WikiException(message: string)

  /**
   * initRenderer: look up the renderer class and its (context, document) constructor.
   * A missing class, or a class without that constructor, is a WikiException.
   */
  function InitRenderer(classpath: Classpath, renderImplName: string): (r: Result<RendererConstructor, WikiException>)
    ensures r.Success? <==> renderImplName in classpath && classpath[renderImplName].hasRendererConstructor
    ensures r.Success? ==> r.value.className == renderImplName
    ensures r.Failure? ==> r.error.message == "Failed to get WikiRenderer '" + renderImplName + "'."
  {
    if renderImplName in classpath && classpath[renderImplName].hasRendererConstructor then
      Success(RendererConstructor(renderImplName))
    else
      Failure(WikiException("Failed to get WikiRenderer '" + renderImplName + "'."))
  }

  /** Parsing `pagedata` for a context with the parser of the named class. */
  type MarkupParse = (string, WikiContext, string) -> ParseOutcome

  /** What instantiating a renderer class for (context, document) and calling getString() does. */
  datatype RenderOutcome = Output(html: string) | InstantiationFailed | RenderIOFailure
  type RenderOracle = (string, WikiContext, WikiDocument) -> RenderOutcome

  /**
   * How getHTML fails: a renderer that could not be created is null and getString()
   * throws a NullPointerException; an IOException from getString() propagates.
   */
  datatype HtmlError = NullRenderer | HtmlIOError

  /** getRenderer / getWysiwygRenderer followed by getString(). */
  function RendererString(ctor: Option<RendererConstructor>, ctx: WikiContext, doc: WikiDocument, render: RenderOracle): (r: Result<string, HtmlError>)
    ensures ctor.None? ==> r == Failure(NullRenderer)
    ensures ctor.Some? ==>
      (r.Success? <==> render(ctor.value.className, ctx, doc).Output?) &&
      (r.Success? ==> r.value == render(ctor.value.className, ctx, doc).html) &&
      (r == Failure(HtmlIOError) <==> render(ctor.value.className, ctx, doc) == RenderIOFailure)
  {
    match ctor
    case None => Failure(NullRenderer)
    case Some(c) =>
      match render(c.className, ctx, doc)
      case Output(html) => Success(html)
      case InstantiationFailed => Failure(NullRenderer)
      case RenderIOFailure => Failure(HtmlIOError)
  }

  datatype PageEventType = PostSaveBegin | OtherPageEventType

  /** The events the manager listens to; only page events carry a page name. */
  datatype WikiEvent = WikiPageEvent(eventType: PageEventType, pageName: string) | OtherWikiEvent

  class RenderingManager {
    const cacheManager: CacheManager
    /** m_useCache */
    var cachingEnabled: bool
    var markupParserClass: string
    var documentCache: DocumentCache?
    var rendererConstructor: Option<RendererConstructor>
    var rendererWysiwygConstructor: Option<RendererConstructor>

    /** The field initialisers, before initialize is called. */
    constructor (cacheManager: CacheManager)
      ensures this.cacheManager == cacheManager
      ensures cachingEnabled && markupParserClass == DEFAULT_PARSER && documentCache == null
      ensures rendererConstructor == None && rendererWysiwygConstructor == None
    {
      this.cacheManager := cacheManager;
      cachingEnabled := true;
      markupParserClass := DEFAULT_PARSER;
      documentCache := null;
      rendererConstructor := None;
      rendererWysiwygConstructor := None;
    }

    /** Once caching is on there is a cache to use. */
    predicate Valid()
      reads this
    {
      cachingEnabled ==> documentCache != null
    }

    /** The cache's contents, empty when there is no cache. */
    function CachedEntries(): Cache
      reads this, documentCache
    {
      if documentCache == null then map[] else documentCache.entries
    }

    /** Caching applies only to plain page views, and only when it is switched on. */
    predicate UseCache(ctx: WikiContext)
      reads this
      ensures UseCache(ctx) ==> cachingEnabled && ctx.requestContext == VIEW
      ensures cachingEnabled && ctx.requestContext == VIEW ==> UseCache(ctx)
      ensures UseCache(ctx) && Valid() ==> documentCache != null
    {
      cachingEnabled && ctx.requestContext == VIEW
    }

    /**
     * initialize: choose the parser class (falling back to the default one when the
     * configured class is not a MarkupParser), switch caching on only for the exact
     * property value "true", take or create the named document cache, then look up
     * both renderer constructors; a renderer that cannot be found is a WikiException,
     * raised after the parser and cache settings have been made.
     */
    method Initialize(props: Properties, applicationName: string, classpath: Classpath)
      returns (outcome: Outcome<WikiException>)
      modifies this, cacheManager
      ensures Valid()
      ensures var configured := GetProperty(props, PROP_PARSER, DEFAULT_PARSER);
        markupParserClass == if Assignable(classpath, configured) then configured else DEFAULT_PARSER
      ensures cachingEnabled <==> PROP_USECACHE in props && props[PROP_USECACHE] == "true"
      ensures !cachingEnabled ==> documentCache == old(documentCache) && cacheManager.caches == old(cacheManager.caches)
      ensures var name := applicationName + "." + DOCUMENTCACHE_NAME;
        cachingEnabled && old(cacheManager.CacheExists(name)) ==>
          documentCache == old(cacheManager.caches[name]) && cacheManager.caches == old(cacheManager.caches)
      ensures var name := applicationName + "." + DOCUMENTCACHE_NAME;
        cachingEnabled && !old(cacheManager.CacheExists(name)) ==>
          && fresh(documentCache)
          && documentCache.name == name && documentCache.entries == map[]
          && documentCache.maxEntries == DEFAULT_CACHESIZE
          && !documentCache.overflowToDisk && !documentCache.eternal
          && documentCache.timeToLiveSeconds == CACHE_EXPIRY_PERIOD
          && documentCache.timeToIdleSeconds == CACHE_EXPIRY_PERIOD
          && cacheManager.caches == old(cacheManager.caches)[name := documentCache]
      ensures var r1 := InitRenderer(classpath, GetProperty(props, PROP_RENDERER, DEFAULT_RENDERER));
        var r2 := InitRenderer(classpath, GetProperty(props, PROP_WYSIWYG_RENDERER, DEFAULT_WYSIWYG_RENDERER));
        && (r1.Failure? ==>
              && outcome == Fail(r1.error)
              && rendererConstructor == old(rendererConstructor)
              && rendererWysiwygConstructor == old(rendererWysiwygConstructor))
        && (r1.Success? && r2.Failure? ==>
              && outcome == Fail(r2.error)
              && rendererConstructor == Some(r1.value)
              && rendererWysiwygConstructor == old(rendererWysiwygConstructor))
        && (r1.Success? && r2.Success? ==>
              && outcome == Pass
              && rendererConstructor == Some(r1.value)
              && rendererWysiwygConstructor == Some(r2.value))
    {
      markupParserClass := GetProperty(props, PROP_PARSER, DEFAULT_PARSER);
      if !Assignable(classpath, markupParserClass) {
        markupParserClass := DEFAULT_PARSER;
      }

      cachingEnabled := PROP_USECACHE in props && props[PROP_USECACHE] == "true";

      if cachingEnabled {
        var documentCacheName := applicationName + "." + DOCUMENTCACHE_NAME;
        if cacheManager.CacheExists(documentCacheName) {
          documentCache := cacheManager.caches[documentCacheName];
        } else {
          var created := new DocumentCache(documentCacheName, DEFAULT_CACHESIZE, false, false,
                                           CACHE_EXPIRY_PERIOD, CACHE_EXPIRY_PERIOD);
          cacheManager.AddCache(created);
          documentCache := created;
        }
      }

      var renderImplName := GetProperty(props, PROP_RENDERER, DEFAULT_RENDERER);
      var renderWysiwygImplName := GetProperty(props, PROP_WYSIWYG_RENDERER, DEFAULT_WYSIWYG_RENDERER);

      var standard := InitRenderer(classpath, renderImplName);
      if standard.Failure? {
        return Fail(standard.error);
      }
      rendererConstructor := Some(standard.value);
      var wysiwyg := InitRenderer(classpath, renderWysiwygImplName);
      if wysiwyg.Failure? {
        return Fail(wysiwyg.error);
      }
      rendererWysiwygConstructor := Some(wysiwyg.value);
      outcome := Pass;
    }

    /**
     * getRenderedDocument: a fresh cached document is reused; otherwise the page data
     * is parsed, stamped on the document and, for cacheable requests, stored under the
     * request's key. A parse I/O error gives no document. The result and the new cache
     * are those of RenderCache.Render.
     */
    method GetRenderedDocument(ctx: WikiContext, pagedata: string, parse: MarkupParse)
      returns (doc: Option<WikiDocument>)
      requires Valid()
      modifies documentCache
      ensures var step := Render(old(CachedEntries()), UseCache(ctx), PageKey(ctx), pagedata,
                                 parse(markupParserClass, ctx, pagedata));
        doc == step.doc && CachedEntries() == step.cache
    {
      var pageid := PageKey(ctx);

      if UseCache(ctx) {
        var element := documentCache.Get(pageid);
        if element.Some? && pagedata == element.value.pageData {
          return element;
        }
      }

      var outcome := parse(markupParserClass, ctx, pagedata);
      match outcome
      case ParseIOError =>
        doc := None;
      case Parsed(tree) =>
        var parsed := WikiDocument(tree, pagedata);
        if UseCache(ctx) {
          documentCache.Put(pageid, parsed);
        }
        doc := Some(parsed);
    }

    /**
     * getHTML: the WYSIWYG renderer exactly when the WYSIWYG-editor-mode variable is
     * set and true, the standard renderer otherwise (also when the variable is unset).
     */
    function GetHTML(ctx: WikiContext, doc: WikiDocument, render: RenderOracle): (r: Result<string, HtmlError>)
      reads this
      ensures ctx.wysiwygEditorMode == Some(true) ==> r == RendererString(rendererWysiwygConstructor, ctx, doc, render)
      ensures ctx.wysiwygEditorMode != Some(true) ==> r == RendererString(rendererConstructor, ctx, doc, render)
    {
      var wysiwygEditorMode := if ctx.wysiwygEditorMode.Some? then ctx.wysiwygEditorMode.value else false;
      var ctor := if wysiwygEditorMode then rendererWysiwygConstructor else rendererConstructor;
      RendererString(ctor, ctx, doc, render)
    }

    /**
     * actionPerformed: when caching is on, the event is a POST_SAVE_BEGIN page event and
     * there is a cache, remove the bare page-name key and the three latest-version keys
     * of every referrer; otherwise do nothing.
     */
    method ActionPerformed(event: WikiEvent, findReferrers: string -> Option<seq<string>>)
      modifies documentCache
      ensures documentCache != null ==>
        (documentCache.entries ==
          if cachingEnabled && event.WikiPageEvent? && event.eventType == PostSaveBegin
          then old(documentCache.entries) - InvalidatedKeys(event.pageName, findReferrers(event.pageName))
          else old(documentCache.entries))
    {
      if cachingEnabled {
        if event.WikiPageEvent? && event.eventType == PostSaveBegin {
          if documentCache != null {
            var pageName := event.pageName;
            documentCache.Remove(pageName);
            var referringPages := findReferrers(pageName);
            if referringPages.Some? {
              var pages := referringPages.value;
              var i := 0;
              ghost var initial := old(documentCache.entries);
              while i < |pages|
                invariant 0 <= i <= |pages|
                invariant documentCache.entries == initial - ({pageName} + ReferrerKeys(pages[..i]))
              {
                var page := pages[i];
                FlushReferrerStep(initial, documentCache.entries, pageName, pages, i);
                documentCache.Remove(CacheKey(page, LATEST_VERSION, Disabled));
                documentCache.Remove(CacheKey(page, LATEST_VERSION, Enabled));
                documentCache.Remove(CacheKey(page, LATEST_VERSION, Unspecified));
                i := i + 1;
              }
              assert pages[..|pages|] == pages;
            }
          }
        }
      }
    }
  }

  /**
   * What a caller can conclude from the contracts alone: "Home" version 3 is parsed
   * once, served from the cache on the next view even by a failing parser, and its
   * versioned entry outlives the save event for "Home".
   */
  method SaveScenario(tree: ParseTree)
  {
    var caches := new CacheManager();
    var manager := new RenderingManager(caches);
    var classpath := map[DEFAULT_PARSER := JavaClass(true, false),
                         DEFAULT_RENDERER := JavaClass(false, true),
                         DEFAULT_WYSIWYG_RENDERER := JavaClass(false, true)];
    var outcome := manager.Initialize(map[PROP_USECACHE := "true"], "JSPWiki", classpath);
    assert outcome == Pass;

    var ctx := WikiContext("Home", 3, Disabled, VIEW, None);
    HomeScenario(tree, ParseIOError, Some(["Main"]));
    var first := manager.GetRenderedDocument(ctx, "Hello", (c, x, t) => Parsed(tree));
    assert manager.documentCache.entries == map["Home::3::false" := WikiDocument(tree, "Hello")];
    var second := manager.GetRenderedDocument(ctx, "Hello", (c, x, t) => ParseIOError);
    assert second == first;

    manager.ActionPerformed(WikiPageEvent(PostSaveBegin, "Home"), p => Some(["Main"]));
    assert "Home::3::false" in manager.documentCache.entries;
  }
}
