/**
 * The rendering cache's behaviour as functions on the cache's contents:
 * the look-up / staleness check / parse-and-store step of
 * getRenderedDocument, and the set of keys a POST_SAVE_BEGIN event
 * removes. The class in module Rendering is proved to follow them.
 */
module RenderCache {
  import opened Wrappers
  import opened CacheKeys

  /** The parser's document tree; its shape is outside this model. */
  datatype ParseTree = ParseTree(nodes: seq<string>)

  /** A parsed document stamped with the exact page data it was parsed from. */
  datatype WikiDocument = WikiDocument(tree: ParseTree, pageData: string)

  /** What `parser.parse()` did: produced a tree or threw an IOException. */
  datatype ParseOutcome = Parsed(tree: ParseTree) | ParseIOError

  type Cache = map<string, WikiDocument>

  /** The document handed back and the cache contents afterwards. */
  datatype RenderStep = RenderStep(doc: Option<WikiDocument>, cache: Cache)

  /** A cached document may be reused only if its page data equals the incoming text. */
  predicate IsFresh(cache: Cache, key: string, pagedata: string)
  {
    key in cache && cache[key].pageData == pagedata
  }

  /**
   * One call of getRenderedDocument: `useCache` is useCache(context), `key`
   * the context's cache key and `outcome` what the parser would do if it
   * were asked.
   */
  function Render(cache: Cache, useCache: bool, key: string, pagedata: string, outcome: ParseOutcome): (step: RenderStep)
    ensures step.doc.Some? ==> step.doc.value.pageData == pagedata
    ensures step.cache.Keys <= cache.Keys + {key}
    ensures forall k :: k in cache && k != key ==> k in step.cache && step.cache[k] == cache[k]
    ensures !useCache ==> step.cache == cache
  {
    if useCache && IsFresh(cache, key, pagedata) then RenderStep(Some(cache[key]), cache)
    else
      match outcome
      case ParseIOError => RenderStep(None, cache)
      case Parsed(tree) =>
        var doc := WikiDocument(tree, pagedata);
        RenderStep(Some(doc), if useCache then cache[key := doc] else cache)
  }

  /** Cache hit: the cached document itself, whatever the parser would do, and no change. */
  lemma CacheHit(cache: Cache, key: string, pagedata: string, outcome: ParseOutcome)
    requires IsFresh(cache, key, pagedata)
    ensures Render(cache, true, key, pagedata, outcome) == RenderStep(Some(cache[key]), cache)
  {
  }

  /**
   * Miss or stale entry: a parsed document carries `pagedata`, the key now maps to it
   * when caching applies, and every other entry is left as it was.
   */
  lemma MissParsesAndStores(cache: Cache, useCache: bool, key: string, pagedata: string, tree: ParseTree)
    requires !(useCache && IsFresh(cache, key, pagedata))
    ensures var step := Render(cache, useCache, key, pagedata, Parsed(tree));
      && step.doc == Some(WikiDocument(tree, pagedata))
      && (useCache ==> step.cache.Keys == cache.Keys + {key} && step.cache[key] == WikiDocument(tree, pagedata))
      && (forall k :: k in cache && k != key ==> k in step.cache && step.cache[k] == cache[k])
      && (!useCache ==> step.cache == cache)
  {
  }

  /** An I/O failure while parsing gives no document and leaves the cache as it was. */
  lemma ParseFailureLeavesCache(cache: Cache, useCache: bool, key: string, pagedata: string)
    requires !(useCache && IsFresh(cache, key, pagedata))
    ensures Render(cache, useCache, key, pagedata, ParseIOError) == RenderStep(None, cache)
  {
  }

  /** Whatever the path, a returned document is never stale: it carries exactly `pagedata`. */
  lemma ReturnedDocumentMatchesPageData(cache: Cache, useCache: bool, key: string, pagedata: string, outcome: ParseOutcome)
    ensures var step := Render(cache, useCache, key, pagedata, outcome);
      step.doc.Some? ==> step.doc.value.pageData == pagedata
  {
  }

  /** When caching does not apply the cache is neither read nor written. */
  lemma BypassIgnoresCache(c1: Cache, c2: Cache, key: string, pagedata: string, outcome: ParseOutcome)
    ensures Render(c1, false, key, pagedata, outcome).doc == Render(c2, false, key, pagedata, outcome).doc
    ensures Render(c1, false, key, pagedata, outcome).cache == c1
  {
  }

  /**
   * Rendering the same key and text twice with caching on: the second call returns the
   * first call's document, leaves the cache alone and does not depend on the parser.
   */
  lemma {:induction false} SecondRenderHits(cache: Cache, key: string, pagedata: string, first: ParseOutcome, second: ParseOutcome)
    requires Render(cache, true, key, pagedata, first).doc.Some?
    ensures var s1 := Render(cache, true, key, pagedata, first);
      Render(s1.cache, true, key, pagedata, second) == s1
  {
    var s1 := Render(cache, true, key, pagedata, first);
    assert IsFresh(s1.cache, key, pagedata);
  }

  // ---------------------------------------------------------------- invalidation

  /** The three "latest version" keys of a page, one per plugin-flag value. */
  function LatestVersionKeys(page: string): (keys: set<string>)
    ensures |keys| == 3
  {
    CacheKeyDistinctFlags(page, LATEST_VERSION);
    {CacheKey(page, LATEST_VERSION, Disabled), CacheKey(page, LATEST_VERSION, Enabled),
     CacheKey(page, LATEST_VERSION, Unspecified)}
  }

  /** The latest-version keys of every referrer, gathered in iteration order. */
  function ReferrerKeys(referrers: seq<string>): (keys: set<string>)
    ensures |keys| <= 3 * |referrers|
  {
    if referrers == [] then {}
    else ReferrerKeys(referrers[..|referrers| - 1]) + LatestVersionKeys(referrers[|referrers| - 1])
  }

  /** One more referrer adds its three latest-version keys. */
  lemma ReferrerKeysAppend(referrers: seq<string>, i: nat)
    requires i < |referrers|
    ensures ReferrerKeys(referrers[..i + 1]) == ReferrerKeys(referrers[..i]) + LatestVersionKeys(referrers[i])
  {
    assert referrers[..i + 1][..i] == referrers[..i];
  }

  /** Removing a referrer's three keys one by one, as the flush loop does, removes its LatestVersionKeys. */
  lemma FlushReferrerStep(initial: Cache, current: Cache, pageName: string, referrers: seq<string>, i: nat)
    requires i < |referrers|
    requires current == initial - ({pageName} + ReferrerKeys(referrers[..i]))
    ensures var page := referrers[i];
      ((current - {CacheKey(page, LATEST_VERSION, Disabled)}) - {CacheKey(page, LATEST_VERSION, Enabled)})
        - {CacheKey(page, LATEST_VERSION, Unspecified)}
      == initial - ({pageName} + ReferrerKeys(referrers[..i + 1]))
  {
    ReferrerKeysAppend(referrers, i);
  }

  /** Keys removed by a POST_SAVE_BEGIN event for `pageName`; `None` is a null referrer collection. */
  function InvalidatedKeys(pageName: string, referrers: Option<seq<string>>): (keys: set<string>)
    ensures pageName in keys
    ensures referrers.None? ==> keys == {pageName}
  {
    {pageName} + (if referrers.Some? then ReferrerKeys(referrers.value) else {})
  }

  /** A key is a referrer key exactly when it is a latest-version key of some referrer. */
  lemma {:induction false} ReferrerKeysExactly(referrers: seq<string>, k: string)
    ensures k in ReferrerKeys(referrers) <==>
      exists i, f :: 0 <= i < |referrers| && k == CacheKey(referrers[i], LATEST_VERSION, f)
  {
    if referrers != [] {
      var init := referrers[..|referrers| - 1];
      var last := referrers[|referrers| - 1];
      ReferrerKeysExactly(init, k);
      if k in ReferrerKeys(referrers) {
        if k in ReferrerKeys(init) {
          var i, f :| 0 <= i < |init| && k == CacheKey(init[i], LATEST_VERSION, f);
          assert referrers[i] == init[i];
        } else {
          var f :| k == CacheKey(last, LATEST_VERSION, f);
          assert k == CacheKey(referrers[|referrers| - 1], LATEST_VERSION, f);
        }
      } else {
        forall i, f | 0 <= i < |referrers|
          ensures k != CacheKey(referrers[i], LATEST_VERSION, f)
        {
          if i < |init| {
            assert referrers[i] == init[i];
          } else {
            assert referrers[i] == last;
            match f {
              case Disabled =>
              case Enabled =>
              case Unspecified =>
            }
          }
        }
      }
    }
  }

  /**
   * The removed keys are exactly the bare page name and, when the referrer collection is
   * not null, each referrer's latest-version key under each flag value.
   */
  lemma InvalidatedKeysExactly(pageName: string, referrers: Option<seq<string>>, k: string)
    ensures k in InvalidatedKeys(pageName, referrers) <==>
      k == pageName ||
      (referrers.Some? && exists i, f :: 0 <= i < |referrers.value| && k == CacheKey(referrers.value[i], LATEST_VERSION, f))
  {
    if referrers.Some? {
      ReferrerKeysExactly(referrers.value, k);
    }
  }

  /** A null referrer collection removes the bare page-name key only. */
  lemma NullReferrersRemoveBareKeyOnly(pageName: string)
    ensures InvalidatedKeys(pageName, None) == {pageName}
  {
  }

  /**
   * The saved page's own versioned entries survive the event, except a latest-version
   * entry of a page that also refers to itself.
   */
  lemma {:induction false} SavedPageVersionedKeysSurvive(pageName: string, referrers: Option<seq<string>>, version: int, flag: PluginFlag)
    requires version != LATEST_VERSION || referrers.None? || pageName !in referrers.value
    ensures CacheKey(pageName, version, flag) !in InvalidatedKeys(pageName, referrers)
  {
    var k := CacheKey(pageName, version, flag);
    assert |k| > |pageName|;
    InvalidatedKeysExactly(pageName, referrers, k);
    if referrers.Some? && exists i, f :: 0 <= i < |referrers.value| && k == CacheKey(referrers.value[i], LATEST_VERSION, f) {
      var i, f :| 0 <= i < |referrers.value| && k == CacheKey(referrers.value[i], LATEST_VERSION, f);
      CacheKeyInjective(pageName, version, flag, referrers.value[i], LATEST_VERSION, f);
      assert false;
    }
  }

  /** Removal of absent keys is harmless, so handling the same event twice changes nothing more. */
  lemma InvalidationIdempotent(cache: Cache, pageName: string, referrers: Option<seq<string>>)
    ensures (cache - InvalidatedKeys(pageName, referrers)) - InvalidatedKeys(pageName, referrers)
         == cache - InvalidatedKeys(pageName, referrers)
  {
  }

  // ---------------------------------------------------------------- key shape

  /** Every key of the cache was built by CacheKey. */
  ghost predicate WellKeyed(cache: Cache)
  {
    forall k :: k in cache ==> exists n, v, f :: k == CacheKey(n, v, f)
  }

  /** getRenderedDocument only ever stores under a CacheKey. */
  lemma {:induction false} RenderKeepsWellKeyed(cache: Cache, useCache: bool, id: PageId, pagedata: string, outcome: ParseOutcome)
    requires WellKeyed(cache)
    ensures WellKeyed(Render(cache, useCache, CacheKey(id.name, id.version, id.flag), pagedata, outcome).cache)
  {
    var key := CacheKey(id.name, id.version, id.flag);
    var after := Render(cache, useCache, key, pagedata, outcome).cache;
    forall k | k in after
      ensures exists n, v, f :: k == CacheKey(n, v, f)
    {
      if k == key {
        assert k == CacheKey(id.name, id.version, id.flag);
      } else {
        assert k in cache;
      }
    }
  }

  /**
   * On a cache filled by getRenderedDocument, removing the bare page name removes nothing
   * when the name contains no ':', since every stored key contains "::".
   */
  lemma BareNameNeverCached(cache: Cache, pageName: string)
    requires WellKeyed(cache) && ':' !in pageName
    ensures pageName !in cache
  {
  }

  /**
   * The save scenario: "Home" version 3 without plugins is parsed once into
   * "Home::3::false", found again on the second request, and still cached after the
   * POST_SAVE_BEGIN event for "Home", whatever its referrers.
   */
  lemma {:induction false} HomeScenario(tree: ParseTree, later: ParseOutcome, referrers: Option<seq<string>>)
    ensures var s1 := Render(map[], true, CacheKey("Home", 3, Disabled), "Hello", Parsed(tree));
      && CacheKey("Home", 3, Disabled) == "Home::3::false"
      && s1.cache == map["Home::3::false" := WikiDocument(tree, "Hello")]
      && Render(s1.cache, true, "Home::3::false", "Hello", later) == s1
      && "Home::3::false" in s1.cache - InvalidatedKeys("Home", referrers)
  {
    assert IntToString(3) == "3" by {
      assert NatToString(3) == [DigitChar(3)];
    }
    SavedPageVersionedKeysSurvive("Home", referrers, 3, Disabled);
  }
}
