# JSPWiki rendering cache — a Dafny model

This project models the rendering-cache logic of JSPWiki's `DefaultRenderingManager`.
That class is the facade between callers and the markup parser, the renderers and the
document cache. The model covers these parts:

- how a cache key `name::version::pluginFlag` is formed;
- how `getRenderedDocument` looks a document up, rejects a stale entry (one whose stored
  page data differs from the incoming text), and parses and stores on a miss;
- when caching applies at all (`useCache`: caching switched on and a VIEW request);
- how `initialize` picks the parser class, switches caching on and sets up the named
  cache, and how a missing renderer makes initialisation fail;
- how `getHTML` chooses between the WYSIWYG renderer and the standard renderer;
- how `actionPerformed` flushes entries when a POST_SAVE_BEGIN page event arrives.

Files:

- `wrappers.dfy` (module `Wrappers`): `Option`, `Result` and `Outcome`. They stand in for
  Java's `null` results and exceptions.
- `cache_keys.dfy` (module `CacheKeys`): the three-valued plugin flag, Java's printing of
  an `int`, the key function `CacheKey`, and its inverse `ParseCacheKey`. The inverse
  splits a key from the right. Together they prove that distinct triples never share a key.
- `render_cache.dfy` (module `RenderCache`): the look-up/parse/store step as a function
  on the cache's contents (`Render`), the keys a save event removes (`InvalidatedKeys`),
  and the lemmas about both.
- `ehcache.dfy` (module `Ehcache`): the document cache (a class whose entries are a
  `map`) and the process-wide cache manager.
- `rendering.dfy` (module `Rendering`): the `RenderingManager` class. Its methods
  `Initialize`, `GetRenderedDocument` and `ActionPerformed` change the fields and the
  cache in place, and each is proved against the functions above. `GetHTML` is a
  function of the fields.

The parser and the renderers are function-typed oracles. `MarkupParse` takes the parser
class name, the context and the page data. `RenderOracle` takes the renderer class name,
the context and the document. Loading a class by name is modelled by a `Classpath`: a
map from class name to what reflection would find. The reference manager is a function
from a page name to its referrers. `None` means Java's `null`; a `seq` keeps the order in
which the referrers are visited.

Two behaviours of the code are easy to misread, and the model keeps them as written:

- Caching is on only when the use-cache property is exactly `"true"`. When the property
  is absent, caching is off.
- The save event removes the bare page-name key and the referrers' latest-version keys.
  It does not remove the saved page's own versioned keys: in the "Home" scenario,
  `Home::3::false` survives (`RenderCache.HomeScenario`, `Rendering.SaveScenario`).

Constants declared in files that are not part of this model are used with these values:

- `WikiPageProvider.LATEST_VERSION` = -1;
- `PageManager.PROP_USECACHE` = `jspwiki.usePageCache`;
- `RenderingManager.DOCUMENTCACHE_NAME` = `jspwiki.renderingCache`;
- `WikiContext.VIEW` = `view`;
- the default parser, renderer and WYSIWYG renderer class names.

## Model

| member | source | states |
|---|---|---|
| `CacheKeys.FlagString` | jspwiki-main/src/main/java/org/apache/wiki/render/DefaultRenderingManager.java:155-157 | The flag prints as "true", "false" or "null"; the text holds no ':' and reads back as the same flag. |
| `CacheKeys.IntToString` | jspwiki-main/src/main/java/org/apache/wiki/render/DefaultRenderingManager.java:155-157 | The printed version holds no ':' and parses back to the same integer, negative versions included. Like Java's printing, it has no leading zero and never reads "-0". |
| `CacheKeys.CacheKey` | jspwiki-main/src/main/java/org/apache/wiki/render/DefaultRenderingManager.java:155-157 | The key of (name, version, flag) starts with the page name and the delimiter; its round trip and injectivity are the two lemmas below. |
| `CacheKeys.ParseCacheKeyRoundTrip` | jspwiki-main/src/main/java/org/apache/wiki/render/DefaultRenderingManager.java:155-157 | Splitting the key `name::version::flag` from the right gives back exactly (name, version, flag), whatever the name contains. |
| `CacheKeys.CacheKeyInjective` | jspwiki-main/src/main/java/org/apache/wiki/render/DefaultRenderingManager.java:68 | Two (name, version, flag) triples with the same key are the same triple. |
| `CacheKeys.CacheKeyDistinctFlags` | jspwiki-main/src/main/java/org/apache/wiki/render/DefaultRenderingManager.java:275-277 | The three plugin-flag values give three different keys for the same page and version, so the three removals per referrer hit three different entries. |
| `RenderCache.Render` | jspwiki-main/src/main/java/org/apache/wiki/render/DefaultRenderingManager.java:159-192 | One getRenderedDocument step on the cache contents. A returned document always carries the incoming page data. The cache gains at most the request's key, every other entry is kept, and nothing changes when caching does not apply. |
| `RenderCache.CacheHit` | jspwiki-main/src/main/java/org/apache/wiki/render/DefaultRenderingManager.java:159-172 | When caching applies and the entry's page data equals the incoming data, the cached document is returned and the cache is unchanged, whatever the parser would do. |
| `RenderCache.MissParsesAndStores` | jspwiki-main/src/main/java/org/apache/wiki/render/DefaultRenderingManager.java:178-186 | On a miss or a stale entry, a successful parse returns a document stamped with the page data. When caching applies, the key then maps to it. Every other entry stays as it was. |
| `RenderCache.ParseFailureLeavesCache` | jspwiki-main/src/main/java/org/apache/wiki/render/DefaultRenderingManager.java:187-191 | A parse I/O error yields no document and leaves the cache unchanged. |
| `RenderCache.ReturnedDocumentMatchesPageData` | jspwiki-main/src/main/java/org/apache/wiki/render/DefaultRenderingManager.java:159-186 | On every path, a returned document carries exactly the incoming page data, so a stale document is never returned. |
| `RenderCache.BypassIgnoresCache` | jspwiki-main/src/main/java/org/apache/wiki/render/DefaultRenderingManager.java:159-196 | When useCache is false, the result does not depend on the cache and the cache is not written. |
| `RenderCache.SecondRenderHits` | jspwiki-main/src/main/java/org/apache/wiki/render/DefaultRenderingManager.java:159-186 | After a successful cached render, the same request returns the same document. It leaves the cache as it is and does not depend on the parser. |
| `RenderCache.LatestVersionKeys` | jspwiki-main/src/main/java/org/apache/wiki/render/DefaultRenderingManager.java:275-277 | The keys `page::-1::false`, `page::-1::true` and `page::-1::null` flushed for one referrer; there are exactly three of them. |
| `RenderCache.ReferrerKeys` | jspwiki-main/src/main/java/org/apache/wiki/render/DefaultRenderingManager.java:269-278 | The keys flushed by the loop over the referrers, gathered in iteration order; at most three per referrer. |
| `RenderCache.FlushReferrerStep` | jspwiki-main/src/main/java/org/apache/wiki/render/DefaultRenderingManager.java:270-277 | One pass of the referrer loop, removing the three keys one by one, extends the removed set by that referrer's LatestVersionKeys. |
| `RenderCache.InvalidatedKeys` | jspwiki-main/src/main/java/org/apache/wiki/render/DefaultRenderingManager.java:262-278 | The keys a save event removes. They always include the bare page name, and with a null referrer collection they are only that name. |
| `RenderCache.ReferrerKeysExactly` | jspwiki-main/src/main/java/org/apache/wiki/render/DefaultRenderingManager.java:269-278 | The loop over the referrers removes exactly the keys `r::-1::f`, for each referrer r and each flag f. |
| `RenderCache.InvalidatedKeysExactly` | jspwiki-main/src/main/java/org/apache/wiki/render/DefaultRenderingManager.java:261-278 | A save event removes a key if and only if it is the bare page name or, with a non-null referrer collection, a referrer's latest-version key. |
| `RenderCache.NullReferrersRemoveBareKeyOnly` | jspwiki-main/src/main/java/org/apache/wiki/render/DefaultRenderingManager.java:262-269 | With a null referrer collection, only the bare page-name key is removed. |
| `RenderCache.SavedPageVersionedKeysSurvive` | jspwiki-main/src/main/java/org/apache/wiki/render/DefaultRenderingManager.java:262-277 | The saved page's own versioned keys are not removed, unless the page is its own referrer and the version is the latest-version marker. |
| `RenderCache.InvalidationIdempotent` | jspwiki-main/src/main/java/org/apache/wiki/render/DefaultRenderingManager.java:262-277 | Handling the same save event twice leaves the same cache as handling it once. |
| `RenderCache.RenderKeepsWellKeyed` | jspwiki-main/src/main/java/org/apache/wiki/render/DefaultRenderingManager.java:155-186 | getRenderedDocument stores only under keys built by CacheKey. |
| `RenderCache.BareNameNeverCached` | jspwiki-main/src/main/java/org/apache/wiki/render/DefaultRenderingManager.java:262 | In a cache whose keys were all built by CacheKey, a page name without ':' is never a key, so removing the bare name removes nothing. |
| `RenderCache.HomeScenario` | jspwiki-main/src/main/java/org/apache/wiki/render/DefaultRenderingManager.java:155-278 | "Home" version 3 without plugins is cached under "Home::3::false" and found again. The entry survives the save event for "Home", whatever the referrers. |
| `Rendering.PageKey` | jspwiki-main/src/main/java/org/apache/wiki/render/DefaultRenderingManager.java:155-157 | The request's key is CacheKey of the real page's name, its version and the execute-plugins variable, and it reads back as exactly that triple. |
| `Rendering.RendererString` | jspwiki-main/src/main/java/org/apache/wiki/render/DefaultRenderingManager.java:217-246 | Creating a renderer and calling getString(). A missing constructor or a failed instantiation gives the NullPointerException error, an IOException from the renderer gives the I/O error, and otherwise the result is the renderer's output. |
| `Rendering.InitRenderer` | jspwiki-main/src/main/java/org/apache/wiki/render/DefaultRenderingManager.java:118-134 | A renderer class that is missing, or that has no (context, document) constructor, yields a WikiException naming it. Otherwise the result is that class's constructor. |
| `Rendering.RenderingManager.constructor` | jspwiki-main/src/main/java/org/apache/wiki/render/DefaultRenderingManager.java:64-78 | Before initialisation, caching is on, the parser is the default one, and there is no cache and no renderer constructor. |
| `Rendering.RenderingManager.Initialize` | jspwiki-main/src/main/java/org/apache/wiki/render/DefaultRenderingManager.java:84-116 | Parser class: the configured one if it is a MarkupParser, else the default. Caching: on exactly for the value "true". Cache: the existing named cache is reused, else a fresh empty one (1000 entries, 86400 s) is created and registered. The first renderer that cannot be found fails initialisation, after the earlier settings are made. |
| `Rendering.RenderingManager.UseCache` | jspwiki-main/src/main/java/org/apache/wiki/render/DefaultRenderingManager.java:194-196 | The cache is used exactly when caching is on and the request context is VIEW. Once initialised, a cache then exists. |
| `Rendering.RenderingManager.GetRenderedDocument` | jspwiki-main/src/main/java/org/apache/wiki/render/DefaultRenderingManager.java:154-196 | The returned document and the new cache contents are those of `Render`, for the request's key, useCache(context) and the parser's outcome. |
| `Rendering.RenderingManager.GetHTML` | jspwiki-main/src/main/java/org/apache/wiki/render/DefaultRenderingManager.java:202-218 | The WYSIWYG renderer is used exactly when the WYSIWYG-editor-mode variable is set and true. Otherwise, including when the variable is absent, the standard renderer is used. |
| `Rendering.RenderingManager.ActionPerformed` | jspwiki-main/src/main/java/org/apache/wiki/render/DefaultRenderingManager.java:256-283 | With caching on, a POST_SAVE_BEGIN page event and an existing cache, the new entries are the old ones minus `InvalidatedKeys`. In every other case the cache is unchanged. |
| `Ehcache.DocumentCache.constructor` | jspwiki-main/src/main/java/org/apache/wiki/render/DefaultRenderingManager.java:101 | A new cache is empty and keeps its name, capacity, overflow and eternal flags, and expiry settings. |
| `Ehcache.DocumentCache.Get` | jspwiki-main/src/main/java/org/apache/wiki/render/DefaultRenderingManager.java:160 | The look-up gives the document stored under the key, or None (Java's null) when the key is absent. |
| `Ehcache.DocumentCache.Put` | jspwiki-main/src/main/java/org/apache/wiki/render/DefaultRenderingManager.java:184 | Storing a document maps its key to it and changes no other entry. |
| `Ehcache.DocumentCache.Remove` | jspwiki-main/src/main/java/org/apache/wiki/render/DefaultRenderingManager.java:262 | Removing a key drops that entry only. Removing an absent key changes nothing. |
| `Ehcache.CacheManager.AddCache` | jspwiki-main/src/main/java/org/apache/wiki/render/DefaultRenderingManager.java:102 | The new cache is registered under its name. |

## Left out

- Cache capacity eviction and time-based expiry are not modelled: the document cache is an unbounded map. Their behaviour depends on the wall clock and on the cache library's internals. Capacity and expiry are recorded only as settings.
- Class loading by reflection (`Class.forName`, `getConstructor`, `ClassUtil.assignable`, `ClassUtil.getMappedObject`, `newInstance`) is replaced by the `Classpath` map and the parser and renderer oracles. `ClassUtil` is not part of this model; it is taken to answer "not assignable" for a class it cannot load.
- `getParser`'s fallback to the default parser when the configured class cannot be instantiated is inside the parse oracle. The oracle receives the configured parser class name. The parse tree and the HTML text are not specified.
- `getRenderer` and `getWysiwygRenderer` appear only inside `getHTML`. A renderer that cannot be created becomes a `NullRenderer` error, the NullPointerException that `getString()` then raises.
- `Rendering.RenderingManager.GetRenderedDocument` is modelled only after `initialize`. Before it, caching is on and there is no cache, and Java throws a NullPointerException on a VIEW request.
- Object identity is not modelled: documents are values, so "the same document" means an equal value.
- Logging is left out.
- The event-bus registration at the end of `initialize` is left out, and so is keeping the engine reference. The reference manager is a parameter of `ActionPerformed`.
- Concurrent access to the shared cache is left out. The model is single-threaded.
- Page versions are unbounded integers, not 32-bit Java `int`s.
- Context variables of unexpected types are not modelled. A non-Boolean WYSIWYG variable makes `getHTML` throw ClassCastException, and a non-Boolean execute-plugins value would print in some other way. The plugin flag has three values and the WYSIWYG variable is an optional boolean.
- WikiPageEvent's numeric event codes are not part of this model. Page events are POST_SAVE_BEGIN or another type.
- The workflow manager test, the JAAS callback handler and the browser-driven edit test are not part of this model.
