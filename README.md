# Larq website scripts, modelled in Dafny

This project models the small, deterministic logic inside the JavaScript of the Larq Arquitectura y
Construcción website. The browser surfaces become abstract state:

- cache partitions are maps;
- class lists and attributes are booleans;
- element lists are sequences;
- the network is an input that either delivers a response or fails.

One Dafny module models each script:

- `ServiceWorker` (`service-worker.js`): the fetch filter, the first-match strategy table, the three caching strategies over named partitions, the activation clean-up, the cache status.
- `Galeria` (`galeria-script.js`): the photo gallery: wrap-around modal navigation, category filtering, search, an insertion sort by the chosen criterion.
- `ArchitecturalGallery` (`script.js`): the project viewer: a clamped image index, zoom in [1, 3], the image height in [35, 70], swipes, the rendering decisions.
- `DynamicHeader` (`script.js`, `script-optimized.js`): the header's hide rule.
- `FormValidation` (`script.js`, `script-optimized.js`): `validateField` with the e-mail and phone patterns as string predicates, and the field's error display.
- `ErrorMonitor` (`error-monitor.js`): newest-first logs capped at 50, the stored snapshot of 10, the indicator, the health check, the export summary.
- `FontOptimizer` (`font-optimizer.js`): font URLs, the idempotent stylesheet-address rewrite, the registry of loaded faces, fallbacks, preloads.
- `SeoOptimizer` (`seo-optimizer.js`): page data and breadcrumbs with fallbacks, the breadcrumb schema and navigation, page schema, alt text, sitemap, canonical URL, the meta-tag upsert.
- `ScriptOptimized` (`script-optimized.js`): the hamburger navigation, the single-image project modal, the preload hints.
- `DevTools` (`dev-tools.js`): metric and memory colours, the capped network and console lists, the panel's timer and tab refresh, stored-value truncation.
- `TestSuite` (`test-suite.js`): the SEO and accessibility checks, the recording of results, the summary.
- `ImageOptimizer` (`image-optimizer.js`): alt text and placeholders by context, the attribute pass, the lazy-image fallback, `srcset`.
- `MobileMenu` (`mobile-menu.js`): the enhanced menu's open/close state machine with its ARIA attributes and overlay.
- `Strings` (shared by all of them): the JavaScript string operations the scripts use: `trim`, `\s`, `includes`, `endsWith`, `split`, ASCII lower-casing, `replace`, `Math.round` of a quotient.

Code that changes state step by step is modelled as Dafny classes. Their methods are proved against
pure functions of the old state, and the properties the site relies on are proved about those
functions as lemmas.

Where the code does not do what its surrounding description says, the model follows the code:

- `networkFirst` and `cacheFirst` read through `caches.match`, which searches every partition in
  creation order, not only the strategy's own partition. `staleWhileRevalidate` reads only its own
  partition.
- In `staleWhileRevalidate`, a request with no cached copy whose fetch fails resolves to
  `undefined`. The fetch handler then fails.
- In `networkFirst`, the offline fallback to `/index.html` for documents can itself be missing.
  That request also fails.
- `SimpleGallery.openProject` with an unknown id still overwrites `currentProject` (it becomes
  undefined). It leaves the modal as it was, open or closed.
- `SimpleGallery.updateImageDisplay` tests the image address for truthiness, so an empty address
  shows the placeholder.
- In the developer panel, a request whose fetch threw has the status text `Error`. That text
  compares false against both bounds, so it is shown green.
- The test-suite summary of a run with no results divides 0 by 0. The percentage is NaN and the
  colour red.
- In the photo gallery, `nextImage` and `previousImage` on an empty filtered list produce a NaN
  index. The model keeps it as a distinct value.
- In `script.js`, `resetZoom` leaves the zoom-mode flag as it was (`ResetKeepsZoomMode`).

## Model

| member | source | states |
|---|---|---|
| ServiceWorker.MatchIn | service-worker.js:121 | `caches.match` finds nothing iff no listed partition holds the url; otherwise it finds the entry of the first listed partition, in creation order, that holds the url |
| ServiceWorker.WithPartition | service-worker.js:114 | `caches.open` guarantees the partition exists and leaves every existing partition untouched, creating no other |
| ServiceWorker.WithEntry | service-worker.js:114-115 | `cache.put` stores the response under the url in that partition, keeps its other entries and every other partition |
| ServiceWorker.Without | service-worker.js:322-324 | `caches.delete` removes exactly that partition; every other partition keeps its contents |
| ServiceWorker.RemoveNameMembers | service-worker.js:322-324 | deleting drops exactly that name from the list of partition names |
| ServiceWorker.KeepValidMembers | service-worker.js:249-261 | the names surviving the clean-up are exactly the listed names in the valid set |
| ServiceWorker.FirstMatch | service-worker.js:186-225 | the routing table yields the strategy of the first row whose test holds, and network-first when none does |
| ServiceWorker.DetermineStrategyIsFirstMatch | service-worker.js:186-225 | the if-chain of `determineStrategy` agrees with the first-match rule table on every request |
| ServiceWorker.PagesAreNetworkFirst | service-worker.js:192-194 | a document or a `.html` path is network-first whatever later rules it also satisfies |
| ServiceWorker.PartitionFor | service-worker.js:227-247 | `handleRequest` always uses a valid partition: images under cache-first go to the image cache, other cache-first requests to the static cache, everything else to the dynamic cache |
| ServiceWorker.LookupFindsStoredEntries | service-worker.js:121-125 | a lookup over the whole storage misses iff no partition holds the url, and a hit is an entry stored in some partition |
| ServiceWorker.SkippedRequestsAreNotIntercepted | service-worker.js:86-97 | non-GET and browser-extension requests are not answered by the worker and leave the caches unchanged |
| ServiceWorker.FailedFetchWritesNothing | service-worker.js:109-182 | a failed or non-ok fetch writes nothing under network-first or cache-first; stale-while-revalidate at most creates its empty partition |
| ServiceWorker.OkResponseIsStored | service-worker.js:109-182 | an ok network response ends up stored under its url in the strategy's partition (for cache-first, whenever the network was consulted) |
| ServiceWorker.StrategiesTouchOnlyTheirPartition | service-worker.js:109-182 | every strategy leaves each other existing partition as it was |
| ServiceWorker.OfflineNetworkFirstServesCachedCopy | service-worker.js:119-125 | offline, network-first answers with the cached copy and writes nothing |
| ServiceWorker.CacheFirstHitIgnoresNetwork | service-worker.js:138-142 | a cache-first hit gives the same answer and storage whatever the network does, and writes nothing |
| ServiceWorker.OfflineMissFallbacks | service-worker.js:119-162 | offline misses: images get the placeholder picture, other cache-first requests fail, and a navigation gets the cached `/index.html` when there is one and fails otherwise |
| ServiceWorker.StaleThenFresh | service-worker.js:166-182 | stale-while-revalidate serves the old copy first and the copy it refreshed on the next request |
| ServiceWorker.WithEntryWellFormed | service-worker.js:114-115 | opening a partition and putting an entry keep the names listed once each, matching the partitions |
| ServiceWorker.FetchEventKeepsWellFormed | service-worker.js:86-106 | every fetch event keeps the storage well formed |
| ServiceWorker.RemoveNameDistinct | service-worker.js:322-324 | deleting keeps the partition names distinct |
| ServiceWorker.WithoutWellFormed | service-worker.js:322-324 | deleting a partition keeps the storage well formed |
| ServiceWorker.KeepValidDistinct | service-worker.js:249-261 | the clean-up's surviving names stay distinct |
| ServiceWorker.CleanedKeepsExactlyValid | service-worker.js:249-261 | activation keeps exactly the partitions in the valid set, with their contents, so the legacy `larq-arquitectura-v1.0.0` cache is deleted |
| ServiceWorker.CacheStorage.constructor | service-worker.js:114 | the cache storage starts from a given state |
| ServiceWorker.CacheStorage.Open | service-worker.js:114 | `caches.open` changes the state as `WithPartition` |
| ServiceWorker.CacheStorage.Put | service-worker.js:115 | `cache.put` changes the state as `WithEntry` |
| ServiceWorker.CacheStorage.Delete | service-worker.js:322-324 | `caches.delete` changes the state as `Without` |
| ServiceWorker.CacheStorage.Match | service-worker.js:138-142 | the scan over the partitions in creation order returns the first stored entry for the url, or nothing (`Lookup`) |
| ServiceWorker.CacheStorage.MatchInPartition | service-worker.js:167-168 | `cache.match` on one partition, opened first, finds exactly that partition's entry |
| ServiceWorker.ServeNetworkFirst | service-worker.js:109-134 | the reply and the new storage are those of the network-first step |
| ServiceWorker.ServeCacheFirst | service-worker.js:137-163 | the reply and the new storage are those of the cache-first step |
| ServiceWorker.ServeStaleWhileRevalidate | service-worker.js:166-182 | the reply and the new storage are those of the stale-while-revalidate step |
| ServiceWorker.HandleRequest | service-worker.js:227-247 | the routed strategy runs in the partition `PartitionFor` names: image, static or dynamic |
| ServiceWorker.OnFetch | service-worker.js:86-106 | skipped requests are left to the browser; every other request is answered by the routed strategy (`FetchEventStep`) |
| ServiceWorker.PartlyCleanedStep | service-worker.js:253-258 | examining one more name keeps the storage for a valid name and deletes exactly that partition otherwise |
| ServiceWorker.CleanOldCaches | service-worker.js:249-261 | after activation exactly the partitions in the valid set remain, with their contents (`Cleaned`) |
| ServiceWorker.CleanOne | service-worker.js:254-258 | one name of the scan: deleted exactly when it is outside the valid set |
| ServiceWorker.ClearSpecificCache | service-worker.js:322-324 | exactly the named partition is deleted and every other keeps its contents (`Without`) |
| ServiceWorker.GetCacheStatus | service-worker.js:309-320 | the status has one key per partition, holding its number of entries |
| FontOptimizer.FontSlug | font-optimizer.js:58 | the family's slug has no whitespace left |
| FontOptimizer.FontPath | font-optimizer.js:55-63 | a font file's path ends in `.woff2` |
| FontOptimizer.FontUrl | font-optimizer.js:55-63 | a font file address is the `fonts.gstatic.com` host followed by the font path |
| FontOptimizer.FontFilesAreCacheFirst | font-optimizer.js:40-53 | a preloaded font file is served cache-first from the static partition by the site's service worker |
| FontOptimizer.AddParam | font-optimizer.js:88-97 | a parameter goes after `&` when the address has a query and after `?` otherwise; nothing already in the address is lost |
| FontOptimizer.OptimizeHref | font-optimizer.js:78-101 | the rewritten address extends the original, contains `display=` and `subset=`, and an address that had both is unchanged |
| FontOptimizer.OptimizeHrefIdempotent | font-optimizer.js:78-101 | rewriting a rewritten address changes nothing |
| FontOptimizer.OptimizeBareHref | font-optimizer.js:88-97 | a bare address gains `?display=swap&subset=latin,latin-ext` |
| FontOptimizer.NotContainsSubset | font-optimizer.js:88-97 | appending `?display=swap` never creates a `subset=`, so the subset test after it sees the original address |
| FontOptimizer.FallbackFor | font-optimizer.js:224-240 | the system stack exactly for Inter and Poppins, the only families the script loads, and `sans-serif` for any other family name that is not an inherited property name |
| FontOptimizer.LoadedKeysMembers | font-optimizer.js:125-144 | a key is registered as loaded iff some face with that key loaded successfully |
| FontOptimizer.OutcomeClass | font-optimizer.js:201-222 | every class the callbacks add starts with `font-` |
| FontOptimizer.Fallbacks | font-optimizer.js:214-222 | at most one fallback rule per face |
| FontOptimizer.FamilyUrls | font-optimizer.js:34-36 | one preload address per weight |
| FontOptimizer.PreloadUrls | font-optimizer.js:33-37 | one preload address per family and weight |
| FontOptimizer.AfterFacesFields | font-optimizer.js:125-144 | after the pass the promise keys cover every face, the loaded keys are those of the faces that succeeded, each face added its outcome class, and each failed face appended its fallback, in order |
| FontOptimizer.Optimizer.constructor | font-optimizer.js:5-9 | the optimiser starts with no loaded fonts, promises, classes, rules or preloads |
| FontOptimizer.Optimizer.PreloadFont | font-optimizer.js:40-53 | one preload link with the file address is appended to the head |
| FontOptimizer.Optimizer.PreloadCriticalFonts | font-optimizer.js:19-38 | the head gains the preload addresses of the two families in their four weights, eight links |
| FontOptimizer.Optimizer.PreloadFonts | font-optimizer.js:33-37 | the head gains `PreloadUrls` of the families and weights, in order |
| FontOptimizer.Optimizer.PreloadFamily | font-optimizer.js:34-36 | the head gains one family's addresses, weight by weight |
| FontOptimizer.Optimizer.OnFontLoaded | font-optimizer.js:132-136 | the face's key is registered and its `-loaded` class added |
| FontOptimizer.Optimizer.OnFontError | font-optimizer.js:214-222 | the `-error` class is added and the family's fallback rule appended |
| FontOptimizer.Optimizer.UseFontLoadingApi | font-optimizer.js:113-147 | after the eight loads settle, the promises, loaded keys, body classes and fallback rules are those the outcomes determine |
| FontOptimizer.Optimizer.LoadFaces | font-optimizer.js:125-144 | the state after the loop is `AfterFaces` of the outcomes |
| FontOptimizer.Optimizer.LoadFace | font-optimizer.js:126-143 | one face registers its promise and runs the callback its outcome selects |
| FontOptimizer.Optimizer.IsFontLoaded | font-optimizer.js:277-279 | true iff the `family-weight` key is registered |
| FontOptimizer.Optimizer.Destroy | font-optimizer.js:290-293 | the registries are emptied and nothing else changes |
| FontOptimizer.LoadedExactlyWhenSucceeded | font-optimizer.js:114-144 | after the pass each critical face counts as loaded exactly when its own load succeeded |
| FontOptimizer.FontKeyInjective | font-optimizer.js:114-123 | the eight critical faces have eight different keys |
| SeoOptimizer.GetPageData | seo-optimizer.js:65-96 | a known path gets its own page's data and every other path the home page's |
| SeoOptimizer.PageDataFallback | seo-optimizer.js:65-96 | the home page's data is returned exactly for `/index.html` and the unknown paths |
| SeoOptimizer.GenerateBreadcrumbs | seo-optimizer.js:285-308 | a mapped path gets its trail and any other path the root's; every trail starts at Inicio and has one or two levels |
| SeoOptimizer.TrailLength | seo-optimizer.js:285-308 | a trail has two levels exactly on the four mapped inner pages; `/galeria.html` gets the root's single crumb |
| SeoOptimizer.BreadcrumbSchema | seo-optimizer.js:270-283 | one list item per crumb, positions counting from 1, names and addresses copied |
| SeoOptimizer.SchemaPositions | seo-optimizer.js:270-283 | positions are consecutive from 1 and the last equals the trail's length |
| SeoOptimizer.BreadcrumbNav | seo-optimizer.js:466-503 | no navigation for a single crumb; otherwise one entry per crumb, links for all but the last, which is the current page |
| SeoOptimizer.OneCurrentEntry | seo-optimizer.js:466-503 | a shown navigation marks exactly one entry as current |
| SeoOptimizer.PageSpecificSchema | seo-optimizer.js:310-320 | creative work iff the path mentions `proyectos`; contact page iff it mentions `contacto` and not `proyectos`; none otherwise |
| SeoOptimizer.SeoAltText | seo-optimizer.js:426-439 | with a project heading the alt is the heading plus the firm's suffix; otherwise it is exactly the file's stem (no `/` or `.`, up to the first dot of the last segment) plus the longer suffix |
| SeoOptimizer.GenerateSitemap | seo-optimizer.js:549-564 | five entries, each the page's path under `https://larq.net` with its priority and change frequency and the given date |
| SeoOptimizer.SitemapOnSite | seo-optimizer.js:549-564 | every sitemap address is on the site and the first is its root |
| SeoOptimizer.CanonicalUrl | seo-optimizer.js:442-456 | the canonical address is the site's base followed by the path |
| SeoOptimizer.FirstNamed | seo-optimizer.js:55-63 | the first tag carrying the name, or none when no tag carries it |
| SeoOptimizer.Upsert | seo-optimizer.js:55-63 | a missing tag is appended; otherwise the first tag with the name takes the new content |
| SeoOptimizer.UpsertReads | seo-optimizer.js:55-63 | after an update the name reads the new content and every other name reads what it read before |
| SeoOptimizer.FirstNamedAt | seo-optimizer.js:55-63 | a tag with the name preceded by none is the one found |
| SeoOptimizer.UpsertIdempotent | seo-optimizer.js:55-63 | setting a tag twice to the same content equals setting it once |
| SeoOptimizer.DocumentHead.constructor | seo-optimizer.js:5-10 | the head starts with the given tags and canonical link |
| SeoOptimizer.DocumentHead.FindMeta | seo-optimizer.js:56 | the scan returns the first tag with the name |
| SeoOptimizer.DocumentHead.UpdateMetaTag | seo-optimizer.js:55-63 | the tags become `Upsert` of the old ones; the canonical link is untouched |
| SeoOptimizer.DocumentHead.SetupCanonicalUrls | seo-optimizer.js:442-456 | the canonical link points at the path's canonical address; the tags are untouched |
| ArchitecturalGallery.PositionCount | script.js:836 | a project has at least one position, and as many as its pictures when it has a gallery |
| ArchitecturalGallery.NavBarFor | script.js:845-875 | previous is disabled exactly on the first picture, next exactly on the last; the counter shows the position from 1 and the total |
| ArchitecturalGallery.Thumbnails | script.js:908-923 | no strip for one picture or none; otherwise one thumbnail per picture, active exactly at the position |
| ArchitecturalGallery.ExactlyOneActiveThumbnail | script.js:908-923 | a shown strip has exactly one active thumbnail when the position is in range |
| ArchitecturalGallery.LayoutFor | script.js:832-843 | the gallery view iff the project has more than one picture; the single view iff it has a non-empty single picture instead; the placeholder otherwise |
| ArchitecturalGallery.GalleryLayoutConsistent | script.js:845-875 | in the gallery view the shown picture, the navigation bar and the thumbnail strip all follow the position |
| ArchitecturalGallery.ClampZoom | script.js:1052 | the zoom stays within [1, 3] and a value already inside is kept |
| ArchitecturalGallery.ClampHeight | script.js:1190 | the picture height stays within [35, 70] and a value already inside is kept |
| ArchitecturalGallery.InfoHeightComplements | script.js:1186-1209 | for a clamped height the description takes the rest of the 100 units, between 30 and 65, so the floor of 30 never applies |
| ArchitecturalGallery.SwipeFor | script.js:412-433 | a swipe counts iff it is mostly horizontal and longer than 50 pixels; leftward moves forward, rightward back |
| ArchitecturalGallery.SwipeReversed | script.js:412-433 | the mirror gesture has the opposite effect |
| ArchitecturalGallery.SwipeTracker.constructor | script.js:404-405 | the start point starts at zero |
| ArchitecturalGallery.SwipeTracker.TouchStart | script.js:407-410 | the start point is recorded |
| ArchitecturalGallery.SwipeTracker.TouchEnd | script.js:412-433 | with a zero start coordinate nothing happens; otherwise the action is `SwipeFor` of the deltas and the start is reset |
| ArchitecturalGallery.Reset | script.js:1111-1121 | from a consistent state the reset stays consistent; zoom 1 and centred, with the zoom-mode and scroll-adjustment marks kept |
| ArchitecturalGallery.ZoomAdjusted | script.js:1051-1101 | the zoom becomes the clamped sum; with a picture on screen zoom mode is on exactly when the level is not 1 and the scroll adjustment exactly when it is |
| ArchitecturalGallery.ZoomToggled | script.js:1103-1109 | from a consistent state the level alternates: above 1 it returns to 1, at 1 it goes to 2 |
| ArchitecturalGallery.Previous | script.js:1016-1022 | keeps the project and consistency; the position drops by one exactly when there is a gallery and a picture before |
| ArchitecturalGallery.Next | script.js:1024-1030 | keeps the project and consistency; the position rises by one exactly when there is a gallery and a picture after |
| ArchitecturalGallery.ThumbnailSelected | script.js:1006-1014 | the position becomes the thumbnail's, which keeps the state consistent when it is one of the gallery's pictures |
| ArchitecturalGallery.HeightAdjusted | script.js:1186-1209 | with both areas present the picture height lies in [35, 70] and the two heights add up to 100 |
| ArchitecturalGallery.Opened | script.js:725-755 | the result is always consistent, the project is the id's entry or none, and the modal is shown iff the id is known or it already was |
| ArchitecturalGallery.Closed | script.js:1248-1265 | the modal is hidden, the scroll adjustment off and the zoom 1, with the project and position kept |
| ArchitecturalGallery.AfterKey | script.js:374-401 | every key keeps the state consistent and the project unchanged |
| ArchitecturalGallery.AfterSwipe | script.js:412-433 | every swipe keeps the state consistent and the project unchanged |
| ArchitecturalGallery.NextThenPrevious | script.js:1016-1030 | a step forward then back returns to the same picture, recentred at 1x |
| ArchitecturalGallery.PreviousThenNext | script.js:1016-1030 | a step back then forward returns to the same picture, recentred at 1x |
| ArchitecturalGallery.NoWrapAround | script.js:1016-1030 | at the last picture a step forward and at the first a step back change nothing |
| ArchitecturalGallery.ArrowsMatchSwipes | script.js:374-433 | on the shown modal ArrowRight does what a leftward swipe does and ArrowLeft what a rightward one does |
| ArchitecturalGallery.KeysIgnoredWhileHidden | script.js:375-376 | while the modal is hidden no key changes anything |
| ArchitecturalGallery.EscapeCloses | script.js:379-381 | Escape on the shown modal closes it, keeping project and position |
| ArchitecturalGallery.ResetKeepsZoomMode | script.js:1103-1121 | from 1x with a picture shown, two toggles end at 1x with zoom mode still marked and the scroll adjustment still off |
| ArchitecturalGallery.Gallery.constructor | script.js:318-345 | the viewer starts closed, with no project, at position 0, zoom 1, centred, no marks, the heights at 70 and 30 |
| ArchitecturalGallery.Gallery.ResetZoom | script.js:1111-1121 | the new state is `Reset` of the old: zoom 1 and centred; the zoom-mode marks and everything else are left as they were |
| ArchitecturalGallery.Gallery.AdjustZoom | script.js:1051-1068 | the new state is `ZoomAdjusted` of the old: the clamped sum; with a picture on screen, landing on 1 recentres and leaves zoom mode, anything else enters it; every other field kept |
| ArchitecturalGallery.Gallery.ToggleZoom | script.js:1103-1109 | the new state is `ZoomToggled` of the old: zoomed in, reset; at 1, zoom to 2 and enter zoom mode when a picture is shown; project, position, modal, picture and heights kept |
| ArchitecturalGallery.Gallery.PreviousImage | script.js:1016-1022 | the new state is `Previous` of the old: steps back iff there is a gallery and this is not the first picture, recentred at 1x; otherwise nothing changes |
| ArchitecturalGallery.Gallery.NextImage | script.js:1024-1030 | the new state is `Next` of the old: steps forward iff there is a gallery and this is not the last picture, recentred at 1x; otherwise nothing changes |
| ArchitecturalGallery.Gallery.SelectThumbnail | script.js:1006-1014 | the new state is `ThumbnailSelected` of the old: only the position changes, to the thumbnail's, which becomes the active one; the zoom is kept |
| ArchitecturalGallery.Gallery.AdjustImageHeight | script.js:1186-1209 | the new state is `HeightAdjusted` of the old: with the sections present the picture area is clamped and the description takes the rest; nothing else changes |
| ArchitecturalGallery.Gallery.OpenProject | script.js:725-755 | the new state is `Opened` of the old: the id's entry (none for an unknown id) at position 0 with the zoom reset; only a known id shows the modal, sets whether a picture is shown and arms the scroll adjustment; zoom mode and heights kept |
| ArchitecturalGallery.Gallery.CloseModal | script.js:1248-1265 | the new state is `Closed` of the old: scroll adjustment disarmed, heights restored when the sections exist, modal hidden, zoom reset; zoom mode, picture, project and position kept |
| ArchitecturalGallery.Gallery.HandleKey | script.js:374-401 | the new state is `AfterKey` of the old: hidden modal or other keys change nothing; Escape closes, the arrows step, the space bar toggles the zoom |
| ArchitecturalGallery.Gallery.HandleSwipe | script.js:412-433 | the new state is `AfterSwipe` of the old: no swipe changes nothing, a counted swipe steps forward or back |
| DynamicHeader.HideRule | script.js:149-153 | the header hides exactly on a downward scroll ending past 200 pixels, so scrolling up or staying near the top always shows it |
| DynamicHeader.Header.constructor | script.js:125-129 | the header starts shown and unstyled, remembering the current scroll position |
| DynamicHeader.Header.OnScroll | script.js:134-155 | the heavier style iff past 100 pixels; hidden iff `HidesAt` the previous position; the position is remembered |
| DynamicHeader.RepeatedPositionShows | script.js:149-153 | a second event at the same position always shows the header |
| FormValidation.EmailPatternSufficient | script.js:1413-1414 | every string the e-mail pattern's pieces build passes the positional e-mail test |
| FormValidation.EmailPatternNecessary | script.js:1413-1414 | every string passing the positional test splits into the pattern's three runs around `@` and `.` |
| FormValidation.IsEmailIffPattern | script.js:1413-1414 | the positional e-mail test accepts exactly the strings `/^[^\s@]+@[^\s@]+\.[^\s@]+$/` matches |
| FormValidation.PhoneDigits | script.js:1418 | the part after an optional leading `+` |
| FormValidation.IsPhoneIffPattern | script.js:1418-1419 | the phone test accepts exactly the strings `/^[\+]?[0-9\s\-\(\)]{9,}$/` matches |
| FormValidation.ValidateField | script.js:1406-1434 | a required field that is blank after trimming is rejected as required; otherwise the trimmed value is judged by the e-mail, phone or two-character rule of its type |
| FormValidation.ValidFieldIsNotBlank | script.js:1406-1434 | an accepted field holds a non-blank character, whatever its type |
| FormValidation.SurroundingBlanksIgnored | script.js:1407 | blanks around the value never change the verdict |
| FormValidation.TrimSurroundingBlanks | script.js:1407 | trimming ignores one more blank on each side |
| FormValidation.RejectedFieldMessages | script.js:1406-1434 | a rejection carries the message of the field's type, and the requirement message for an empty required field |
| FormValidation.Field.constructor | script.js:1401-1402 | the field starts with its type, value and no error elements or marks |
| FormValidation.Field.ShowFieldValidation | script.js:1436-1455 | the first error element goes, one is added when invalid, the border colour follows the verdict and (in the optimised script) `aria-invalid` too |
| FormValidation.Field.Validate | script.js:1406-1434 | the verdict is `ValidateField` of the current value; with at most one error shown before, exactly the verdict's error remains |
| FormValidation.Field.ClearErrors | script.js:1457-1461 | the first error element goes and the border mark is cleared |
| ErrorMonitor.PushCapped | error-monitor.js:227-230 | the new entry is first, followed by the old log cut to fit: the length grows by one until the cap and then stays |
| ErrorMonitor.PushCappedBounded | error-monitor.js:227-230 | a log within its cap stays within it and starts with the new entry |
| ErrorMonitor.LogOfKeepsNewest | error-monitor.js:224-275 | a log built by pushes always holds exactly the `cap` most recent entries, newest first |
| ErrorMonitor.Snapshot | error-monitor.js:499-501 | a snapshot is the log's prefix of at most ten entries |
| ErrorMonitor.IndicatorFor | error-monitor.js:365-390 | all clear iff there are neither errors nor warnings; the error badge iff there are errors, showing their count; otherwise the warning count |
| ErrorMonitor.CountPoor | error-monitor.js:483 | the number of poor measurements: all of them iff every one is poor, none iff none is |
| ErrorMonitor.SummaryOf | error-monitor.js:480-484 | the summary counts every error and warning and at most every measurement |
| ErrorMonitor.CountPoorPush | error-monitor.js:262-275 | logging a measurement into a log that is not full raises the poor count by one exactly when it is poor |
| ErrorMonitor.SlotFor | error-monitor.js:496-506 | what is saved holds all three lists, each of at most ten entries |
| ErrorMonitor.OrEmpty | error-monitor.js:508-521 | a missing list reads as empty |
| ErrorMonitor.SaveLoadRoundTrip | error-monitor.js:496-521 | reloading what was saved gives back the ten newest entries of each log, and a short log entirely |
| ErrorMonitor.Checks | error-monitor.js:541-559 | the five feature probes, in the source's order |
| ErrorMonitor.FailedKeys | error-monitor.js:550-556 | empty iff every check passed; every key listed belongs to a failed check |
| ErrorMonitor.HealthWarning | error-monitor.js:541-559 | a warning is filed iff some check failed, of type `Health Check Failed`, naming the failed checks joined by commas |
| ErrorMonitor.HealthWarningExamples | error-monitor.js:541-559 | all features present file nothing; only local storage missing names just `localStorage` |
| ErrorMonitor.Recounted | error-monitor.js:365-378 | the badge is `IndicatorFor` the counts and nothing else changes |
| ErrorMonitor.Saved | error-monitor.js:496-506 | a writable storage holds the snapshots afterwards, within the cap; otherwise the slot keeps what it held; nothing else changes |
| ErrorMonitor.ErrorLogged | error-monitor.js:224-244 | while enabled the error is pushed first within the cap; the caps and the badge stay in step; warnings, measurements, the enabled flag and the visibility are kept |
| ErrorMonitor.WarningLogged | error-monitor.js:246-260 | the same for the warnings log |
| ErrorMonitor.PerformanceLogged | error-monitor.js:262-275 | the measurement is pushed first within the cap, enabled or not; the other logs, the badge and the visibility are kept |
| ErrorMonitor.Cleared | error-monitor.js:463-470 | the logs are empty and the badge all clear, with the enabled flag and the visibility kept |
| ErrorMonitor.LoadedFrom | error-monitor.js:508-521 | with stored lists within the cap, the logs are within it and the badge in step afterwards; storage, the enabled flag and the visibility are kept |
| ErrorMonitor.HealthChecked | error-monitor.js:541-559 | the caps hold; errors, measurements, the enabled flag and the visibility are kept |
| ErrorMonitor.Enabled | error-monitor.js:572-575 | enabled with the indicator shown, the caps kept |
| ErrorMonitor.Disabled | error-monitor.js:577-581 | disabled with the indicator and the panel hidden, the caps kept |
| ErrorMonitor.DisabledIgnoresLogs | error-monitor.js:224-275 | while disabled, errors, warnings and health-check warnings change nothing, but a measurement is still recorded |
| ErrorMonitor.UnwritableStorageUnchanged | error-monitor.js:496-506 | with storage that refuses writes, no logging, clearing or health check changes what it holds |
| ErrorMonitor.LogThenReload | error-monitor.js:224-244 | after an error is logged with writable storage, reloading gives back the ten newest errors, the new one first, with the badge in step |
| ErrorMonitor.StartupIsCapped | error-monitor.js:585-587 | a fresh monitor followed by `loadFromStorage` keeps every log within its cap when the stored lists are |
| ErrorMonitor.Monitor.constructor | error-monitor.js:5-12 | the monitor starts enabled with empty logs, the badge all clear, the indicator shown and the panel hidden, over the given local storage |
| ErrorMonitor.Monitor.UpdateErrorCount | error-monitor.js:365-390 | the new state is `Recounted` of the old: the badge becomes `IndicatorFor` the current counts and every other field is kept |
| ErrorMonitor.Monitor.SaveToStorage | error-monitor.js:496-506 | the new state is `Saved` of the old: a writable storage holds the three snapshots afterwards; a failing write changes nothing |
| ErrorMonitor.Monitor.LogError | error-monitor.js:224-244 | the new state is `ErrorLogged` of the old: while enabled the error is pushed within the cap, the badge refreshed and the snapshot saved when storage is writable; while disabled nothing changes |
| ErrorMonitor.Monitor.LogWarning | error-monitor.js:246-260 | the new state is `WarningLogged` of the old: the same for the warnings log |
| ErrorMonitor.Monitor.LogPerformance | error-monitor.js:262-275 | the new state is `PerformanceLogged` of the old: the measurement is pushed within the cap even while disabled, the badge is not refreshed and the snapshot saved when storage is writable |
| ErrorMonitor.Monitor.ClearAll | error-monitor.js:463-470 | the new state is `Cleared` of the old: every log is emptied, the badge shows all clear and empty lists are saved when storage is writable |
| ErrorMonitor.Monitor.LoadFromStorage | error-monitor.js:508-521 | the new state is `LoadedFrom` of the old: a saved object replaces the logs, a missing list counting as empty; nothing stored or unreadable data leaves everything as it was; the invariant holds afterwards when the stored lists are within the cap |
| ErrorMonitor.Monitor.PerformHealthCheck | error-monitor.js:541-559 | the new state is `HealthChecked` of the old: a failed check files its warning into the warnings log while enabled; otherwise nothing changes |
| ErrorMonitor.Monitor.ExportSummary | error-monitor.js:472-494 | the exported summary is `SummaryOf` the logs |
| ErrorMonitor.Monitor.Enable | error-monitor.js:572-575 | the new state is `Enabled` of the old: enabled and the indicator shown; everything else kept |
| ErrorMonitor.Monitor.Disable | error-monitor.js:577-581 | the new state is `Disabled` of the old: disabled with indicator and panel hidden; everything else kept |
| Galeria.TextOr | galeria-script.js:146-147 | a missing or empty heading or paragraph yields the fallback text, any other text is kept |
| Galeria.CollectImages | galeria-script.js:142-158 | one modal picture per grid item, in grid order |
| Galeria.CollectedSourceWithoutMarker | galeria-script.js:150-151 | a source without the `w=800` marker is taken over unchanged |
| Galeria.CollectedSourceWithMarker | galeria-script.js:150-151 | a source holding `w=800` gets `w=1200` in place of its first occurrence, the rest of the address kept |
| Galeria.OfCategory | galeria-script.js:204 | the filtered list is no longer than the original and holds only pictures of the category |
| Galeria.OfCategoryCounts | galeria-script.js:200-206 | the filtered list holds every picture of the category exactly as often as the original, and nothing else |
| Galeria.OfCategoryAppend | galeria-script.js:204 | filtering keeps the original order: filtering a concatenation filters each part |
| Galeria.OfCategoryIdempotent | galeria-script.js:204 | filtering an already filtered list changes nothing |
| Galeria.AdvanceWraps | galeria-script.js:266-270 | inside a non-empty list, next moves one place on and wraps from the last picture to the first |
| Galeria.RetreatWraps | galeria-script.js:260-264 | inside a non-empty list, previous moves one place back and wraps from the first picture to the last |
| Galeria.AdvanceRetreatInverse | galeria-script.js:260-270 | previous undoes next and next undoes previous |
| Galeria.StepsStayInRange | galeria-script.js:260-270 | from any index, next and previous land inside a non-empty list |
| Galeria.AdjacentIndices | galeria-script.js:294-305 | the preloaded neighbours are in range and are exactly the pictures previous and next would show |
| Galeria.EmptyQueryMatchesAll | galeria-script.js:425-444 | the empty search query shows every item |
| Galeria.TagMatchesQuery | galeria-script.js:425-444 | searching for one of an item's tags shows that item |
| Galeria.LexLeTotal | galeria-script.js:456-462 | the string order standing for `localeCompare` relates any two strings |
| Galeria.LexLeTransitive | galeria-script.js:456-462 | the string order standing for `localeCompare` is transitive |
| Galeria.KeyLeTotal | galeria-script.js:451-466 | the sort comparator relates any two items for every criterion |
| Galeria.KeyLeTransitive | galeria-script.js:451-466 | the sort comparator is transitive for every criterion |
| Galeria.Insert | galeria-script.js:451-466 | inserting an item adds exactly that item to the multiset of items |
| Galeria.SortItems | galeria-script.js:451-466 | sorting is a permutation of the grid |
| Galeria.InsertSorted | galeria-script.js:451-466 | inserting into a sorted grid keeps it sorted |
| Galeria.SortItemsSorted | galeria-script.js:447-469 | the sorted grid is ordered by the criterion (newest year first, titles ascending) and is a permutation of the original |
| Galeria.SortUnknownCriterionKeepsOrder | galeria-script.js:464-465 | with any criterion other than `year` and `title` the grid keeps its order |
| Galeria.SortTiesKeepsOrder | galeria-script.js:464-465 | a comparator that ties every pair leaves the order unchanged |
| Galeria.InsertAtEnd | galeria-script.js:464-465 | under an all-ties comparator a new item goes after every existing one |
| Galeria.GalleryManager.constructor | galeria-script.js:4-10 | the manager starts on the `all` filter at index 0 with the modal closed, no filtered list, and one picture per grid item |
| Galeria.GalleryManager.RecollectImages | galeria-script.js:142-158 | the picture list is rebuilt from the grid and nothing else changes |
| Galeria.GalleryManager.ApplyFilter | galeria-script.js:175-198 | exactly the items outside the filter are hidden, and the modal's list becomes the filtered pictures |
| Galeria.GalleryManager.UpdateFilteredImages | galeria-script.js:200-206 | the modal's list is all pictures for `all` and the pictures of the category otherwise |
| Galeria.GalleryManager.HandleFilterClick | galeria-script.js:160-173 | after a filter click the filter is remembered, each item is the old one with only its hidden flag set to whether it falls outside the filter, the modal's list is filtered, and the pictures, position and modal are kept |
| Galeria.GalleryManager.OpenModal | galeria-script.js:222-251 | the modal opens on the first picture with the source, or on the first picture when none has it; an empty list throws and the modal stays as it was |
| Galeria.GalleryManager.CloseModal | galeria-script.js:253-258 | the modal is closed and nothing else changes |
| Galeria.GalleryManager.NextImage | galeria-script.js:266-270 | the index moves on modulo the list length; the step completes exactly when the list is non-empty |
| Galeria.GalleryManager.PreviousImage | galeria-script.js:260-264 | the index moves back modulo the list length; the step completes exactly when the list is non-empty |
| Galeria.GalleryManager.HandleKey | galeria-script.js:82-98 | keys are ignored while the modal is closed; Escape closes it, the arrow keys step back and forward with the modal left open; other keys change neither position nor modal; the grid and lists are never changed |
| Galeria.GalleryManager.SearchProjects | galeria-script.js:425-444 | exactly the items matching the lower-cased query in title, description or a tag are displayed |
| Galeria.GalleryManager.SortProjects | galeria-script.js:447-469 | the grid becomes the insertion sort by the criterion, or stays as it was when the comparator throws on a missing title |
| Galeria.SourcesOf | galeria-script.js:230 | the sources of the pictures, position by position |
| Galeria.FirstIndexOf | galeria-script.js:230 | the result is -1 or a position inside the list |
| Galeria.FirstIndexOfFinds | galeria-script.js:230 | the result is -1 exactly when no picture has the source, and otherwise the first position that has it |
| Galeria.FindImageIndex | galeria-script.js:230 | the linear scan returns the first position with the source, or -1 when there is none |
| DevTools.StatusOf | dev-tools.js:369-376 | a metric is good exactly when its value is strictly below its threshold |
| DevTools.UnitSuffix | dev-tools.js:378-389 | only the layout shift is printed without the `ms` unit |
| DevTools.ThresholdIsExclusive | dev-tools.js:369-376 | a paint of exactly 1800 ms, a largest paint of 2500 ms and a shift of 0.1 are already poor |
| DevTools.Megabytes | dev-tools.js:398-400 | the heap size in megabytes is the byte count divided by 1048576, rounded to the nearest whole number |
| DevTools.MemoryPercentage | dev-tools.js:401 | with a positive limit the percentage is the exact ratio rounded half up; a zero limit gives Infinity for a positive use and NaN for none |
| DevTools.MemoryColour | dev-tools.js:403 | red exactly above 80 %, yellow exactly in (60, 80], green otherwise, and green for NaN |
| DevTools.MemoryColourMonotone | dev-tools.js:403 | a higher percentage never gives a calmer colour |
| DevTools.StatusColour | dev-tools.js:415-416 | red exactly for codes of 400 and above, yellow exactly for 300 to 399, green for a failed fetch |
| DevTools.KeepFirst | dev-tools.js:434-437 | the first entries of the list, at most the cap of them |
| DevTools.KeepLast | dev-tools.js:516-519 | the last entries of the list, at most the cap of them |
| DevTools.NetworkListShape | dev-tools.js:432-437 | a logged request heads the list, the list holds at most 20 and the rest are the newest earlier requests in order |
| DevTools.ConsoleListShape | dev-tools.js:513-519 | an added message ends the list, the list holds at most 100 and the rest are the latest earlier messages in order |
| DevTools.TruncateStoredValue | dev-tools.js:448 | a value of at most 50 characters is shown whole; a longer one as its first 50 characters followed by `...` |
| DevTools.TruncateBounded | dev-tools.js:448 | a shown value never exceeds 53 characters and truncation of a short value is idempotent |
| DevTools.StorageView | dev-tools.js:443-451 | one shown item per stored item, same key, value truncated |
| DevTools.RefreshFor | dev-tools.js:597-606 | only the storage tab and the SEO tab are redrawn by a refresh |
| DevTools.Panel.constructor | dev-tools.js:5-10 | the panel starts closed on the performance tab with no timer and empty lists |
| DevTools.Panel.ShowItems | dev-tools.js:445-450 | the loop over one storage's keys yields the truncated view of that storage |
| DevTools.Panel.UpdateStorageDisplay | dev-tools.js:441-464 | the local-storage pane becomes the truncated view of local storage and the session-storage pane that of session storage |
| DevTools.Panel.RefreshData | dev-tools.js:597-606 | the storage tab redraws both storage panes, the SEO tab records an SEO redraw, every other tab changes nothing |
| DevTools.Panel.Toggle | dev-tools.js:565-578 | the open state flips, a timer runs exactly while open, and opening redraws the active tab |
| DevTools.Panel.SwitchTab | dev-tools.js:580-595 | the tab becomes active and is redrawn when it is one that refreshes |
| DevTools.Panel.LogNetworkRequest | dev-tools.js:412-439 | the request is put in front and the list is cut back to its newest 20 |
| DevTools.Panel.AddConsoleMessage | dev-tools.js:494-521 | the message is appended and the list is cut back to its latest 100 |
| DevTools.Panel.ClearData | dev-tools.js:608-623 | the console or network tab empties its own list only; the storage tab clears local storage only when confirmed and then redraws both panes, session storage untouched |
| ImageOptimizer.GenerateAltText | image-optimizer.js:155-169 | by the first block that holds the image: project text with the file stem, member text, logo text, otherwise `Imagen: ` with the file stem |
| ImageOptimizer.GeneratedAltIsNotBlank | image-optimizer.js:155-169 | a generated alt text is never empty or only whitespace |
| ImageOptimizer.PlaceholderFor | image-optimizer.js:108-133 | the icon and text of the first block that holds the image, the generic ones otherwise |
| ImageOptimizer.CreatedPlaceholderIsSpecific | image-optimizer.js:89-98 | a placeholder is only created inside a container, so it is never the generic one |
| ImageOptimizer.ImageSlot.constructor | image-optimizer.js:89-95 | a failed image starts visible in its container with the placeholders the container already holds |
| ImageOptimizer.ImageSlot.HandleImageError | image-optimizer.js:88-106 | outside a container nothing changes; inside one the image is hidden, the error class set, and the first placeholder shown, created only when none exists |
| ImageOptimizer.RepeatedErrorsReusePlaceholder | image-optimizer.js:95-101 | three failures in a row add at most one placeholder and never a second one; each further failure keeps this by `HandleImageError`'s contract |
| ImageOptimizer.OptimizedRules | image-optimizer.js:136-153 | an existing `loading` and a non-blank alt are kept, a missing `loading` becomes `lazy`, a blank alt is generated, decoding is always `async` |
| ImageOptimizer.OptimizedIsComplete | image-optimizer.js:136-153 | after the pass every image has a non-blank alt and a `loading` attribute, and a second pass changes nothing |
| ImageOptimizer.OptimizeExistingImages | image-optimizer.js:136-153 | every image of the page is replaced by its optimised form |
| ImageOptimizer.Loaded | image-optimizer.js:213-219 | a lazy image takes its `data-src` as `src` and loses `data-src`; other images are untouched |
| ImageOptimizer.LoadedIsEager | image-optimizer.js:213-219 | after the fallback no image is lazy, each loads the address it was waiting for, and a second run changes nothing |
| ImageOptimizer.LoadAllImages | image-optimizer.js:213-219 | every image of the page is replaced by its loaded form |
| ImageOptimizer.GenerateSrcSet | image-optimizer.js:206-210 | the source set is the address followed by ` 1x` |
| ImageOptimizer.SrcSetAlwaysSet | image-optimizer.js:189-210 | the source set is never empty, so it is always applied |
| MobileMenu.Toggled | mobile-menu.js:160-166 | a toggle flips the hamburger's state and leaves every class and attribute in agreement with it |
| MobileMenu.AfterEscape | mobile-menu.js:200-204 | Escape closes an open menu; any other key or a closed menu changes nothing |
| MobileMenu.AfterResize | mobile-menu.js:207-212 | growing past 768 pixels closes an open menu; otherwise nothing changes |
| MobileMenu.ToggleTwiceRestores | mobile-menu.js:160-166 | toggling twice gives back any state the script produced |
| MobileMenu.ToggleSynchronises | mobile-menu.js:83-166 | one toggle brings an inconsistent markup into agreement, and two toggles restore the hamburger's state |
| MobileMenu.EventsNeverOpen | mobile-menu.js:200-212 | Escape and resizing never open the menu and leave a closed menu alone |
| MobileMenu.Menu.constructor | mobile-menu.js:2-232 | without the hamburger or the menu nothing is set up; otherwise exactly one overlay is added when none exists and the closed menu's attributes are set |
| MobileMenu.Menu.OpenMenu | mobile-menu.js:83-125 | every class is added and the hamburger reports expanded with the close label |
| MobileMenu.Menu.CloseMenu | mobile-menu.js:128-157 | every class is removed and the hamburger reports collapsed with the open label |
| MobileMenu.Menu.ToggleMenu | mobile-menu.js:160-198 | the menu takes the toggled state |
| MobileMenu.Menu.OnKeyDown | mobile-menu.js:200-204 | the menu takes the state after the key |
| MobileMenu.Menu.HandleResize | mobile-menu.js:207-212 | the menu takes the state after the resize |
| ScriptOptimized.MobileNavigation.constructor | script-optimized.js:44-49 | the navigation starts with the classes and attribute the markup has |
| ScriptOptimized.MobileNavigation.Toggle | script-optimized.js:75-83 | each class flips and `aria-expanded` becomes the negation of the hamburger's former class; a synchronised state stays synchronised |
| ScriptOptimized.MobileNavigation.Close | script-optimized.js:85-90 | every class and the attribute are switched off, whatever the state was |
| ScriptOptimized.MobileNavigation.OnHamburgerKey | script-optimized.js:55-60 | Enter and Space toggle; every other key changes nothing |
| ScriptOptimized.MobileNavigation.OnDocumentClick | script-optimized.js:68-72 | a click outside both the hamburger and the menu closes the navigation; any other click changes nothing |
| ScriptOptimized.ToggleTwiceRestores | script-optimized.js:75-83 | two toggles from a synchronised state give the state back |
| ScriptOptimized.ImageAreaFor | script-optimized.js:336-355 | the main image exactly when the project has a non-empty image address, with the title as alt; the placeholder otherwise |
| ScriptOptimized.SimpleGallery.constructor | script-optimized.js:239-245 | no project is current, the modal is hidden and the page scrolls |
| ScriptOptimized.SimpleGallery.OpenProject | script-optimized.js:289-299 | a known id becomes current, is rendered and shows the modal with the page locked; an unknown id clears the current project and shows nothing |
| ScriptOptimized.SimpleGallery.UpdateImageDisplay | script-optimized.js:336-355 | the image area is the one the current project calls for |
| ScriptOptimized.SimpleGallery.CloseModal | script-optimized.js:357-360 | the modal is hidden and the page scrolls again |
| ScriptOptimized.SimpleGallery.OnKey | script-optimized.js:279-287 | Escape closes a displayed modal; with the modal hidden or another key nothing changes |
| ScriptOptimized.PreloadAs | script-optimized.js:718-722 | `style` exactly for a `.css` address, `image` exactly for another address under `/images/`, none otherwise |
| ScriptOptimized.CssTakesPrecedence | script-optimized.js:718-722 | a stylesheet under the images folder is still preloaded as a style |
| ScriptOptimized.PreloadLinks | script-optimized.js:713-725 | one link per resource, in order, with its `as` kind |
| ScriptOptimized.Head.PreloadResources | script-optimized.js:713-725 | the head gains one preload link per resource, in order, after its existing links |
| ScriptOptimized.Head.PreloadCriticalResources | script-optimized.js:707-726 | the stylesheet is appended as a style and the logo as an image |
| ScriptOptimized.CriticalKinds | script-optimized.js:708-722 | the critical stylesheet is a style and the logo an image |
| Strings.TrimEmptyIffBlank | image-optimizer.js:146 | a string trims to nothing exactly when it consists of whitespace only |
| Strings.ToLower | font-optimizer.js:58 | lower-casing keeps the length and lowers each letter in place |
| Strings.RemoveSpaces | font-optimizer.js:58 | removing whitespace leaves no whitespace and never lengthens the string |
| Strings.ImageSource | image-optimizer.js:156 | the address is the `src` when non-empty, else the `data-src`, else empty |
| Strings.FileStem | image-optimizer.js:157 | the stem holds no slash and no dot, starts the last path segment, and ends where that segment ends or at its first dot |
| Strings.ReplaceFirstAt | galeria-script.js:150-151 | with no occurrence of the pattern starting earlier, the first one is replaced and the rest is kept |
| Strings.RoundDiv | dev-tools.js:398 | the quotient rounded to the nearest whole number, halves upwards |
| TestSuite.LengthWindows | test-suite.js:192-213 | a page without a description fails, and the title window of 30 to 60 characters is inclusive at both ends |
| TestSuite.FoundOgTags | test-suite.js:239-241 | the found properties are required ones present on the page, never more than required |
| TestSuite.FoundAllIffPresent | test-suite.js:239-244 | the filter keeps every required property exactly when each is on the page |
| TestSuite.OpenGraphIffAllPresent | test-suite.js:237-248 | the Open Graph check passes exactly when `og:title`, `og:description`, `og:image` and `og:url` are all on the page |
| TestSuite.CountWithAlt | test-suite.js:253-255 | no more images have alt text than there are images |
| TestSuite.AltTextIffEveryImage | test-suite.js:251-262 | the alt-text check passes exactly when no image's alt is empty or whitespace |
| TestSuite.AriaRatio | test-suite.js:264-277 | the label check passes exactly when ten times the labelled count reaches nine times the total, and passes on a page with no interactive elements |
| TestSuite.ResultOf | test-suite.js:366-395 | a recorded result passes exactly when the test returned a pass, and has the error status exactly when it threw |
| TestSuite.Results | test-suite.js:372-395 | one result per registered test, in registration order |
| TestSuite.PassedPlusFailed | test-suite.js:428-431 | the passed and failed counts add up to the total |
| TestSuite.ErrorsCountAsFailed | test-suite.js:384-391 | a test that threw is counted among the failed ones |
| TestSuite.SummaryPercentage | test-suite.js:409-411 | the percentage is the exact pass ratio rounded half up, at most 100, and NaN exactly when there are no results |
| TestSuite.PercentAtMostHundred | test-suite.js:411 | the rounded pass ratio never exceeds 100 |
| TestSuite.SummaryColour | test-suite.js:413 | green exactly from 80 %, yellow exactly from 60 % below 80 %, red otherwise and for NaN |
| TestSuite.SummaryOf | test-suite.js:426-432 | the summary's total is the number of results and its passed and failed counts add up to it |
| TestSuite.SummaryExtremes | test-suite.js:405-432 | a non-empty run without failures is shown green and an empty run red |
| TestSuite.AllPassedIsHundred | test-suite.js:411 | when every test passed the percentage is 100 |
| TestSuite.Suite.constructor | test-suite.js:5-15 | the suite starts with the sixteen registered tests, in registration order, and no results |
| TestSuite.Suite.RegisterTests | test-suite.js:75-101 | the sixteen named tests are appended after the earlier ones, in the source's order |
| TestSuite.Suite.AddTest | test-suite.js:103-105 | the test is registered after the earlier ones |
| TestSuite.Suite.RunAllTests | test-suite.js:366-396 | the results restart empty and hold one record per registered test, in order, and the summary is computed from them |

## Left out

- `app.py` and `wsgi.py`: static-file routing and deployment glue over a web framework, not site logic.
- Asynchrony: promises, `await`, `setTimeout`, `setInterval`, `requestAnimationFrame`, debounce and throttle. Each asynchronous operation is modelled as settling at once, in program order.
- The service worker's install handler, `preloadRoutes`, `doBackgroundSync`, the `sync` event and the `message` handler. These orchestrate the Cache API and messaging rather than decide anything.
- The fire-and-forget revalidation of stale-while-revalidate: it is modelled as finishing before the handler returns. Responses and requests keep only the fields the strategies read.
- CSS text, inline styles, animations, IntersectionObserver, PerformanceObserver, the fullscreen API, drag and wheel panning, canvas font measurement, Blob downloads, and the patching of `console`, `fetch` and `localStorage`. These are presentation or browser plumbing.
- Floating point: zoom and the Core Web Vitals values are exact `real`s. `TestSuite.AriaRatio` states the ARIA threshold as `10 * labelled >= 9 * total`, not as IEEE multiplication by 0.9.
- TestSuite.SummaryPercentage and DevTools.MemoryPercentage round the exact rational `100 * a / b` half up, not the IEEE product `(a / b) * 100` that `Math.round` receives (test-suite.js:411 and 431, dev-tools.js:401). The two can differ when the product falls just below a half: 57 of 200 gives 28.499999999999996, shown as 28, where the model gives 29. The site's own suite of sixteen tests is unaffected, because every k/16 is exact in binary.
- Unicode: `toLowerCase` is restricted to the ASCII letters, and string lengths are counted in characters rather than UTF-16 code units.
- `localeCompare` is stood in for by code-unit order on strings. The sort is modelled as an insertion sort over that order; that it keeps tied items in order is proved only when every pair ties. Re-appending the sorted elements to the grid is not modelled.
- `Galeria.SortThrows` covers the comparator throwing on a missing title only. Every item is assumed to carry a `.year` element.
- The font optimiser's loads settle in list order. `init`, the replacement of stylesheet links in the document, `useFallbackStrategy`, `testFontLoad`, `waitForCriticalFonts`, `setupFontDisplay` and `waitForFont` are timing and DOM wiring and are left out.
- The sitemap's `lastmod` date is a parameter, because the clock is outside the model.
- Page copy, the `projectsData` entries and the literal contents of the SEO schemas are static data. Only the choices between them are modelled.
- `loadImage`, `updateMetaProperty`, `optimizeImages`, the mobile menu's `ensureMobileVisibility` styles and its `touchmove` blocking are style or DOM wiring and are not modelled.
- The developer panel's `exportData`, `updateSEOMetrics` and `updateCacheStatus` only render or download data, so they are not modelled.
- TestSuite.Suite.constructor: `setupTestEnvironment` and `createTestUI` (test-suite.js:19-72 and 442-462) build the overlay and are not modelled; of `init` only `registerTests` is.
- The remaining test-suite tests (paint timings, structured data, contrast, service worker, lazy loading, fonts, navigation, forms, modal) probe the live browser. Their outcomes are inputs to `TestSuite.Suite.RunAllTests`.
- The error monitor's global handlers (`window.onerror`, unhandled rejections, resource errors), its fetch wrapper and the analytics send are event wiring. The entries they would log are inputs.
- ErrorMonitor.Monitor.LogError, LogWarning and LogPerformance model the methods without the `console` wrappers that `init` installs. With the wrappers in place, `logError`'s own `console.error` call re-enters `logError`, and `logWarning`'s `console.warn` call (also reached from `logPerformance` for a poor measurement) re-enters `logWarning`. While the monitor is enabled, that re-entry has no bound: each level pushes a console entry and saves, until the call stack overflows. The model admits one entry per call.
- Object-literal lookups (`fallbackFonts[family]`, `projectsData[projectId]`, the page and breadcrumb tables) are modelled as maps. A key that names an inherited property such as `constructor` or `toString` would find `Object.prototype`'s value in JavaScript. Every caller in the site passes only keys of the literal.
- ArchitecturalGallery.Gallery: the `.modal-image-section` and `.modal-info-section` lookups are one flag, `sectionsPresent`, taken as known from the start. The source looks both up on the first known `openProject`. A page holding only one of them, where only that one is resized and the scroll adjustment stays off, is not modelled.
