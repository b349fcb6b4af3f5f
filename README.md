# A verified model of a Next.js textbook shop and its snapshot scripts

This project models, in Dafny, the logic at the centre of an online
textbook shop built on Next.js, together with the two directory-snapshot
scripts that live beside it. Each source file of the shop's core has its
own Dafny module of the same name. The two snapshot scripts share five
modules, one per stage: `SnapshotFs` (paths), `SnapshotRules` (name
filters and languages), `SnapshotTree`, `SnapshotCollect` and
`SnapshotDoc` (document and command line). State that the source changes in place
becomes a class with `modifies` clauses: the cart store, the memory
cache, the rate limiters, the loggers, the catalog page and the checkout
form. Logic that only computes a value becomes functions and lemmas.

- **Directory snapshot** (`scripts/create-snapshot.py`, `scripts/create-snapshot.js`).
  These cover the name filters, the extension-to-language table, the
  box-drawing tree, the file collector and the assembled document. The
  filesystem is an in-memory tree. The model keeps the differences between
  the two versions:
  - Python lists directories first and compares names case-insensitively;
    JavaScript keeps the listing order.
  - Python hides dot-names.
  - JavaScript turns `*` patterns into unanchored regular expressions.
  - Python's recursive glob ignores the depth bound.
- **Cart and orders.** This group holds:
  - the cart store and its invariant of one line per product with at least one unit;
  - the checkout page's form, validation, step machine and totals;
  - the order route's line normalisation, stock check and totals rule (free shipping from 1500, otherwise 80);
  - the admin order list and the mock orders.
- **Catalog querying.** This group holds:
  - the product and facet routes' filter terms, sort and page clamps, with each aggregation pipeline read by what it means over a sequence of products;
  - the admin product and category routes' input normalisation and slug derivation;
  - the mock catalog's filter, sort and page;
  - the catalog page's address-bar sync;
  - the client's query-string builder.
- **Infrastructure.** This group holds:
  - the TTL cache and its order-independent keys;
  - the middleware's admin guard, security headers, CORS handling and per-IP rate limiter;
  - the login route's attempt limiter;
  - the cookie-based auth helpers;
  - the server logger, with its level filter, bounded history and secret redaction;
  - the client log queue;
  - the API error normalisation.
- **Small rule sets.** This group holds:
  - the delivery-cost route and the client's Nova Poshta service;
  - the range slider's clamps;
  - the auto-categorisation script's matchers, distribution count and category writes.

The model contains no I/O. Clocks, database and network answers, request
bodies, environment variables and library routines that are not modelled
(JSON serialisation, percent-encoding, regular-expression tests, ObjectId
parsing) are all parameters. Money, quantities and times are integers.

## Model

| member | source | states |
|---|---|---|
| SnapshotFs.RelParts | scripts/create-snapshot.py:234-235 | the relative path of a found file has one component per directory below the root, then the file's own name |
| SnapshotFs.FilesBelow | scripts/create-snapshot.py:142-143 | every file found below a directory carries that directory's path as a prefix of its own |
| SnapshotFs.Split | scripts/create-snapshot.js:215 | splitting a path at `/` gives at least one piece and no piece holds the separator |
| SnapshotFs.NamesHaveNoSlash | scripts/create-snapshot.py:182 | neither `Path(p).name` nor `path.basename(p)` ever holds a `/`, so the output never leaves `snapshots/` |
| SnapshotFs.PlainName | scripts/create-snapshot.js:215 | a plain name without a separator is its own base name under both scripts' rules |
| SnapshotFs.NamesDifferOnDot | scripts/create-snapshot.py:182 | on `dir/.` Python's name is `dir` while Node.js's base name is `.` |
| SnapshotRules.ExcludeNamesPyListed | scripts/create-snapshot.py:26-31 | the listed sixteen names are exactly the Python exclusion set |
| SnapshotRules.LastDot | scripts/create-snapshot.py:86 | the index of the last dot, or -1 exactly when the name has no dot |
| SnapshotRules.PySuffix | scripts/create-snapshot.py:86 | a non-empty suffix starts with a dot, has a character after it, is shorter than the name and ends it |
| SnapshotRules.JsExtname | scripts/create-snapshot.js:69 | a non-empty extension starts with a dot, is shorter than the name and ends it |
| SnapshotRules.SuffixesDisagreeOnTrailingDot | scripts/create-snapshot.js:69 | on `notes.` Python finds no suffix while Node.js finds the extension `.` |
| SnapshotRules.DotFilesHaveNoExtension | scripts/create-snapshot.py:86 | a dot file with no further dot has no extension under either script |
| SnapshotRules.StarToDotStar | scripts/create-snapshot.js:56 | a pattern with no `*` is left as it is |
| SnapshotRules.RegexTestIff | scripts/create-snapshot.js:57 | `regex.test(name)` holds exactly when the expression matches from some index of the name |
| SnapshotRules.StarDotPattern | scripts/create-snapshot.js:54-58 | the expression a `*.x` pattern becomes finds `x` at an index of at least 1 whose preceding character is not a line terminator, and nothing else |
| SnapshotRules.LogPattern | scripts/create-snapshot.js:35 | the pattern `*.log` excludes exactly the names holding `log` after their first character |
| SnapshotRules.TmpPattern | scripts/create-snapshot.js:38 | the pattern `*.tmp` excludes exactly the names holding `tmp` after their first character |
| SnapshotRules.TempPattern | scripts/create-snapshot.js:39 | the pattern `*.temp` excludes exactly the names holding `temp` after their first character |
| SnapshotRules.ExcludedJsIff | scripts/create-snapshot.js:52-64 | Node.js excludes a name exactly when it is one of the eleven exact names or holds `log`, `tmp` or `temp` after its first character |
| SnapshotRules.CatalogSourceExcludedByJs | scripts/create-snapshot.js:52-64 | `catalog.ts` is skipped by the Node.js script |
| SnapshotRules.CatalogSourceKeptByPy | scripts/create-snapshot.py:79-81 | `catalog.ts` is kept by the Python script |
| SnapshotRules.LanguageIsKnown | scripts/create-snapshot.py:40-77 | the fence language is always one of the fixed languages the two tables and special cases produce |
| SnapshotTree.TreeOrderPreorder | scripts/create-snapshot.py:116 | the listing order (directories first, then lower-cased names) is total and transitive |
| SnapshotTree.Listed | scripts/create-snapshot.py:108-116 | an entry is listed exactly when it is a child of the directory and passes the exclusion and inclusion tests |
| SnapshotTree.ListedPySorted | scripts/create-snapshot.py:116 | the Python listing is sorted by the listing order |
| SnapshotTree.ListedJsKeepsOrder | scripts/create-snapshot.js:131-135 | the Node.js listing is the directory listing with the hidden entries filtered out, order kept |
| SnapshotTree.Tree | scripts/create-snapshot.py:94-133 | the text is empty exactly past the depth limit or for an excluded directory, and otherwise opens with prefix, connector and `name/` |
| SnapshotTree.CreateFileTree | scripts/create-snapshot.js:120-157 | the loop builds exactly the specified tree text |
| SnapshotTree.EntryText | scripts/create-snapshot.js:138-149 | one entry's text: the subtree of a directory, one connector line for a file |
| SnapshotTree.ListRoot | scripts/create-snapshot.js:224-246 | the root listing the snapshot embeds equals its specification |
| SnapshotTree.TooDeepIsEmpty | scripts/create-snapshot.py:96-97 | a directory past the depth limit contributes nothing |
| SnapshotTree.NodeModulesExcluded | scripts/create-snapshot.js:26 | both scripts exclude `node_modules` |
| SnapshotTree.NodeModulesHidden | scripts/create-snapshot.py:99-101 | a `node_modules` directory draws nothing in either script |
| SnapshotCollect.CollectFilesPy | scripts/create-snapshot.py:135-164 | the loop keeps exactly the enumerated files that pass the three tests, in order |
| SnapshotCollect.AnyExcluded | scripts/create-snapshot.py:146 | true exactly when some path component is excluded |
| SnapshotCollect.CollectedPyIff | scripts/create-snapshot.py:142-154 | a file is collected exactly when enumerated, no path component is excluded, its name is included and its size is within the limit; depth plays no part |
| SnapshotCollect.ExcludedAncestorHidesAll | scripts/create-snapshot.py:145-147 | an excluded component in the source directory's own absolute path leaves nothing collected |
| SnapshotCollect.CollectFilesJs | scripts/create-snapshot.js:160-195 | the recursive walk returns exactly the specified files |
| SnapshotCollect.EntryFiles | scripts/create-snapshot.js:169-187 | one entry's files: its subtree for a directory, itself if it passes the tests for a file |
| SnapshotCollect.CollectedJsIff | scripts/create-snapshot.js:160-195 | a file is collected exactly when it lies in the tree within the depth limit, no directory on its path is excluded, and it passes the file tests |
| SnapshotDoc.SortedFiles | scripts/create-snapshot.py:232 | the sorted files are a permutation of the collected ones |
| SnapshotDoc.OutputTarget | scripts/create-snapshot.js:215 | a usable target lies directly inside `snapshots/` |
| SnapshotDoc.SectionShape | scripts/create-snapshot.py:240-252 | each section opens with its heading; an unreadable file gets the error note, a readable one its whole text |
| SnapshotDoc.CreateSnapshot | scripts/create-snapshot.js:198-300 | the run's outcome (missing source, nothing to write, written, write failed) equals its specification |
| SnapshotDoc.CollectFiles | scripts/create-snapshot.py:222 | the collected files equal the specification of the script's collector |
| SnapshotDoc.AppendSections | scripts/create-snapshot.js:266-285 | the loop appends exactly one section per sorted file, in order |
| SnapshotDoc.MissingSourceFails | scripts/create-snapshot.py:170-173 | a missing source ends with status 1 and writes nothing |
| SnapshotDoc.NoFilesNoWrite | scripts/create-snapshot.js:258-261 | with no collected file nothing is written |
| SnapshotDoc.WrittenUnderSnapshots | scripts/create-snapshot.py:182 | a written snapshot was collected from an existing source and lands directly under `snapshots/` with the output's base name |
| SnapshotDoc.DirectoryOutputFails | scripts/create-snapshot.py:255-264 | the output name `.` makes the write fail with status 1 once files were collected |
| SnapshotDoc.DocumentStartsWithHeading | scripts/create-snapshot.py:187 | the document opens with the heading naming the source directory |
| SnapshotDoc.SortedByRelativePath | scripts/create-snapshot.js:266-267 | sorting by the full path is sorting by the relative path |
| SnapshotDoc.SectionsOrdered | scripts/create-snapshot.py:232-235 | the sections are a permutation of the files in code-point order of relative path |
| SnapshotDoc.WrittenHoldsEverySection | scripts/create-snapshot.js:266-291 | a written document holds the section of every collected file, unreadable ones included |
| SnapshotDoc.MainJs | scripts/create-snapshot.js:329-341 | `-h` or `--help` anywhere in the arguments shows the help, and only then; no argument list is ever a usage error |
| SnapshotDoc.PyHelpShown | scripts/create-snapshot.py:266-290 | `-h`, `--help` or an abbreviation of it shows the help (exit 0) whatever follows, unless an earlier word was `--` or refused |
| SnapshotDoc.PyUnknownOptionRefused | scripts/create-snapshot.py:266-290 | an unknown option before any `--` never leads to a snapshot: a usage error (exit 2), or the help if one is asked for later |
| SnapshotDoc.PyPlainArguments | scripts/create-snapshot.py:284-294 | a line of plain words takes a snapshot exactly when it has at most two, and a third is a usage error (exit 2) |
| SnapshotDoc.GivenArgumentsPy | scripts/create-snapshot.py:284-294 | in the Python script a given output is used as is, and a folder alone names the output `<Path(folder).name>-snapshot.md` |
| SnapshotDoc.DefaultArguments | scripts/create-snapshot.js:337-338 | without arguments both scripts snapshot `src` into `src-snapshot.md` |
| SnapshotDoc.GivenArguments | scripts/create-snapshot.js:337-338 | in the Node.js script a given output is used as is, and a folder alone names the output `<basename(folder)>-snapshot.md` |
| Auth.AdminAuthMiddleware | src/lib/auth.ts:26-53 | 401 exactly for a guarded API path without a token; a redirect to `/admin/login` exactly for a protected page without a token; with a token the request always continues |
| Auth.MiddlewareAgreesWithIsAuthenticated | src/lib/auth.ts:8-72 | on a guarded API path or a protected page the middleware lets a request through exactly when `isAuthenticated` holds, and exactly when `getCurrentAdmin` names a user |
| Auth.GetCurrentAdmin | src/lib/auth.ts:59-73 | a user exactly when authenticated, and then the fixed `admin`/`admin` placeholder |
| Auth.UnguardedContinues | src/lib/auth.ts:28-52 | a path outside `/api/admin` and `/admin/` always continues, token or not |
| Auth.LoginReachable | src/lib/auth.ts:29-30 | the login API itself is never blocked |
| AdminLogin.CountAttempt | src/app/api/admin/login/route.ts:25-41 | inside the window at five attempts the IP is refused and its record kept; inside the window below five the count goes up with the window's start kept; otherwise a fresh window of one starts now |
| AdminLogin.CheckPassword | src/app/api/admin/login/route.ts:43-74 | logged in exactly when the body's password equals a non-empty configured password, with the session cookie of the environment; 400 exactly when the password is missing or falsy |
| AdminLogin.CountAttemptValid | src/app/api/admin/login/route.ts:14-41 | a stored record always counts between 1 and 5 attempts |
| AdminLogin.LoginLimiter.constructor | src/app/api/admin/login/route.ts:16 | the limiter starts with no records |
| AdminLogin.LoginLimiter.Post | src/app/api/admin/login/route.ts:18-82 | the reply and the new attempt map: 429 with nothing changed when locked out, the record deleted on success, otherwise the counted record stored |
| AdminLogin.LockoutAfterFive | src/app/api/admin/login/route.ts:27-33 | after five unsuccessful attempts inside one window even the right password is refused until the window passes |
| AdminLogin.SuccessResets | src/app/api/admin/login/route.ts:63-64 | a successful login deletes the record, so the next attempt starts a fresh window of one |
| AdminLogin.LoginWindowBoundary | src/app/api/admin/login/route.ts:27 | a locked IP is released exactly 15 minutes after its window started, and not a millisecond before |
| AdminOrdersRoute.Clamps | src/app/api/admin/orders/route.ts:17-21 | the page is at least 1 and the page size between 1 and 100; absent values give page 1 and size 20 |
| AdminOrdersRoute.BuildFilter | src/app/api/admin/orders/route.ts:25-34 | the filter holds exactly for orders with the asked status (if any) whose number, name or phone matches the text (if any) |
| AdminOrdersRoute.Get | src/app/api/admin/orders/route.ts:6-50 | 401 without the session cookie `1`; otherwise the clamped page of the wanted orders newest first, with the total count of the same filter |
| AdminOrdersRoute.Post | src/app/api/admin/orders/route.ts:52-54 | always 405 |
| AdminOrdersRoute.ListedNewestFirst | src/app/api/admin/orders/route.ts:37-38 | the listing is sorted newest first and holds exactly the wanted orders |
| AdminOrdersRoute.NoFilterListsAll | src/app/api/admin/orders/route.ts:25-36 | with no status and no text the total counts every order |
| AdminCategoriesRoute.SkipSpaces | src/app/api/admin/categories/route.ts:34 | a suffix of the input that does not start with white space |
| AdminCategoriesRoute.DerivedSlugChars | src/app/api/admin/categories/route.ts:30-35 | a derived slug holds only `a`-`z`, digits and dashes |
| AdminCategoriesRoute.DashSpacesNoSpace | src/app/api/admin/categories/route.ts:34 | after the replacement no white space is left |
| AdminCategoriesRoute.DashSpacesRun | src/app/api/admin/categories/route.ts:34 | a run of white space between words becomes exactly one dash |
| AdminCategoriesRoute.DeriveSlugIdempotent | src/app/api/admin/categories/route.ts:30-35 | deriving a slug from a derived slug changes nothing |
| AdminCategoriesRoute.CreatedSlug | src/app/api/admin/categories/route.ts:28-51 | a created category keeps the trimmed given slug when it is non-empty, and otherwise the slug derived from the name |
| AdminCategoriesRoute.CreatedParent | src/app/api/admin/categories/route.ts:36-49 | a created category has no parent without a truthy `parentId`, and otherwise the parsed id |
| AdminCategoriesRoute.DuplicateSlugRefused | src/app/api/admin/categories/route.ts:52-58 | a duplicate-key save is answered 400 `slug must be unique` |
| AdminCategoriesRoute.ItemOf | src/app/api/admin/categories/route.ts:9-16 | an item keeps id, name and slug, and has a parent exactly when the document has one |
| AdminCategoriesRoute.List | src/app/api/admin/categories/route.ts:6-18 | one item per document, in order |
| AdminCategoriesRoute.NameRequiredIff | src/app/api/admin/categories/route.ts:28-29 | the answer is `name is required` with status 400 exactly when the name is missing or falsy |
| AdminProductsRoute.ParseBoolIff | src/app/api/admin/products/route.ts:8-11 | `true` exactly for the text `true`, `false` exactly for the text `false`, and undefined for anything else or nothing |
| AdminProductsRoute.AdminPaging | src/app/api/admin/products/route.ts:18-19 | page and page size are at least 1, defaulting to 1 and 20 |
| AdminProductsRoute.AdminPerPageUncapped | src/app/api/admin/products/route.ts:19 | unlike the public routes the admin page size has no upper cap: every size of at least 1 is kept as given |
| AdminProductsRoute.BuildMatch | src/app/api/admin/products/route.ts:31-47 | the built match holds exactly for documents whose title, author or publisher matches the text, in the valid category, in stock and on sale as asked |
| AdminProductsRoute.PushPriceStages | src/app/api/admin/products/route.ts:53-56 | at most two stages, holding exactly when the effective price is within each bound the query string holds |
| AdminProductsRoute.Get | src/app/api/admin/products/route.ts:13-125 | page and size as parsed, the total of the wanted documents, and the requested page of them in the requested order |
| AdminProductsRoute.FalseFlagsIgnored | src/app/api/admin/products/route.ts:43-44 | `inStock=false` and `onSale=false` filter nothing |
| AdminProductsRoute.EmptyPriceMinIsZero | src/app/api/admin/products/route.ts:53-54 | an empty `priceMin` is still a bound, `Number("")` being 0 |
| AdminProductsRoute.AdminOrderedSorted | src/app/api/admin/products/route.ts:58-78 | the listing is sorted by the requested field and holds exactly the wanted documents |
| AdminProductsRoute.MissingFieldsIff | src/app/api/admin/products/route.ts:131-136 | 400 `title and price are required` exactly when the title is falsy or the price nullish |
| AdminProductsRoute.CreatedDefaults | src/app/api/admin/products/route.ts:138-181 | a created product takes the new id as id and slug, the slug as missing SKU, stock 0, no images and empty attributes by default, with status 201 |
| AdminProductsRoute.SalePriceIff | src/app/api/admin/products/route.ts:150-161 | the sale price is null exactly for a missing, null, empty or non-numeric value, and a number is kept |
| AdminProductsRoute.KeptIdsExact | src/app/api/admin/products/route.ts:140-149 | the kept category ids are exactly the parsed valid ones, never more than given |
| AdminProductsRoute.KeptIdsInOrder | src/app/api/admin/products/route.ts:140-149 | when every id is valid all are kept, in order |
| AdminProductsRoute.DuplicateSlug | src/app/api/admin/products/route.ts:183-187 | a duplicate-key save is answered 400 `slug must be unique` |
| Cache.DefaultTtl | src/lib/cache.ts:14-16 | without a time to live an entry lives the constructor's seconds, 300 for the shared instance |
| Cache.SetThenLookup | src/lib/cache.ts:49-57 | a stored key reads back its value until its expiry and nothing after; other keys are unaffected |
| Cache.AfterGetUnseen | src/lib/cache.ts:29-41 | a read's deletion of an expired entry changes no later read |
| Cache.LiveUnseen | src/lib/cache.ts:101-109 | the sweep changes no later read and keeps only unexpired entries |
| Cache.GetOrSetCaches | src/lib/cache.ts:82-96 | after `getOrSet` the key reads back as its answer, and a live entry is returned without the factory's value |
| Cache.MemoryCache.constructor | src/lib/cache.ts:14-22 | an empty cache whose default lifetime is the given seconds in milliseconds |
| Cache.MemoryCache.Get | src/lib/cache.ts:29-41 | the live value or nothing, deleting the entry when it has expired |
| Cache.MemoryCache.Set | src/lib/cache.ts:49-57 | the key now holds the value, expiring after the given or default lifetime |
| Cache.MemoryCache.Delete | src/lib/cache.ts:64-66 | true exactly when the key was present, which it no longer is |
| Cache.MemoryCache.Clear | src/lib/cache.ts:71-73 | the cache is empty |
| Cache.MemoryCache.GetOrSet | src/lib/cache.ts:82-96 | the answer and the new entries are those of the specification |
| Cache.MemoryCache.Cleanup | src/lib/cache.ts:101-109 | exactly the expired entries are removed |
| Cache.CacheKeyBare | src/lib/cache.ts:125-136 | without parameters the key is the prefix; an empty parameter object still adds the colon |
| Cache.CacheKeyOrderFree | src/lib/cache.ts:127 | the key does not depend on the order the parameters were given in |
| Cart.Lookup | src/store/cart.ts:16 | the line stored for an id, or none exactly when no line has that id |
| Cart.Upsert | src/store/cart.ts:34-37 | the result holds only the new line and old lines |
| Cart.NextQty | src/store/cart.ts:31-36 | the stored quantity is the old one plus the added one, raised to at least 1 |
| Cart.ClampQty | src/store/cart.ts:48 | negative quantities become 0, others are kept |
| Cart.CartStore.constructor | src/store/cart.ts:28 | the cart starts empty |
| Cart.CartStore.Add | src/store/cart.ts:29-39 | the product's line holds the item with the next quantity and no other line changes |
| Cart.CartStore.Remove | src/store/cart.ts:40-44 | the product's line is gone and no other line changes |
| Cart.CartStore.SetQty | src/store/cart.ts:45-56 | the lines are those of the specification of `setQty` |
| Cart.CartStore.Clear | src/store/cart.ts:57 | the cart is empty |
| Cart.LookupUpsert | src/store/cart.ts:34-37 | after the upsert the id reads back the new line and other ids their old lines |
| Cart.LookupWithout | src/store/cart.ts:42-43 | after the removal the id has no line and other ids keep theirs |
| Cart.AddProperties | src/store/cart.ts:29-39 | adding keeps one line per product with quantities of at least 1, sets the product's line and leaves the others |
| Cart.WithoutProperties | src/store/cart.ts:40-44 | removing keeps the lines well formed, drops the product's line and leaves the others |
| Cart.SetQtyKeepsValid | src/store/cart.ts:45-56 | setting a quantity keeps one line per product with quantities of at least 1 |
| Cart.SetQtyEffect | src/store/cart.ts:45-56 | an unknown id changes nothing; a quantity of 0 or less removes the line; a positive one replaces only that line's quantity |
| Cart.SumsUpsert | src/store/cart.ts:58-59 | the count and the subtotal change by exactly the replaced line |
| Cart.SumsWithout | src/store/cart.ts:58-59 | removing a line lowers count and subtotal by exactly that line |
| Cart.AddCount | src/store/cart.ts:29-39 | adding a positive quantity raises the count by exactly that quantity |
| Cart.SetQtyCount | src/store/cart.ts:45-58 | setting a quantity changes the count by the new quantity, clamped at 0, less the old one |
| Cart.ClearedIsEmpty | src/store/cart.ts:57-59 | an emptied cart counts 0 items and costs 0 |
| Cart.CountAtLeastLines | src/store/cart.ts:58 | the count is never below the number of lines |
| Cart.UpsertValid | src/store/cart.ts:29-39 | writing a line of at least one unit keeps one line per product, each of at least one unit |
| Cart.WithoutValid | src/store/cart.ts:40-44 | removing a line keeps that invariant |
| UrlParams.SetNewKey | src/services/catalog.ts:27-35 | `set` of a key not yet present appends the pair |
| UrlParams.SetOnce | src/services/catalog.ts:27-35 | after `set` the key appears once with the new value and every other pair is kept |
| UrlParams.SetKeys | src/services/catalog.ts:27-35 | `set` leaves the key set as it was plus the key |
| UrlParams.SerializeEmptyIff | src/services/catalog.ts:36 | the query string is empty exactly when no pair was set |
| UrlParams.PathWithoutEntries | src/services/catalog.ts:36 | the path carries no `?` exactly when no pair was set |
| UrlParams.GetAppend | src/services/catalog.ts:27-35 | reading a key of a concatenation looks in the second part only when the first lacks it |
| UrlParams.SearchParams.constructor | src/services/catalog.ts:26 | a fresh builder holds no pairs |
| UrlParams.SearchParams.Set | src/services/catalog.ts:27 | the pairs are those of `set` on the old ones |
| UrlParams.SetIf | src/services/catalog.ts:27-35 | a guarded `set` of a new key appends the pair exactly when the guard holds |
| CatalogService.SetSearch | src/services/catalog.ts:27-28 | the builder holds `q` and `categoryId` exactly when given and non-empty |
| CatalogService.SetPaging | src/services/catalog.ts:29-30 | `page` and `perPage` are appended exactly when non-zero |
| CatalogService.SetSortPrice | src/services/catalog.ts:31-33 | `sort` when non-empty and each price bound when a number, 0 included, are appended |
| CatalogService.SetToggles | src/services/catalog.ts:34-35 | each toggle is appended exactly when it is a boolean, `false` included |
| CatalogService.SetFilters | src/services/catalog.ts:31-35 | sort, bounds and toggles are appended in that order |
| CatalogService.ProductsPath | src/services/catalog.ts:25-38 | the request path is the products base plus the serialised pairs of the query |
| CatalogService.FacetsPath | src/services/catalog.ts:39-50 | the request path is the facets base plus the serialised pairs of the query |
| CatalogService.ProductBySlugPath | src/services/catalog.ts:51-53 | the path is the products base, a slash and the encoded slug |
| CatalogService.SlugPathsDistinct | src/services/catalog.ts:51-53 | with an injective encoding different slugs ask for different paths |
| CatalogService.SearchSent | src/services/catalog.ts:27-28 | exactly the given non-empty `q` and `categoryId` are sent |
| CatalogService.PagingSent | src/services/catalog.ts:29-30 | exactly the non-zero `page` and `perPage` are sent, as decimal text |
| CatalogService.SortPriceSent | src/services/catalog.ts:31-33 | exactly the non-empty sort and the numeric bounds are sent |
| CatalogService.ToggleSent | src/services/catalog.ts:34-35 | exactly the boolean toggles are sent, as `true` or `false` |
| CatalogService.ProductsSent | src/services/catalog.ts:25-36 | a pair is sent exactly when the query's field is set in the sense each guard tests, with its text as value |
| CatalogService.ZeroAndFalse | src/services/catalog.ts:29-34 | page 0 is dropped while price 0 and `inStock=false` are sent |
| CatalogService.ProductsInOrder | src/services/catalog.ts:27-35 | the keys appear in the order of the source's `set` calls |
| CatalogService.FacetsLikeProducts | src/services/catalog.ts:39-47 | the facets query string is the products one without paging, never holding `page` or `perPage` |
| CatalogService.ProductsBarePath | src/services/catalog.ts:36 | the path is the bare base exactly when no field passes its guard |
| CatalogClient.HydrateReads | src/app/catalog/CatalogClient.tsx:31-57 | hydration sets `q` and `debouncedQ` alike, defaults a missing `q` to empty and a missing page to 1, and turns `inStock=true` on |
| CatalogClient.SetUrlPaging | src/app/catalog/CatalogClient.tsx:66-67 | `page` and `perPage` are appended exactly when they differ from 1 and 12 |
| CatalogClient.SetUrlPrice | src/app/catalog/CatalogClient.tsx:68-69 | each price bound is appended exactly when it is set |
| CatalogClient.SetUrlToggles | src/app/catalog/CatalogClient.tsx:70-72 | `inStock`/`onSale` are appended as `true` when on, `sort` when not `newest` |
| CatalogClient.SearchGet | src/app/catalog/CatalogClient.tsx:64-65 | the address holds `q` and `categoryId` exactly when they are non-empty |
| CatalogClient.PagingGet | src/app/catalog/CatalogClient.tsx:66-67 | reading the paging pairs back gives the page and size exactly when they differ from the defaults |
| CatalogClient.PriceGet | src/app/catalog/CatalogClient.tsx:68-69 | reading the price pairs back gives exactly the set bounds as decimal text |
| CatalogClient.TogglesGet | src/app/catalog/CatalogClient.tsx:70-72 | reading the toggle pairs back gives `true` for each toggle that is on and the sort when not `newest` |
| CatalogClient.UrlGet | src/app/catalog/CatalogClient.tsx:62-75 | every key of the written address reads back as the state's value when it differs from its default, and as absent otherwise |
| CatalogClient.BareUrl | src/app/catalog/CatalogClient.tsx:73-74 | the address is `/catalog` with no `?` exactly when every filter is at its default |
| CatalogClient.IntTextPresent | src/app/catalog/CatalogClient.tsx:37 | a number written with `String` is non-empty and `Number` reads it back |
| CatalogClient.HydrateRoundTrip | src/app/catalog/CatalogClient.tsx:31-75 | hydrating from the address the page wrote restores every filter, the page and the sort |
| CatalogClient.HydrateFrom | src/app/catalog/CatalogClient.tsx:31-57 | any pair list that reads back as the state's address restores that state |
| CatalogClient.PageCountBounds | src/app/catalog/CatalogClient.tsx:129 | the page count is at least 1, its pages hold all items, the last page is not empty, and one page suffices for up to `perPage` items |
| CatalogClient.StepsStayInRange | src/app/catalog/CatalogClient.tsx:253-255 | a click on an enabled button moves exactly one page, a click on a disabled one changes nothing, and from a page in range both stay in range |
| CatalogClient.ProductRequest | src/app/catalog/CatalogClient.tsx:84-98 | the products request carries each toggle only as `true` and only when on, and each bound only when set |
| CatalogClient.FacetRequest | src/app/catalog/CatalogClient.tsx:112-122 | the facets request never carries paging or price bounds |
| CatalogClient.ClearedIsBare | src/app/catalog/CatalogClient.tsx:192-202 | after reset the address is `/catalog` alone |
| CatalogClient.CatalogPage.constructor | src/app/catalog/CatalogClient.tsx:14-28 | the initial state: empty search, page 1 of size 12, no bounds, toggles off, sort `newest` |
| CatalogClient.CatalogPage.Hydrate | src/app/catalog/CatalogClient.tsx:31-59 | the new state is the old one hydrated from the address pairs |
| CatalogClient.CatalogPage.SetSearchRead | src/app/catalog/CatalogClient.tsx:48-51 | search, category and page take the values read, with `''` and 1 for missing ones |
| CatalogClient.CatalogPage.SetFilterRead | src/app/catalog/CatalogClient.tsx:53-57 | each bound, toggle and the sort change only when a value was read |
| CatalogClient.CatalogPage.SyncUrl | src/app/catalog/CatalogClient.tsx:62-75 | the path is `/catalog` plus the serialised pairs of the state |
| CatalogClient.CatalogPage.Debounced | src/app/catalog/CatalogClient.tsx:78-81 | the debounced search takes the typed search and nothing else changes |
| CatalogClient.CatalogPage.Loaded | src/app/catalog/CatalogClient.tsx:103-105 | the total changes only when the answer has one |
| CatalogClient.CatalogPage.Search | src/app/catalog/CatalogClient.tsx:140-142 | typing sets the search and returns to page 1 |
| CatalogClient.CatalogPage.ChooseCategory | src/app/catalog/CatalogClient.tsx:146 | choosing `all` clears the category, anything else sets it; page 1 |
| CatalogClient.CatalogPage.Slide | src/app/catalog/CatalogClient.tsx:168-172 | the slider sets both bounds and returns to page 1 |
| CatalogClient.CatalogPage.ToggleInStock | src/app/catalog/CatalogClient.tsx:176 | the in-stock toggle takes the checkbox value; page 1 |
| CatalogClient.CatalogPage.ToggleOnSale | src/app/catalog/CatalogClient.tsx:177 | the on-sale toggle takes the checkbox value; page 1 |
| CatalogClient.CatalogPage.ChooseSort | src/app/catalog/CatalogClient.tsx:180 | the sort takes the choice; page 1 |
| CatalogClient.CatalogPage.Reset | src/app/catalog/CatalogClient.tsx:192-202 | every filter returns to its default and the page to 1 |
| CatalogClient.CatalogPage.RemoveChip | src/app/catalog/CatalogClient.tsx:207-213 | removing a chip resets that one filter and keeps the page |
| CatalogClient.CatalogPage.Pages | src/app/catalog/CatalogClient.tsx:129 | the page count is at least 1 and its pages hold all items |
| CatalogClient.CatalogPage.Prev | src/app/catalog/CatalogClient.tsx:253 | Back moves to the previous page, and does nothing while disabled at page 1 or below |
| CatalogClient.CatalogPage.Next | src/app/catalog/CatalogClient.tsx:255 | Next moves to the next page, and does nothing while disabled at the last page or beyond |
| Checkout.SetField | src/app/checkout/page.tsx:126-127 | the edited field takes the new value and every other field is kept |
| Checkout.DotInsideIff | src/app/checkout/page.tsx:149 | the `\S+\.\S+` tail holds exactly when a dot has a character on each side |
| Checkout.AtThenDotIff | src/app/checkout/page.tsx:149 | the `\S+@\S+\.\S+` shape holds exactly when an `@` after the first character is followed, past one more character, by a dot before the last |
| Checkout.EmailOkIff | src/app/checkout/page.tsx:149 | an e-mail passes exactly when it has no space and such an `@` and dot |
| Checkout.FormValidIff | src/app/checkout/page.tsx:136-159 | the form is valid exactly when no field has an error |
| Checkout.ValidFieldHasNoError | src/app/checkout/page.tsx:136-159 | no field of a valid form has an error |
| Checkout.InvalidFormHasError | src/app/checkout/page.tsx:136-159 | an invalid form has an error on some field |
| Checkout.StepMoves | src/app/checkout/page.tsx:219-246 | Next moves forward one step at most, Back backward one step at most, Back undoes a Next that moved, and shipping leads to payment exactly when the seven fields are filled |
| Checkout.ValidFormAdvances | src/app/checkout/page.tsx:219-238 | a valid form can always leave the shipping step |
| Checkout.BlankNameReachesPayment | src/app/checkout/page.tsx:224-233 | the shipping step tests emptiness only, so a blank name reaches payment although the form is invalid |
| Checkout.ValuesTotalIsSumPrice | src/app/checkout/page.tsx:65-68 | the page's subtotal is the cart's subtotal |
| Checkout.OrderLines | src/app/checkout/page.tsx:174-180 | one order line per cart item, with its product and quantity |
| Checkout.PayloadPassesRouteChecks | src/app/checkout/page.tsx:183-205 | what a valid form and a non-empty cart send passes every payload check of the orders route, names the carrier `nova` of the schema's enum, and carries the chosen payment method as provider |
| Checkout.RequisitesNeverOrdered | src/app/checkout/page.tsx:183-205 | an order from a valid form with the offered payment method `requisites` is refused for its lines or fails to save with 500, and is never created |
| Checkout.PageOrdersUnderIntendedSchema | src/app/checkout/page.tsx:183-205 | an order of the page that passes the route's checks, with savable products and a new number, is created under the provider enum extended by `requisites` whichever offered method was chosen, and as written exactly when it is `cod` |
| Checkout.CollectErrors | src/app/checkout/page.tsx:137-156 | the record holds exactly the fields that have an error, with their message |
| Checkout.RecordPresence | src/app/checkout/page.tsx:140-146 | the record holds exactly the missing required fields, with their message |
| Checkout.RecordFormats | src/app/checkout/page.tsx:149-156 | adding the format messages over the presence record gives every field's final error |
| Checkout.NoErrorsIffValid | src/app/checkout/page.tsx:159 | the record is empty exactly when the form is valid |
| Checkout.RecordIf | src/app/checkout/page.tsx:140-156 | a guarded assignment sets the field's message exactly when the guard holds |
| Checkout.CheckoutPage.constructor | src/app/checkout/page.tsx:40-62 | the prefilled form, no errors, the cart step, delivery 0 and closed lists |
| Checkout.CheckoutPage.ValidateForm | src/app/checkout/page.tsx:136-160 | the errors become those of the form and the answer is whether it is valid; nothing else changes |
| Checkout.CheckoutPage.HandleChange | src/app/checkout/page.tsx:121-133 | the field takes the value, its error is cleared and nothing else changes |
| Checkout.CheckoutPage.TypeCity | src/app/checkout/page.tsx:426-429 | the city search takes the text and the city list opens |
| Checkout.CheckoutPage.SelectCity | src/app/checkout/page.tsx:441-452 | choosing a city sets it, clears the warehouse and the address, and closes the list |
| Checkout.CheckoutPage.TypeWarehouse | src/app/checkout/page.tsx:477-483 | the warehouse field takes the text and the list opens |
| Checkout.CheckoutPage.SelectWarehouse | src/app/checkout/page.tsx:497-505 | choosing a warehouse sets it, its ref and the address, and closes the list |
| Checkout.CheckoutPage.ApplyDeliveryCost | src/app/checkout/page.tsx:109-118 | the delivery cost changes only when a city is chosen and the subtotal is positive |
| Checkout.CheckoutPage.GoToNextStep | src/app/checkout/page.tsx:219-238 | the step moves as `goToNextStep` says; a refused shipping step records the form's errors |
| Checkout.CheckoutPage.GoToPrevStep | src/app/checkout/page.tsx:240-246 | the step moves back one |
| Checkout.CheckoutPage.HandleSubmit | src/app/checkout/page.tsx:163-216 | an invalid form sends nothing; a failed request keeps the cart; a created order empties the cart and leads to its confirmation page; submitting ends unset |
| Checkout.TotalIsCartSubtotalPlusDelivery | src/app/checkout/page.tsx:65-70 | the total is the cart's subtotal plus the delivery cost |
| FacetsRoute.BuildBase | src/app/api/catalog/facets/route.ts:36-68 | a document passes every built condition exactly when it passes the search, category, stock and sale filters |
| FacetsRoute.BuildWithPrice | src/app/api/catalog/facets/route.ts:69-74 | the copy starts with the base conditions, and a document passes it exactly when it also passes both price bounds on its effective price |
| FacetsRoute.BumpCounts | src/app/api/catalog/facets/route.ts:91 | adding one unwound record adds its key to the groups and one to its count |
| FacetsRoute.GroupCounts | src/app/api/catalog/facets/route.ts:91 | the groups' keys are the keys met and each count is the number of records with that key |
| FacetsRoute.MapSomeCount | src/app/api/catalog/facets/route.ts:85-90 | unwinding a category list keeps how often each category occurs |
| FacetsRoute.UnwindOccurrences | src/app/api/catalog/facets/route.ts:85-90 | the unwound records of a category are its listings across the documents |
| FacetsRoute.FillCounts | src/app/api/catalog/facets/route.ts:119-122 | the map holds exactly the non-null group keys, each with its group's count |
| FacetsRoute.MinOf | src/app/api/catalog/facets/route.ts:98 | `$min` is an element of the group at or below every element |
| FacetsRoute.MaxOf | src/app/api/catalog/facets/route.ts:99 | `$max` is an element of the group at or above every element |
| FacetsRoute.Get | src/app/api/catalog/facets/route.ts:8-137 | every existing category and only those, each with its listings among the products passing all filters; the price range spans the effective prices of the products passing the filters without the bounds, and is 0..0 when none does |
| FacetsRoute.PricedWithinBase | src/app/api/catalog/facets/route.ts:69-74 | the price bounds only narrow the counted products, and without bounds both sets agree |
| FacetsRoute.InvalidCategoryDropped | src/app/api/catalog/facets/route.ts:44-48 | a category id that is not an ObjectId filters nothing |
| FacetsRoute.OccurrencesAppend | src/app/api/catalog/facets/route.ts:85-91 | counts add up over the documents, each listing counted once |
| FacetsRoute.SingleCategory | src/app/api/catalog/facets/route.ts:85-91 | a product in one category adds exactly one to it and nothing to the others |
| ProductsRoute.FlagParamIff | src/app/api/catalog/products/route.ts:27-32 | a flag is on for exactly `true`, off for any other non-empty text, and absent when missing or empty |
| ProductsRoute.EscapeRoundTrip | src/app/api/catalog/products/route.ts:64 | the escaped text is a literal pattern that reads back as the original text |
| ProductsRoute.EscapeIdentityIff | src/app/api/catalog/products/route.ts:64 | escaping changes a text exactly when it holds a regular-expression special character |
| ProductsRoute.EscapeLength | src/app/api/catalog/products/route.ts:64 | escaping never shortens a text |
| ProductsRoute.AllHoldSnoc | src/app/api/catalog/products/route.ts:157 | a condition appended to `$and` is one more condition to meet |
| ProductsRoute.PushTerm | src/app/api/catalog/products/route.ts:59-155 | pushing a condition equivalent to the next filter keeps the conditions equivalent to the filters so far |
| ProductsRoute.SkipTerm | src/app/api/catalog/products/route.ts:59-155 | skipping a filter that holds for every document keeps that equivalence |
| ProductsRoute.LikeMeansContains | src/app/api/catalog/products/route.ts:62-67 | a case-insensitive escaped pattern matches exactly the texts holding the raw text |
| ProductsRoute.BuildTerms | src/app/api/catalog/products/route.ts:54-157 | the early return happens exactly for a category id that is not an ObjectId; otherwise a document meets all conditions exactly when it passes every filter |
| ProductsRoute.PushStock | src/app/api/catalog/products/route.ts:90-112 | the stock and sale conditions are equivalent to their filters |
| ProductsRoute.PushPrice | src/app/api/catalog/products/route.ts:114-122 | the price conditions are equivalent to both inclusive bounds on the price charged |
| ProductsRoute.PushAttributes | src/app/api/catalog/products/route.ts:124-155 | the attribute conditions are equivalent to the year, author, publisher, language, cover, vendor and class filters |
| ProductsRoute.PushLikes | src/app/api/catalog/products/route.ts:128-143 | the author and publisher conditions are case-insensitive substring tests |
| ProductsRoute.PushEquals | src/app/api/catalog/products/route.ts:144-155 | the language, cover, vendor and class conditions are equality tests |
| ProductsRoute.BuildSortStage | src/app/api/catalog/products/route.ts:159-185 | relevance first exactly under text search, and each sort name selects its field, anything else newest first |
| ProductsRoute.FieldPreorder | src/app/api/catalog/products/route.ts:170-185 | every sort field orders the documents as a total preorder |
| ProductsRoute.StagePreorder | src/app/api/catalog/products/route.ts:159-185 | relevance and then the field is again a total preorder |
| ProductsRoute.ItemOf | src/app/api/catalog/products/route.ts:220-235 | each listed item keeps the document's fields, with empty images and categories when missing |
| ProductsRoute.PagingBounds | src/app/api/catalog/products/route.ts:187-189 | the page is at least 1 and the size within 1..100, and requests already in range are kept |
| ProductsRoute.Get | src/app/api/catalog/products/route.ts:10-246 | an invalid category id answers an empty first page with the requested size unclamped; otherwise the clamped page of the wanted documents in sort order and their number |
| ProductsRoute.OrderedSorted | src/app/api/catalog/products/route.ts:202 | the listing is sorted by the sort stage |
| ProductsRoute.OrderedPermutation | src/app/api/catalog/products/route.ts:194-202 | the listing holds exactly the wanted documents, each as often as stored |
| ProductsRoute.EmptyQueryWantsAll | src/app/api/catalog/products/route.ts:54-185 | without parameters every document is wanted, newest first, without text search |
| ProductsRoute.FiltersHoldAll | src/app/api/catalog/products/route.ts:59-155 | a document passing each filter passes them all |
| ProductsRoute.ShortQueryByTitle | src/app/api/catalog/products/route.ts:56-67 | under a query of fewer than three characters a wanted document's title holds the query, ignoring case |
| ProductsRoute.FiltersHoldEach | src/app/api/catalog/products/route.ts:59-155 | a document passing all filters passes each one |
| ProductsRoute.WantedWithinPrice | src/app/api/catalog/products/route.ts:114-122 | a wanted document's price charged lies within the given bounds, both ends included |
| ProductsRoute.ShortCircuitSizeUnclamped | src/app/api/catalog/products/route.ts:72-87 | the early return keeps a requested size outside 1..100 |
| OrdersRoute.CalcTotals | src/app/api/orders/route.ts:9-14 | the items total is the sum of price times quantity, shipping is free from 1500 and 80 below, and the grand total adds the two |
| OrdersRoute.Distinct | src/app/api/orders/route.ts:51 | the distinct ids are exactly the ids of the lines |
| OrdersRoute.FirstInvalid | src/app/api/orders/route.ts:55-61 | there is no answer exactly when every id is a valid ObjectId, and an answer is an invalid id of the list |
| OrdersRoute.FindProduct | src/app/api/orders/route.ts:69-71 | a found product is stored under that id, and none is found exactly when no stored product has it |
| OrdersRoute.HandlePost | src/app/api/orders/route.ts:26-156 | the outcome is that of the checks in order: items, customer, ids, then lines, and then the save, which the Order schema or the unique number can fail with 500 |
| OrdersRoute.ProviderOutsideEnumNeverAccepted | src/lib/models/Order.ts:76-78 | a payment provider other than `fondy`, `liqpay` or `cod` is never saved |
| OrdersRoute.CarrierOutsideEnumNeverAccepted | src/lib/models/Order.ts:65-66 | a carrier other than `nova` or `ukr` is never saved |
| OrdersRoute.TakenNumberNeverAccepted | src/lib/models/Order.ts:58 | an order number already stored is never saved again |
| OrdersRoute.PastChecks | src/app/api/orders/route.ts:114-146 | once the ids and the lines have passed, the outcome is that of the save alone, whatever the provider enum |
| OrdersRoute.OutsideEnumRefusedOrFails | src/lib/models/Order.ts:76-78 | a well-formed payload whose provider is outside the enum is refused for its lines or fails to save, never crashes and is never created |
| OrdersRoute.SavedIffProvider | src/lib/models/Order.ts:57-83 | a well-formed payload past the checks, with a carrier of the enum, savable products and a new number, is created exactly when its provider is in the enum |
| OrdersRoute.NormalizedSavable | src/lib/models/Order.ts:46-55 | lines normalised from products with a title and prices not below 0 all pass the item schema |
| OrdersRoute.CheckIds | src/app/api/orders/route.ts:55-63 | the loop stops at the first invalid id in order, or finds none |
| OrdersRoute.NormalizeLines | src/app/api/orders/route.ts:73-112 | the loop gives the normalised lines, or the error of the first failing line |
| OrdersRoute.FirstInvalidPrefix | src/app/api/orders/route.ts:55-61 | an invalid id among the first ids is the first invalid id of them all |
| OrdersRoute.NormalizeAllStep | src/app/api/orders/route.ts:74-111 | one more line appends its item, or its error answers for all the lines |
| OrdersRoute.NormalizeAllPrefix | src/app/api/orders/route.ts:74-94 | an error among the first lines answers for all of them |
| OrdersRoute.EmptyItemsRejected | src/app/api/orders/route.ts:38-43 | missing or empty items are refused first with 400 |
| OrdersRoute.MissingCustomerRejected | src/app/api/orders/route.ts:44-49 | with items, a missing customer name or phone is refused with 400 |
| OrdersRoute.InvalidIdFirst | src/app/api/orders/route.ts:51-61 | an invalid product id anywhere is refused with 400 before any line is checked |
| OrdersRoute.ProductIdsHas | src/app/api/orders/route.ts:51 | every line's id is among the ids collected |
| OrdersRoute.WellFormedDecidedByLines | src/app/api/orders/route.ts:38-156 | a well-formed payload never crashes the route; it is refused exactly for its ids or lines, and past them it is created exactly when the built order passes the Order schema with a new number, and answered 500 otherwise |
| OrdersRoute.RejectionStatuses | src/app/api/orders/route.ts:38-94 | every refusal is a 400, or a 409 for a product short of stock |
| OrdersRoute.NormalizeAllStatuses | src/app/api/orders/route.ts:75-94 | every line error is a 400 or a 409 |
| OrdersRoute.LineOkMatches | src/app/api/orders/route.ts:75-111 | a line that passes gives an item of its product, quantity, prices and first image, within stock |
| OrdersRoute.NormalizedLines | src/app/api/orders/route.ts:73-112 | when every line passes there is one item per line, in order, each matching its line |
| OrdersRoute.StockCheckedPerLine | src/app/api/orders/route.ts:88-94 | stock is checked per line: two lines of one product each within stock pass together even past it |
| OrdersRoute.AcceptedOrder | src/app/api/orders/route.ts:114-145 | an accepted order is new, awaits payment, carries the number, one item per line, and totals by `calcTotals`, and all its ids were valid |
| MockCatalog.GenerateProducts | src/mocks/catalog.ts:79-140 | 36 products are appended after the seed products, which are kept, and the `n`-th appended one is the one the generator makes at step `n` |
| MockCatalog.SeededPositions | src/mocks/catalog.ts:79-140 | after `k` steps the seed is kept and the `n`-th generated product follows it at `n` |
| MockCatalog.GeneratedAtParts | src/mocks/catalog.ts:86-94 | the product made at a class, subject and variant is the one at its counter position |
| MockCatalog.GeneratedStep | src/mocks/catalog.ts:85-107 | generating one more product extends those before it |
| MockCatalog.GeneratedUpToSnoc | src/mocks/catalog.ts:86-107 | the first `k + 1` generated products are the first `k` and the `k`-th |
| MockCatalog.IndexParts | src/mocks/catalog.ts:86-90 | the counter tells back its class, subject and variant |
| MockCatalog.GeneratedShape | src/mocks/catalog.ts:94-106 | every generated product is in stock, priced 195..255, on sale 15 off exactly when its variant is not the third, and in category `c1` |
| MockCatalog.Narrow | src/mocks/catalog.ts:167-192 | one filter step keeps exactly the products passing that filter when it is set, in order, and all otherwise |
| MockCatalog.ListProducts | src/mocks/catalog.ts:154-215 | the answer is the requested page of the matching products in sort order, with the page, size and total |
| MockCatalog.NarrowedStage | src/mocks/catalog.ts:166-192 | after the first `n` filters exactly the products passing all `n` remain, in catalog order |
| MockCatalog.NarrowedMatches | src/mocks/catalog.ts:166-192 | the six filters together keep exactly the matching products |
| MockCatalog.ListedMembers | src/mocks/catalog.ts:166-210 | exactly the matching products are listed |
| MockCatalog.ListedPermutation | src/mocks/catalog.ts:166-210 | each matching product is listed as often as it occurs in the catalog |
| MockCatalog.ComparatorPreorder | src/mocks/catalog.ts:194-210 | each comparator orders the products totally and transitively |
| MockCatalog.ListedSorted | src/mocks/catalog.ts:194-210 | the listing is in the order the sort key asks for |
| MockCatalog.DefaultListing | src/mocks/catalog.ts:154-165 | without filters everything is listed, newest first, twelve to a page, from page 1 |
| MockCatalog.FalseFlagsFilterNothing | src/mocks/catalog.ts:186-192 | `false` flags filter nothing, as absent ones |
| MockCatalog.NewestIsTextual | src/mocks/catalog.ts:206-208 | newest-first compares ids as text, so `p9` sorts before `p10` |
| MockCatalog.FindBySlug | src/mocks/catalog.ts:217-219 | a found product has the slug, and none is found exactly when no product has it |
| MockCatalog.FindBySlugFirst | src/mocks/catalog.ts:217-219 | the product found is the first with that slug |
| MockOrders.SeedOrders | src/mocks/orders.ts:6-68 | 24 orders are seeded, the `j`-th being order `j + 1` |
| MockOrders.SeedStep | src/mocks/orders.ts:8-19 | pushing order `i` extends the first `i - 1` |
| MockOrders.SeedStatusCensus | src/mocks/orders.ts:11-18 | orders 5, 10, 15, 20 are completed, 4, 8, 12, 16, 24 shipped, 3, 6, 9, 18, 21 processing, the other ten new, and none cancelled |
| MockOrders.SeedOrderConsistent | src/mocks/orders.ts:19-66 | each seeded order's grand total is items plus shipping, its items total is what its lines cost, it is paid exactly when completed, and a shipped one has a waybill |
| MockOrders.SeedItemsTotal | src/mocks/orders.ts:22-43 | the two seeded lines cost 250 per copy of the first plus 230 |
| MockOrders.SeedShippingDiffersFromRoute | src/mocks/orders.ts:54-58 | the seed charges 60 for shipping where the orders route would charge 80 |
| MockOrders.SeedPhone | src/mocks/orders.ts:46 | the phone is `+3805000` followed by the order index padded to four digits |
| MockOrders.LowerNumberListedFirst | src/mocks/orders.ts:10 | a lower-numbered seed order is created later, so it sorts first newest-first |
| MockOrders.ListOrders | src/mocks/orders.ts:77-99 | the answer is the requested page of the filtered orders newest first, with the total, page and size |
| MockOrders.ListedOrdersMembers | src/mocks/orders.ts:83-93 | an order is listed exactly when stored and passing the text and status filters |
| MockOrders.ListedOrdersPermutation | src/mocks/orders.ts:83-94 | each passing order is listed as often as stored |
| MockOrders.ListedOrdersNewestFirst | src/mocks/orders.ts:94 | the listing is newest first by `createdAt` text |
| MockOrders.DefaultOrderListing | src/mocks/orders.ts:77-82 | without filters every order is listed, twenty to a page, from page 1 |
| MockOrders.EmptyQueryFiltersNothing | src/mocks/orders.ts:84 | an empty query filters nothing, as an absent one |
| Middleware.LimitFor | src/middleware.ts:109-113 | the limit is 10 on the login route and 60 on every other API path |
| Middleware.ClientIp | src/middleware.ts:104-107 | the client address is `x-forwarded-for`, else `x-real-ip`, else `unknown`, never empty |
| Middleware.CspEvalOnlyInDev | src/middleware.ts:54-60 | `script-src` allows `'unsafe-eval'` exactly in development and always starts with the production directive |
| Middleware.NoEvalInBase | src/middleware.ts:60 | the production `script-src` never mentions `'unsafe-eval'` |
| Middleware.WindowStep | src/middleware.ts:115-139 | a missing or expired window restarts at 1, a full one refuses and stays, any other counts one more in the same window |
| Middleware.WindowStepValid | src/middleware.ts:117-139 | a stored count never passes 60, and a request is admitted into a live window only below its limit |
| Middleware.SharedCounter | src/middleware.ts:109-122 | the counter is shared by both path kinds: ten or more API requests in the window close the login route |
| Middleware.ReplayWithinWindow | src/middleware.ts:115-139 | within one window exactly `limit - count` more requests are admitted and the rest refused, and the window keeps its start |
| Middleware.RequestGate.constructor | src/middleware.ts:14-80 | no counters yet, and the security headers of the environment |
| Middleware.RequestGate.CountRequest | src/middleware.ts:115-139 | the request is admitted exactly when the window step admits it, and the counters change only by that step |
| Middleware.RequestGate.Handle | src/middleware.ts:31-143 | 401 exactly for a guarded admin path without the session cookie; 204 exactly for an API preflight otherwise; on other API requests 429 exactly when the window step refuses, with the retry headers first, and the counters move by that step alone; every answer carries the security and CORS headers |
| Middleware.RequestGate.Cleanup | src/middleware.ts:17-29 | the sweep keeps exactly the unexpired windows |
| Middleware.CleanupUnseen | src/middleware.ts:17-29 | the sweep forgets only windows that the next request would restart anyway |
| Logger.DefaultConfig | src/lib/logger.ts:32-38 | the minimum level is INFO in production and DEBUG otherwise, the console is on, remote logging is on exactly in production, and the endpoint comes from the environment |
| Logger.Configured | src/lib/logger.ts:66-68 | each field takes the patch's value when given and keeps its own otherwise |
| Logger.ConfiguredLaws | src/lib/logger.ts:66-68 | an empty patch changes nothing, a later level wins, and applying the same patch twice is applying it once |
| Logger.ConsoleLabel | src/lib/logger.ts:165-188 | each level has its label and console method, and any other value is `[UNKNOWN]` on `log` |
| Logger.ConsoleOutput | src/lib/logger.ts:162-201 | the line is `[LEVEL] TIMESTAMP - MESSAGE` on the level's method, with details exactly when there is a context or an error |
| Logger.Appended | src/lib/logger.ts:139-143 | the history never grows past 1000 and ends with the new entry |
| Logger.AppendAllKeepsLatest | src/lib/logger.ts:139-143 | the history is always the last 1000 entries of everything logged |
| Logger.SanitizeShape | src/lib/logger.ts:240-262 | the keys stay in order, a secret key's value is redacted, a nested object is sanitised, and any other value is copied |
| Logger.SanitizedHasNoSecrets | src/lib/logger.ts:240-262 | a sanitised object holds no secret at any depth |
| Logger.SanitizeIdempotent | src/lib/logger.ts:240-262 | sanitising twice is sanitising once |
| Logger.SanitizeData | src/lib/logger.ts:240-262 | the loop builds the sanitised object |
| Logger.SafeEntry | src/lib/logger.ts:206-221 | the sent entry has a context exactly when the logged one has, and it holds no secret |
| Logger.Logger.constructor | src/lib/logger.ts:49-51 | the logger starts with the given configuration and an empty history |
| Logger.Logger.Configure | src/lib/logger.ts:66-68 | the configuration is patched and the history kept |
| Logger.Logger.GetHistory | src/lib/logger.ts:105-107 | the copy equals the history |
| Logger.Logger.ClearHistory | src/lib/logger.ts:112-114 | the history is empty and the configuration kept |
| Logger.Logger.Log | src/lib/logger.ts:119-157 | below the minimum level nothing happens; otherwise the entry is appended to the history, printed when the console is on, and sent, sanitised, exactly when remote logging is on with an endpoint |
| ClientLogger.GetLevelValue | src/lib/client-logger.ts:171-184 | each level name, in any case, maps to its level, and an unknown one counts as INFO |
| ClientLogger.Flush | src/lib/client-logger.ts:119-144 | an empty queue changes nothing; otherwise one payload is posted after the earlier ones, the queue empties and the timer is cleared |
| ClientLogger.UnpackedSnoc | src/lib/client-logger.ts:138 | a single entry is posted alone and several as an array |
| ClientLogger.FlushKeepsEntries | src/lib/client-logger.ts:119-144 | sending loses nothing: posted entries followed by waiting ones are unchanged |
| ClientLogger.LogStepKeepsEntries | src/lib/client-logger.ts:72-114 | an admitted entry joins the end of everything logged, in order, and a filtered one changes nothing |
| ClientLogger.FlushValid | src/lib/client-logger.ts:119-144 | after sending, the timer runs exactly when entries wait and the queue is below the batch size |
| ClientLogger.LogStepValid | src/lib/client-logger.ts:72-114 | logging keeps that invariant |
| ClientLogger.ErrorSentAtOnce | src/lib/client-logger.ts:108-109 | an admitted error is sent at once with everything that waited before it |
| ClientLogger.FilteredIgnored | src/lib/client-logger.ts:79-82 | an entry below the minimum level leaves no trace |
| ClientLogger.FullBatchSent | src/lib/client-logger.ts:105-109 | the entry that fills the queue sends exactly one batch of `batchSize` entries |
| ClientLogger.ClientLogger.constructor | src/lib/client-logger.ts:16-25 | the settings given, an empty queue, no timer and nothing sent |
| ClientLogger.ClientLogger.Default | src/lib/client-logger.ts:16-25 | the defaults `/api/log`, INFO, 10 and 5000 ms |
| ClientLogger.ClientLogger.FlushLogs | src/lib/client-logger.ts:119-144 | the state after `flushLogs` |
| ClientLogger.ClientLogger.Log | src/lib/client-logger.ts:72-114 | the state after one log call, which keeps the invariant |
| ClientLogger.ClientLogger.TimerFires | src/lib/client-logger.ts:112 | a running timer sends the waiting entries as one payload and empties the queue |
| ClientLogger.ClientLogger.HandleGlobalError | src/lib/client-logger.ts:149-155 | an uncaught error is logged at error level with its file, line and column |
| ClientLogger.ClientLogger.HandlePromiseRejection | src/lib/client-logger.ts:160-166 | a rejection is logged at error level, a reason that is not an `Error` wrapped in one |
| ErrorHandler.TypeNameInjective | src/lib/error-handler.ts:6-16 | no two error types share a string value |
| ErrorHandler.NewAppError | src/lib/error-handler.ts:21-46 | an error takes the type INTERNAL and the status 500 when not given, and keeps the rest |
| ErrorHandler.ToAppError | src/lib/error-handler.ts:63-82 | an `AppError` is kept; an `Error`, a string or anything else becomes an internal 500 with its message, the string or `An unknown error occurred` |
| ErrorHandler.Put | src/lib/error-handler.ts:85-90 | after the assignment the key reads the new value and every other key reads as before |
| ErrorHandler.Spread | src/lib/error-handler.ts:85-90 | each key reads the second object's value when it has one and the first's otherwise |
| ErrorHandler.LoggedCall | src/lib/error-handler.ts:84-90 | the log message is `API Error: ` and the message, and the context holds the type and status unless the request information overrides them |
| ErrorHandler.HandleApiError | src/lib/error-handler.ts:54-105 | the answer has the normalised error's status, message and type, a stack exactly outside production when there is an original error, and the error is logged |
| ErrorHandler.CreateValidationError | src/lib/error-handler.ts:113-118 | a validation error with status 400 |
| ErrorHandler.CreateNotFoundError | src/lib/error-handler.ts:126-131 | a not-found error with status 404 |
| ErrorHandler.CreateAuthenticationError | src/lib/error-handler.ts:139-144 | an authentication error with status 401 |
| ErrorHandler.CreateAuthorizationError | src/lib/error-handler.ts:152-157 | an authorization error with status 403 |
| ErrorHandler.AppErrorAnswered | src/lib/error-handler.ts:54-105 | a thrown `AppError` without an original error is answered with its own status, message and type and no stack |
| ErrorHandler.ForeignErrorsAreInternal | src/lib/error-handler.ts:63-82 | anything not an `AppError` is answered as an internal error with 500 |
| ErrorHandler.NoStackInProduction | src/lib/error-handler.ts:93-104 | in production no stack leaves the server |
| DeliveryCostRoute.SenderCityRef | src/app/api/novaposhta/delivery-cost/route.ts:5-7 | the sender city is never empty: the variable when set and non-empty, the fixed default otherwise |
| DeliveryCostRoute.WeightParam | src/app/api/novaposhta/delivery-cost/route.ts:12 | a missing or empty weight counts as 1 |
| DeliveryCostRoute.CarrierRequest | src/app/api/novaposhta/delivery-cost/route.ts:15-45 | the carrier is asked exactly below the free threshold with a key and a city, with the key, the non-empty sender city, the recipient city, the weight and the cost |
| DeliveryCostRoute.AnswerFollowsRequest | src/app/api/novaposhta/delivery-cost/route.ts:15-59 | with a request the answer is the carrier's price; without one it does not depend on the carrier's reply and is 0 when free and 70 otherwise |
| DeliveryCostRoute.CostParam | src/app/api/novaposhta/delivery-cost/route.ts:13 | a missing or empty cost counts as 0 |
| DeliveryCostRoute.CarrierPrice | src/app/api/novaposhta/delivery-cost/route.ts:48-59 | the carrier's non-zero price is used, and 70 otherwise |
| DeliveryCostRoute.DeliveryCost | src/app/api/novaposhta/delivery-cost/route.ts:9-60 | 0 from an order value of 1500; below it 70 without a key or a city, and the carrier's price otherwise |
| DeliveryCostRoute.DeliveryCostNonNegative | src/app/api/novaposhta/delivery-cost/route.ts:16-59 | the answer is never negative when the carrier's price is not |
| DeliveryCostRoute.BelowThresholdCharged | src/app/api/novaposhta/delivery-cost/route.ts:16-59 | below 1500 the answer is 70 or the carrier's non-zero price, and 70 whenever the carrier failed |
| DeliveryCostRoute.FreeExactlyFromThreshold | src/app/api/novaposhta/delivery-cost/route.ts:16-59 | delivery is free exactly when the order value reaches 1500 |
| NovaPoshtaService.SearchCities | src/services/novaposhta.ts:55-81 | a request is made exactly for a query of two characters or more, and a failed one gives an empty list |
| NovaPoshtaService.GetWarehouses | src/services/novaposhta.ts:87-111 | a request is made exactly for a non-empty city, and a failed one gives an empty list |
| NovaPoshtaService.CalculateDeliveryCost | src/services/novaposhta.ts:117-143 | the route's cost, or 70 when the request fails |
| NovaPoshtaService.SearchWarehouses | src/services/novaposhta.ts:148-163 | an empty query gives all the city's warehouses; otherwise exactly those whose description holds it ignoring case or whose number holds it |
| NovaPoshtaService.SearchKeepsOrder | src/services/novaposhta.ts:148-163 | the result keeps the loaded order and is never longer |
| NovaPoshtaService.NarrowingQuery | src/services/novaposhta.ts:148-163 | typing more keeps only warehouses the shorter query showed, in order |
| NovaPoshtaService.NumberFound | src/services/novaposhta.ts:148-163 | a warehouse is found by its own number |
| NovaPoshtaService.FreeDeliveryEndToEnd | src/services/novaposhta.ts:117-143 | an order of at least 1500 costs nothing when the route answers |
| RangeSlider.Clamp | src/components/uikit/range-slider/RangeSlider.tsx:17-18 | the clamped value lies in the range and a value inside it is kept |
| RangeSlider.HandleLow | src/components/uikit/range-slider/RangeSlider.tsx:22-26 | the low thumb emits the raw value capped at the high end, and the high end passes through |
| RangeSlider.HandleHigh | src/components/uikit/range-slider/RangeSlider.tsx:27-31 | the high thumb emits the raw value raised to the low end, and the low end passes through |
| RangeSlider.Labels | src/components/uikit/range-slider/RangeSlider.tsx:79-80 | an empty end shows the range end, a set one its thumb position |
| RangeSlider.ClampMonotone | src/components/uikit/range-slider/RangeSlider.tsx:17-18 | clamping keeps order |
| RangeSlider.MovesKeepOrder | src/components/uikit/range-slider/RangeSlider.tsx:17-31 | after either thumb moves the low end shows at or below the high end, both in the range |
| RangeSlider.MoveInPlace | src/components/uikit/range-slider/RangeSlider.tsx:17-31 | moving a thumb onto its own position changes nothing shown |
| RangeSlider.LabelsMatchThumbs | src/components/uikit/range-slider/RangeSlider.tsx:17-18 | the labels equal the thumb positions in a well-formed range |
| AutoCategorize.GradeByAttribute | scripts/auto-categorize.ts:146-191 | a numeric class attribute from 1 to 4, 5 to 9 or 10 to 11 puts the product in that grade band on its own |
| AutoCategorize.SeniorTitleNotPrimary | scripts/auto-categorize.ts:157 | in `11 клас` the second `1` is not at a word boundary, so the title does not name the primary band |
| AutoCategorize.TallyCounts | scripts/auto-categorize.ts:246-268 | a category's count is the number of products it accepts |
| AutoCategorize.SamplesStep | scripts/auto-categorize.ts:256-258 | one more product keeps the samples equal to the first accepted titles up to the cap |
| AutoCategorize.SamplesAreFirstMatches | scripts/auto-categorize.ts:256-266 | the samples are the titles of the first accepted products up to the cap, in product order |
| AutoCategorize.TallyStep | scripts/auto-categorize.ts:246-268 | one more product adds one to the count and possibly its title to the samples exactly when accepted |
| AutoCategorize.TallyProduct | scripts/auto-categorize.ts:247-261 | for one product every accepting category counts one more and may take its title, and the product has a category exactly when one accepts it |
| AutoCategorize.Analyze | scripts/auto-categorize.ts:234-268 | the counts and samples are those of the analysis over all products |
| AutoCategorize.CountedInEveryMatch | scripts/auto-categorize.ts:246-268 | a product counts once in every category that accepts it and as uncategorised exactly when none does |
| AutoCategorize.CategoryMapOf | scripts/auto-categorize.ts:207-229 | a category gets an id exactly when it exists or it is not a dry run, the existing id when there is one and the new one otherwise |
| AutoCategorize.DryRunCreatesNothing | scripts/auto-categorize.ts:210-212 | a dry run creates nothing and maps only existing categories |
| AutoCategorize.BuildStep | scripts/auto-categorize.ts:207-229 | checking one definition adds at most its own id and its own category |
| AutoCategorize.BuildCategoryMap | scripts/auto-categorize.ts:203-229 | the loop builds the id map and the list of created categories described above |
| AutoCategorize.IdsStep | scripts/auto-categorize.ts:303-310 | one more definition appends its id exactly when it accepts the product and has an id |
| AutoCategorize.IdsInDefinitionOrder | scripts/auto-categorize.ts:301-310 | the ids written are those of the accepting categories that have an id, in definition order |
| AutoCategorize.IdsNonEmptyIff | scripts/auto-categorize.ts:301-312 | a product gets ids exactly when some accepting category has one |
| AutoCategorize.ProductCategoryIds | scripts/auto-categorize.ts:301-310 | the inner loop collects exactly those ids |
| AutoCategorize.Apply | scripts/auto-categorize.ts:298-323 | one write per product with ids, in product order, and the counter equals the number of writes |
| AutoCategorize.UpdatesIff | scripts/auto-categorize.ts:300-323 | never more writes than products, and an id is written exactly when a product with it has an accepting category with an id |
| AutoCategorize.DryRunFromArgv | scripts/auto-categorize.ts:348-349 | a dry run exactly when no argument is `--apply` |
| AutoCategorize.Run | scripts/auto-categorize.ts:194-345 | the analysis covers all products, creation happens only outside a dry run, and a dry run writes nothing |

## Findings

| source | as written | input that shows it | evidently intended | confidence | as-written member | corrected member |
|---|---|---|---|---|---|---|
| src/lib/models/Order.ts:77 | the provider enum is `fondy`, `liqpay`, `cod`, while the checkout page also offers `requisites` | a valid checkout form with payment method `requisites` and a cart whose lines pass: the save fails and the route answers 500 | the enum also admits `requisites`, so that both offered payment methods create an order | medium, not executed | Checkout.RequisitesNeverOrdered | Checkout.PageOrdersUnderIntendedSchema |

## Left out

- Filesystem access in the snapshot scripts (reading directories, `stat`, reading and writing files, creating the output folder, exiting) is left out. The model replaces it with an in-memory tree whose files carry a size and either their text or a read error.
- The snapshot header's timestamp and the console messages are left out; the timestamp is a parameter.
- The database is not modelled: connections, queries, aggregation pipelines, saves, updates and index creation. Each pipeline is stated by its meaning over a sequence of documents. The admin product and category saves are an input outcome. The order save is the Order schema's item rules, its two enums and its unique number, checked over the set of stored numbers.
- ObjectId validity and parsing are a predicate or function parameter.
- The network is not modelled: `fetch`, the HTTP helpers, the Nova Poshta cities and warehouses routes, the logger's remote send and the client logger's post. Their answers are inputs, and their requests are returned as values.
- Timers are not modelled: the cache and middleware `setInterval` sweeps, the client logger's `setTimeout` and the catalog page's debounce. Each sweep or firing is a method the caller invokes, and a running timer is a flag.
- Floating point is not modelled. Prices, costs, quantities and times are integers, the slider's percentages are dropped, and `Math.round` is the identity on them.
- `Number()` and `parseFloat` on text are read as an integer parser, and `None` stands for NaN. Fractional query values are not modelled.
- ProductsRoute.PagingBounds: the bounds hold for whole-number input only. In the source, `?page=abc` gives `Number("abc")`, NaN, and `Math.max(1, NaN)` stays NaN, so the page is then not at least 1. The same holds for `perPage`.
- ProductsRoute.Get: a `page`, `perPage`, `priceMin` or `priceMax` that is not a whole number is read as absent. In the source, a NaN page or size makes `$skip` or `$limit` NaN. The database refuses that stage, and the catch answers 500 where the model lists page 1 or 12 items. A NaN `priceMax` still pushes `$lte: [price, NaN]`, which no product meets in the aggregation order, so the listing is empty where the model drops the bound. A NaN `priceMin` is met by every product with a price, as the model's dropped bound is. On the early return for a bad category id, a NaN size is answered as `null` where the model answers 12. A NaN `year` is falsy and filters nothing in both.
- FacetsRoute.Get: a `priceMin` or `priceMax` that is not a whole number is read as absent. In the source, a NaN `priceMax` is still pushed as a bound, which no product meets, so the category counts are empty where the model counts without the bound. A NaN `priceMin` is met by every product with a price, as in the model.
- AdminOrdersRoute.Clamps: the clamps hold for whole-number input only. In the source, a `page` or `perPage` that is not a number gives `Math.max(1, NaN)`, which is NaN, and not page 1 or size 20.
- AdminOrdersRoute.Get: a `page` or `perPage` that is not a whole number is read as the default. In the source, the query is sent with a NaN `skip` or `limit`. If the database refuses it, the uncaught error answers 500; if it does not, the reply's `page` or `perPage` is `null`. Either way the model's listing of page 1 or size 20 differs from it.
- AdminProductsRoute.AdminPaging: the bounds and defaults hold for whole-number input only. In the source, a `page` or `perPage` that is not a number is NaN, and not 1 or 20.
- AdminProductsRoute.Get: a `page` or `perPage` that is not a whole number is read as the default. In the source, the `$skip` or `$limit` stage is then NaN, the database refuses the aggregation, and the uncaught error answers 500. Non-numeric price bounds are modelled: a NaN bound is met by no product.
- CatalogClient.CatalogPage.Hydrate: `CatalogClient.GetNum` reads a non-numeric value (`?page=abc`) as missing. The page then becomes 1 and a price bound keeps its old value. In the source, `Number` yields NaN, which `??` and `!= null` let through, so the page or the bound becomes NaN. The state holds only integers, so that NaN state is not modelled.
- Cart.CartStore: the zustand `persist` wrapper, which stores the lines in `localStorage` under the key `cart` and rehydrates them on a reload, is not modelled. The store starts empty with each constructor.
- Cart.ClampQty: the `Math.floor(qty || 0)` of `setQty` is taken on an integer, so the NaN case is not modelled.
- `toLowerCase` and Python's `lower`/`isupper` cover ASCII and the basic Cyrillic block (with Ґ/ґ) only; the rest of Unicode case mapping is not modelled.
- `localeCompare` is read as code-point order of the strings.
- SnapshotDoc.SortedFiles and Cache.CacheKey: `files.sort()` and `Object.keys(params).sort()` compare UTF-16 code units, and the model compares code points. The two orders differ only between characters above U+FFFF and those from U+E000 to U+FFFF.
- `JSON.stringify` and URL percent-encoding are parameters and are not modelled.
- The regular-expression tests of the admin routes (a user pattern with flag `i`) are a parameter. That includes the unescaped user pattern of the admin product search.
- AdminProductsRoute.Get and AdminOrdersRoute.Get: the pattern test `rx` is a total predicate. A user pattern that is not a valid regular expression makes the source's query throw and the route answer 500, and the model does not capture that.
- Cache.MemoryCache.GetOrSet: one `now` serves both the lookup and the store. The source's `set` reads `Date.now()` again after `await factory()`, so the expiry is counted from the later time. A factory that throws, leaving the cache unchanged, is not modelled either.
- SnapshotDoc.MainPy: the model covers these `argparse` behaviours: help flags and their abbreviations, `-h` glued to other characters, the long help flag with `=value`, unknown options, negative numbers and words with spaces, `--`, and a third positional. A second `--`, non-ASCII digits in negative numbers and the help text itself are not modelled.
- The auto-categorisation matchers' regular expressions are written out as character predicates over the lower-cased title and subject. Their case-insensitivity reaches only the characters that `Lower` maps.
- A JavaScript object used as a dictionary (log contexts, cart records, count tables) is a list of key/value pairs in insertion order. Headers are a list of pairs as well.
- The auto-categorisation script's categories are keyed by their position in the definition list. Their slugs are unique, so this is the same key.
- `generateOrderNumber` (random digits and the date) is left out; the order number is the parameter `number`. Order timestamps and new ObjectIds are left out too.
- The checkout page sends lines with title, price and image, but the order route reads only `productId` and `qty`. The model passes only those two on.
- The server logger's singleton `getInstance` and the `debug`/`info`/`warn`/`error` wrappers of both loggers are left out. They only forward to `log` with a fixed level, and `Log` is modelled.
- ClientLogger.ClientEntry: the page URL and user agent that the client logger spreads into each entry's context are kept as two separate fields of the entry.
- Cart.CartStore.Count and Cart.CartStore.Subtotal are plain folds without their own contract. What they promise is stated by the lemmas about them (SumsUpsert, SumsWithout, AddCount, SetQtyCount, ClearedIsEmpty, CountAtLeastLines).
- Rendering, routing, SWR fetching and the other UI components (everything but the range slider's clamps) are not part of this model.
- The slider's active-thumb state and track geometry are not part of this model.
- Python's recursive glob in `collect_files` ignores `max_depth`, and the model keeps that. The Python collector's result has no depth bound.
- Zod environment validation, Cloudinary uploads, the log and error glue routes, the admin HTTP wrappers and the type-only files have no logic of their own to model. The types shape the datatypes.
