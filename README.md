# ShopperSage recommendation core in Dafny

This project models the recommendation engine of ShopperSage, an embeddable Shopify
shopping assistant. It also models the in-memory product store the engine reads and the
API-key guard in front of the recommendation endpoints.

- **Engine** (`engine.dfy`). A request is answered by a cascade of three strategies.
  - The user strategy uses the user's purchase history, falling back to the browsed products.
  - The product strategy uses the relationship graph, an optional `"min-max"` price window, then same-category broadening.
  - The popularity strategy is the fallback.
  - Each strategy deduplicates its candidates by internal id, keeps the number still wanted, and labels each item with a type (cross-sell or up-sell) and a reason. The cascade concatenates the three lists.
  - Each strategy is a specification function over a store `Snapshot`: `UserBased`, `ProductBased`, `General`, composed by `Cascade` / `Recommend`. The methods named after the source's methods build the lists step by step, as the source does, and are proved equal to those functions. The lemmas state the promised properties of the functions.
- **Store** (`storage.dfy`). `MemStorage` is a class with four tables (sequences in insertion order) and four id counters.
  - Its create and update methods are proved to perform the transitions `AddUser`, `AddApiKey`, `AddProduct`, `AddRelationship` and `PatchProduct` on its state, and to keep the invariant `Valid()`: counters at least 1, ids strictly increasing and below the counter.
  - Its lookups are functions of a snapshot. The relationship walk is a loop method.
- **Auth** (`auth.dfy`). `apiKeyAuth` is a pure function from the `Authorization` header and the store to an outcome: proceed, or an error status with one of four codes.
- **Supporting modules**:
  - `wrappers.dfy`: `Option` / `Result`.
  - `schema.dfy`: the records of `shared/schema.ts`.
  - `seqs.dfy`: `slice`, `filter`, `find`.
  - `js_text.dfy`: `split`, `trim`, `parseInt`, `startsWith`.
  - `product_lists.dfy`: dedup by id, the stable sort by price, and a shuffle driven by given choices.

Modelling conventions:

- Prices are integer cents. The source's `price * 0.7`, `* 1.3` and `* 1.2` comparisons are integer cross-multiplications: `10p >= 7s`, `10p <= 13s`, `10p >= 12s`.
- A store that throws is `Backend.Offline`; every call to it fails, so a request with a user id fails at its first call, the user lookup in `getRecommendations`. The user strategy's graph lookups are uncaught too, but in this model they are never reached with a failing store. The product and popularity strategies catch the failure and give `[]`.
- What a request sees outside the store is an `Env`:
  - the Shopify catalog (an id missing from it is a fetch that throws);
  - the shop name;
  - the clock;
  - the random choices of the shuffle.
- The `priceRange` of a request is ignored by the cascade, as in the source. Only `getUpSellRecommendations` passes it on.

## Model

| member | source | states |
|---|---|---|
| Engine.WithDefaults | server/recommendation/engine.ts:11 | an absent type becomes 'both' and an absent limit 3; supplied values and the other parameters pass through |
| Engine.ConvertShopifyProduct | server/recommendation/engine.ts:392-407 | conversion fails exactly when the variants or images array is missing; otherwise the external id is kept and the tags are the trimmed comma-separated parts |
| Engine.TagsRoundTrip | server/recommendation/engine.ts:405 | comma-free, untrimmable tags joined with ',' are split back into the same list |
| Engine.ConvertUsesFirstOnly | server/recommendation/engine.ts:393-394 | variants and images after the first do not affect the converted product |
| Engine.ConvertFirstVariant | server/recommendation/engine.ts:393-407 | price, compare-at price and inventory (absent counts as 0) come from the first variant; the image URL is the first image's src or '' |
| Engine.ConvertWithoutVariants | server/recommendation/engine.ts:393-407 | empty variant/image arrays give price 0, no compare-at price, inventory 0, image '' |
| Engine.Select | server/recommendation/engine.ts:116-127 | the selected candidates number at most limit |
| Engine.SelectSpec | server/recommendation/engine.ts:116-127 | the selection has distinct internal ids, holds only candidates, is a prefix of the first-occurrence dedup, and is cut short only by limit |
| Engine.RelatedOfAllStored | server/recommendation/engine.ts:109-113 | every product gathered from the history is stored and related to one of the history ids |
| Engine.UserBased | server/recommendation/engine.ts:95-185 | the user strategy returns at most limit items |
| Engine.UserBasedLabels | server/recommendation/engine.ts:133-174 | items carry the requested type; under 'both' up-sell exactly when price > 10000 |
| Engine.UserSourceSelection | server/recommendation/engine.ts:101-184 | a non-empty purchase history is used alone (first 10 ids, purchase reason) even when it yields nothing; otherwise the first 5 browsed ids (viewed reason); otherwise [] |
| Engine.UserItemsFromHistory | server/recommendation/engine.ts:105-135 | the chosen products are distinct stored products, formatted one item each in order with the external id |
| Engine.PriceWindow | server/recommendation/engine.ts:233-236 | a window exists exactly for a non-empty range, a type other than cross-sell, and a range whose first two '-'-parts parse |
| Engine.ParseRange | server/recommendation/engine.ts:234 | a window needs a '-' in the range, and both its bounds are whole currency units (multiples of 100 cents) |
| Engine.RangeOfParts | server/recommendation/engine.ts:234 | a window exists exactly when there are two parts and both parse as integers; its bounds are multiples of 100 cents |
| Engine.ParseRangeOfParts | server/recommendation/engine.ts:234 | "x-y" with dash-free x and y is read from exactly the parts x and y |
| Engine.RangeOfNumbers | server/recommendation/engine.ts:234 | the parts of two decimal numerals give the window of those numbers in cents |
| Engine.ApplyWindowSpec | server/recommendation/engine.ts:236-240 | without a window the candidates are unchanged; with one exactly those priced within it, inclusive, are kept |
| Engine.CategoryPickSpec | server/recommendation/engine.ts:257-278 | cross-sell keeps exactly 70%-130% of the source price; up-sell keeps exactly 120% or more, sorted ascending, as a permutation of the filtered list; both keeps all |
| Engine.SimilarPriceFilter | server/recommendation/engine.ts:258-263 | the cross-sell filter keeps exactly the additions priced from 70% to 130% of the source, both ends included |
| Engine.UpgradePriceFilter | server/recommendation/engine.ts:268-271 | the up-sell filter keeps exactly the additions priced at 120% of the source or more |
| Engine.BroadeningSpec | server/recommendation/engine.ts:244-253 | category additions are stored products of the source's category ('' when it has none), never the requested id |
| Engine.ProductBased | server/recommendation/engine.ts:190-318 | the product strategy returns at most limit items |
| Engine.ProductBasedLabels | server/recommendation/engine.ts:292-309 | items carry the requested type; cross-sell reason "Frequently bought together", up-sell "Upgrade option" |
| Engine.ProductLabelsFound | server/recommendation/engine.ts:298-309 | with a stored source under 'both': the store is unchanged, and an item is an up-sell "Upgrade option" exactly when dearer than the source, else a cross-sell "Customers also bought" |
| Engine.ProductItemsWithSource | server/recommendation/engine.ts:292-309 | under 'both' with a source price, an item dearer than the source is an up-sell "Upgrade option" and any other a cross-sell "Customers also bought" |
| Engine.ProductItemsWithoutSource | server/recommendation/engine.ts:292-309 | under 'both' with no source price (the comparison with undefined is false), every item is a cross-sell "Customers also bought" |
| Engine.ReasonByType | server/recommendation/engine.ts:292-300 | cross-sell gives "Frequently bought together"; otherwise the reason is "Upgrade option" exactly when the item is labelled up-sell, and "Customers also bought" when it is not |
| Engine.MissingSource | server/recommendation/engine.ts:198-210 | a product neither stored nor fetchable and convertible gives [] and leaves the store unchanged |
| Engine.LazyIngest | server/recommendation/engine.ts:200-309 | a fetched product is stored as a new product; no broadening follows; under 'both' every item is a cross-sell "Customers also bought" |
| Engine.ProductCandidatesShape | server/recommendation/engine.ts:214-279 | the filtered graph neighbours come first; category additions follow only when they were fewer than limit and the source was stored, and the price range never touches them |
| Engine.ParseRangeOfNumbers | server/recommendation/engine.ts:234 | "lo-hi" with whole numbers is the window [100 lo, 100 hi] cents |
| Engine.ParseRangeExample | server/recommendation/engine.ts:234-236 | "120-300" is the window 12000..30000 |
| Engine.ParseRangeRejects | server/recommendation/engine.ts:234-236 | "abc" and "120" give no window |
| Engine.ParseRangeFirstTwoParts | server/recommendation/engine.ts:234 | only the first two '-'-parts count: "a-b-c" reads as "a-b" |
| Engine.CrossSellScenario | server/recommendation/engine.ts:257-265 | source 10000, category prices 6900/7000/13000/20000/30000: cross-sell keeps exactly the 7000 and 13000 boundaries |
| Engine.UpSellScenario | server/recommendation/engine.ts:266-274 | the same products for up-sell: 13000, 20000, 30000 in ascending order |
| Engine.General | server/recommendation/engine.ts:323-385 | the popularity strategy returns at most limit items |
| Engine.GeneralLabels | server/recommendation/engine.ts:369-379 | items carry the requested type; under 'both' up-sell exactly when price >= 10000; reason "Popular premium item" exactly when price >= 10000, else "Popular item" |
| Engine.CheapTier | server/recommendation/engine.ts:335-341 | for cross-sell and both, the first block is a permutation of the pool's products under 10000 |
| Engine.PremiumTier | server/recommendation/engine.ts:343-349 | for up-sell and both, the second block is a permutation of the pool's products at 10000 or more, sorted descending |
| Engine.TiersOfCandidates | server/recommendation/engine.ts:331-355 | the candidates are the cheap block, then the premium block, then the whole pool when those were fewer than limit |
| Engine.GeneralFromPool | server/recommendation/engine.ts:329-355 | every popularity candidate is a product of the pool |
| Engine.GeneralItemsFromStore | server/recommendation/engine.ts:329-377 | the chosen products are distinct and among the first 30 stored products |
| Engine.UserStage | server/recommendation/engine.ts:16-51 | for histories without null entries: the user stage fails exactly when a user id is given and the store fails; otherwise at most limit items |
| Engine.ProductStage | server/recommendation/engine.ts:190-317 | at most limit items, all of a type the request allows; a failing store gives [] and no change |
| Engine.GeneralStage | server/recommendation/engine.ts:323-384 | at most limit items; a failing store gives [] |
| Engine.ProductStep | server/recommendation/engine.ts:24-31 | earlier items stay a prefix; the bound and the item types are kept; nothing runs without a product id or once limit is reached |
| Engine.GeneralStep | server/recommendation/engine.ts:34-41 | earlier items stay a prefix; the bound is kept; nothing runs once limit is reached |
| Engine.Cascade | server/recommendation/engine.ts:10-52 | at most limit items; for histories without null entries, fails exactly when a user id is given and the store fails |
| Engine.Recommend | server/recommendation/engine.ts:10-52 | `getRecommendations` on a request: at most limit items; for histories without null entries, fails exactly on a user id with a failing store |
| Engine.RecommendLabels | server/recommendation/engine.ts:10-52 | every response item is cross-sell or up-sell, and the requested type unless that is 'both' |
| Engine.CascadePrefixes | server/recommendation/engine.ts:16-41 | the response succeeds once the user stage has; the user items and the user-plus-product items are prefixes of it, so earlier items are never removed |
| Engine.CascadeFilledByUser | server/recommendation/engine.ts:16-41 | user items that fill the limit are the whole response and the store is untouched |
| Engine.CascadeResponse | server/recommendation/engine.ts:16-51 | once the user stage succeeds, the response is the popularity step applied to the product step's items and store |
| Engine.CascadeProductStep | server/recommendation/engine.ts:23-31 | no product id leaves the store untouched; otherwise, while short of the limit, the product items for the remaining room follow the user items, with no deduplication across the two |
| Engine.CascadeGeneralStep | server/recommendation/engine.ts:33-43 | while short of the limit the popular items for the remaining room follow the earlier items, with no deduplication across stages; otherwise the response is the earlier items |
| Engine.PriceRangeNotForwarded | server/recommendation/engine.ts:25-29 | the response does not depend on the request's price range |
| Engine.OfflineOutcome | server/recommendation/engine.ts:10-52 | with a failing store, a request with a user id fails and any other gives [] |
| Engine.GetUserBasedRecommendations | server/recommendation/engine.ts:95-185 | builds exactly the user strategy's items |
| Engine.GetProductBasedRecommendations | server/recommendation/engine.ts:190-318 | builds exactly the product stage's items and resulting store |
| Engine.GetGeneralRecommendations | server/recommendation/engine.ts:323-385 | builds exactly the popularity stage's items |
| Engine.GetRecommendations | server/recommendation/engine.ts:10-52 | applies the defaults of `WithDefaults` and ends with exactly `Recommend` of the defaulted request |
| Engine.RecommendFor | server/recommendation/engine.ts:12-51 | reassigns the response stage by stage and ends with exactly `Recommend` |
| Engine.GetCrossSellRecommendations | server/recommendation/engine.ts:57-71 | succeeds with at most limit cross-sell items, all "Frequently bought together" |
| Engine.GetUpSellRecommendations | server/recommendation/engine.ts:76-90 | passes the price range on; succeeds with at most limit up-sell items, all "Upgrade option" |
| ProductLists.DedupIds | server/recommendation/engine.ts:116-124 | dedup keeps exactly the set of ids of its input |
| ProductLists.DedupDistinct | server/recommendation/engine.ts:282-289 | dedup's result has pairwise distinct ids |
| ProductLists.DedupKeepsFirsts | server/recommendation/engine.ts:360-368 | each kept product is the first product of its id in the input |
| ProductLists.DedupInFirstOrder | server/recommendation/engine.ts:360-368 | the kept products appear in the order of their ids' first occurrences |
| ProductLists.FirstPositionsAreFirst | server/recommendation/engine.ts:360-368 | the first-occurrence positions increase, and no earlier element shares the id at such a position |
| ProductLists.DedupAtFirstPositions | server/recommendation/engine.ts:360-368 | the dedup result is the input read at the first-occurrence positions of its ids |
| ProductLists.DedupFromInput | server/recommendation/engine.ts:283-289 | dedup keeps only input products |
| ProductLists.DedupOfDistinct | server/recommendation/engine.ts:283-289 | a list with distinct ids is left as it is |
| ProductLists.DedupById | server/recommendation/engine.ts:282-289 | the one-pass seen-set filter computes `Dedup` |
| ProductLists.SortByPrice | server/recommendation/engine.ts:272-347 | the sort gives a list ordered by price in the direction asked and is a permutation of its input |
| ProductLists.SortByPriceOfSorted | server/recommendation/engine.ts:272 | the (stable) sort leaves an already ordered list unchanged |
| ProductLists.SortByPriceStable | server/recommendation/engine.ts:270-272 | the sort is stable: the products of any one price appear in the same order as in the input |
| ProductLists.Shuffle | server/recommendation/engine.ts:339 | the shuffle is a permutation of its input |
| Storage.GetUser | server/storage.ts:56-58 | the user with that id, or none |
| Storage.GetUserByUsername | server/storage.ts:60-64 | the earliest-inserted user with that username, or none exactly when there is none |
| Storage.GetUserByShopifyId | server/storage.ts:66-70 | the earliest-inserted user with that external id, or none exactly when there is none |
| Storage.GetApiKeys | server/storage.ts:87-89 | every key record, in insertion order |
| Storage.GetApiKeyByKey | server/storage.ts:91-95 | the earliest-inserted key record with that key text, or none exactly when there is none |
| Storage.GetProduct | server/storage.ts:139-177 | `products.get(id)`: the product with that id, or none |
| Storage.GetProductHasId | server/storage.ts:139 | a product found by id carries that id |
| Storage.GetProductByShopifyId | server/storage.ts:119-123 | the earliest-inserted product with that external id, or none exactly when there is none |
| Storage.GetProducts | server/storage.ts:109-111 | the first limit products in insertion order |
| Storage.GetProductsByCategory | server/storage.ts:113-117 | the first limit products whose category is exactly the given one, in insertion order |
| Storage.RelatedProducts | server/storage.ts:157-184 | an unknown source gives []; otherwise at most one stored product per matching edge |
| Storage.RelatedMembers | server/storage.ts:157-184 | for a stored source, a product is related exactly when some matching edge leaving the source points at it and it is stored |
| Storage.TargetsMembers | server/storage.ts:175-181 | a product is collected exactly when some edge points at it; an edge to a missing product contributes nothing |
| Storage.TargetsOfEdge | server/storage.ts:175-181 | one edge gives its stored related product, or nothing when that product is missing |
| Storage.TargetsAppend | server/storage.ts:175-181 | the edges are walked in order: the result for two runs of edges is the two results concatenated |
| Storage.TargetsComplete | server/storage.ts:175-181 | when every edge points at a stored product, the i-th result is the i-th edge's product |
| Storage.EdgesFromSelection | server/storage.ts:166-172 | 'both' follows every edge leaving the source; any other type only the edges of that type |
| Storage.EmptyIsWellFormed | server/storage.ts:43-52 | the initial store satisfies the invariant |
| Storage.AddUserFootprint | server/storage.ts:72-83 | the new user takes the counter as id, above every existing id; exactly one entry is appended; other ids and tables are unchanged; the invariant is kept |
| Storage.AddApiKeyFootprint | server/storage.ts:97-105 | fresh id from the counter, one entry appended, nothing else changed, invariant kept |
| Storage.AddProductFootprint | server/storage.ts:125-136 | fresh id from the counter, one entry appended, other ids and tables unchanged, invariant kept |
| Storage.AddRelationshipFootprint | server/storage.ts:186-196 | fresh id from the counter, one edge appended, nothing else changed, invariant kept |
| Storage.AddProductIdsIncrease | server/storage.ts:126 | ids handed out by successive creations strictly increase |
| Storage.PatchProductSpec | server/storage.ts:138-153 | an unknown id is an error; otherwise exactly that product is replaced in place, keeping id and creation time, with the patched columns and the new update time |
| Storage.MemStorage.constructor | server/storage.ts:43-52 | empty tables and all counters at 1 |
| Storage.MemStorage.CreateUser | server/storage.ts:72-83 | the state becomes `AddUser` of the old state; the invariant is kept |
| Storage.MemStorage.CreateApiKey | server/storage.ts:97-105 | the state becomes `AddApiKey` of the old state; the invariant is kept |
| Storage.MemStorage.CreateProduct | server/storage.ts:125-136 | the state becomes `AddProduct` of the old state; the invariant is kept |
| Storage.MemStorage.CreateProductRelationship | server/storage.ts:186-196 | the state becomes `AddRelationship` of the old state; the invariant is kept |
| Storage.MemStorage.UpdateProduct | server/storage.ts:138-153 | an unknown id throws and leaves the state unchanged; otherwise the state and result are `PatchProduct`'s |
| Storage.MemStorage.GetRelatedProductsByShopifyId | server/storage.ts:157-184 | the edge loop computes `RelatedProducts` |
| Auth.BearerToken | server/middleware/auth.ts:20 | the second space-separated piece of a bearer header exists and holds no space |
| Auth.ApiKeyAuth | server/middleware/auth.ts:7-59 | a rejection is 500 exactly for `AUTH_ERROR`, else 401 |
| Auth.BearerTokenIsFirstWord | server/middleware/auth.ts:20-28 | the token is the text after "Bearer " up to the next space, so "Bearer " and a double space give the empty token |
| Auth.BearerTokenOfKey | server/middleware/auth.ts:20 | "Bearer k" with a space-free k gives k |
| Auth.ProceedIff | server/middleware/auth.ts:12-50 | the request proceeds exactly when the header is well formed, the token is non-empty, the store answers, and the key is found with `active` true |
| Auth.NoKeyWithoutLookup | server/middleware/auth.ts:12-28 | a missing or malformed header or an empty token gives 401 `AUTH_NO_API_KEY` whatever the store, even a failing one |
| Auth.KeyTableOutcome | server/middleware/auth.ts:31-50 | an unknown key gives 401 `AUTH_INVALID_API_KEY`; a known key whose `active` is not true (false or omitted) 401 `AUTH_INACTIVE_API_KEY`; a known active one proceeds |
| Auth.OmittedActiveIsInactive | server/middleware/auth.ts:41-47 | a key created without `active` is found and rejected with 401 `AUTH_INACTIVE_API_KEY` |
| Auth.ErrorOnlyFromStoreFailure | server/middleware/auth.ts:31-57 | `AUTH_ERROR` arises exactly from a failing lookup of a non-empty token |
| Auth.CodeNamesDistinct | server/middleware/auth.ts:16-56 | the four error codes are distinct strings |

## Left out

- `console.error` logging, `res.status().json` / `next()`: the outcome is returned as a value instead.
- The Shopify client (`shopifyClient.getProductById`) is the `Env.catalog` map: an id missing from it is a fetch that throws.
- `process.env.SHOPIFY_SHOP_NAME` is the `Env.shopName` parameter. `new Date()` is an integer `now` parameter.
- Engine.ConvertShopifyProduct: takes the variant's price and compare-at price as integer cents. It does not model `parseFloat(...) * 100`, because that is floating point.
- Floating-point price thresholds: `price * 0.7`, `* 1.3` and `* 1.2` are exact integer comparisons. JavaScript doubles may differ from them at rare boundary prices.
- ProductLists.Shuffle: `sort(() => 0.5 - Math.random())` is a shuffle driven by the given choices `Env.picks`. The model proves only that the block is a permutation, which is all the source promises.
- The `Promise.all` fan-out over history ids is a sequential concatenation in history order. Concurrency is not modelled.
- A `limit` that is NaN or negative, and type strings other than the three types: `limit` is a `nat` and the type an enumeration.
- Store failures are modelled as a store that fails on every call (`Backend.Offline`). A store that fails on some calls and not others is not modelled.
- `createProduct` never fails on a store that answers, so the ingest's inner `catch` is reached only through a missing catalog record or a failed conversion.
- `DatabaseStorage` (`server/storage-db.ts`) and the export wiring of `server/storage.ts` lines 200-203 are not part of this model. The engine is stated against `MemStorage`'s snapshot.
- A `null` entry in a purchase history or browsed-products array is not modelled: `HistoryEntry` always has an object. In the source, `item.productId` on such an entry throws before `.slice`, and `getRecommendations` rethrows. The failure statements of Engine.UserStage, Engine.Cascade and Engine.Recommend hold for histories without null entries.
- The default `limit = 20` of `getProducts` and `getProductsByCategory` is not modelled: every caller in the core passes a limit explicitly (30 to `getProducts`, 20 to `getProductsByCategory`), and the lookups take it as a parameter.
- An API key's omitted `active` column is `None`: the in-memory store keeps it `undefined`, as `createApiKey` spreads its input. The database default of `true` belongs to `DatabaseStorage`, which is not part of this model.
- The `IStorage` interface is not a separate declaration: its contract is the lookups and transitions of `Storage`.
- Storage.MemStorage.UpdateProduct: a `Partial<InsertProduct>` is a patch with an `Option` per column. A key present with the value `undefined` is not distinguished from an absent key.
- Tags are the comma-joined string form that `engine.ts` splits, not the `string[]` that `shared/types.ts` declares.
- `server/routes.ts`, `server/shopify/client.ts` and `client/` are not part of this model.
