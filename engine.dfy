/** The recommendation engine (`RecommendationEngine`).

    A request is answered by a cascade of three strategies over the store: one driven by
    the user's purchase or browsing history, one driven by a product (its relationship
    graph, then products of its category), and a popularity fallback. Each strategy
    deduplicates its own candidates by internal id, cuts them to the number still
    wanted and labels them; the cascade concatenates the three lists.

    The strategies are specification functions over a store `Snapshot`; the methods
    named after the source's methods build the same lists step by step and are proved
    equal to them. Product prices are integer cents. */
module Engine {
  import opened Wrappers
  import opened Seqs
  import opened JsText
  import opened Schema
  import opened Storage
  import opened ProductLists

  // ---------------------------------------------------------------- requests and items

  /** The three recommendation types a request may ask for. */
  datatype RecType = CrossSell | UpSell | Both

  /** The string the source passes around for a type. */
  function Name(t: RecType): string {
    match t
    case CrossSell => "cross-sell"
    case UpSell => "up-sell"
    case Both => "both"
  }

  /** `RecommendationParams` once the defaults are applied. */
  datatype Request = Request(
    userId: Option<string>,
    productId: Option<string>,
    recType: RecType,
    limit: nat,
    priceRange: Option<string>)

  /** `RecommendationParams` as a caller passes it: the type and the limit may be absent. */
  datatype Params = Params(
    userId: Option<string>,
    productId: Option<string>,
    recType: Option<RecType>,
    limit: Option<nat>,
    priceRange: Option<string>)

  /** The destructuring defaults of `getRecommendations`: type 'both', limit 3. */
  function WithDefaults(params: Params): (r: Request)
    ensures r.recType == (if params.recType.Some? then params.recType.value else Both)
    ensures r.limit == (if params.limit.Some? then params.limit.value else 3)
    ensures r.userId == params.userId && r.productId == params.productId
    ensures r.priceRange == params.priceRange
  {
    Request(params.userId, params.productId,
            if params.recType.Some? then params.recType.value else Both,
            if params.limit.Some? then params.limit.value else 3, params.priceRange)
  }

  /** One element of the response (`RecommendationItem`); `id` is the external id. */
  datatype Item = Item(
    id: string,
    title: string,
    price: int,
    imageUrl: string,
    productUrl: string,
    recType: RecType,
    reason: string)

  datatype EngineError = StoreUnavailable

  /** A string that is present and not empty (JavaScript truthiness). */
  predicate Truthy(s: Option<string>) {
    s.Some? && s.value != ""
  }

  // ---------------------------------------------------------------- the external catalog

  /** The fields of a Shopify variant the conversion reads; prices already in cents. */
  datatype Variant = Variant(priceCents: int, compareAtPriceCents: Option<int>, inventoryQuantity: Option<int>)

  datatype Image = Image(src: Option<string>)

  /** A Shopify product record; `variants` / `images` are `None` when the record lacks
      the array, `tags` is the comma-joined tag string. */
  datatype ShopifyProduct = ShopifyProduct(
    id: string,
    title: string,
    bodyHtml: Option<string>,
    variants: Option<seq<Variant>>,
    images: Option<seq<Image>>,
    productType: Option<string>,
    tags: Option<string>,
    vendor: Option<string>,
    handle: string)

  /** What a request sees of the world outside the store: the Shopify records by id
      (a missing id is a failing fetch), the shop name of the environment, the clock,
      and the random choices of the shuffle. */
  datatype Env = Env(catalog: map<string, ShopifyProduct>, shopName: string, now: int, picks: seq<nat>)

  /** `shopifyProduct.tags ? tags.split(',').map(t => t.trim()) : []`. */
  function Tags(tags: Option<string>): seq<string> {
    if tags.None? || tags.value == [] then [] else TrimAll(Split(tags.value, ','))
  }

  /** `.map(t => t.trim())`. */
  function TrimAll(parts: seq<string>): (r: seq<string>)
    ensures |r| == |parts|
  {
    seq(|parts|, i requires 0 <= i < |parts| => Trim(parts[i]))
  }

  /** Trimming pieces that have no whitespace at either end changes nothing. */
  lemma TrimAllUntouched(parts: seq<string>)
    requires forall i :: 0 <= i < |parts| ==>
               parts[i] == [] || (!IsWhitespace(parts[i][0]) && !IsWhitespace(parts[i][|parts[i]| - 1]))
    ensures TrimAll(parts) == parts
  {
    forall i | 0 <= i < |parts| ensures TrimAll(parts)[i] == parts[i] {
      TrimUntouched(parts[i]);
    }
  }

  /** `convertShopifyProduct`: the first variant gives price, compare-at price and
      inventory, the first image the image URL. A record without the variants or images
      array makes the conversion throw (`None`). */
  function ConvertShopifyProduct(sp: ShopifyProduct, shopName: string): (r: Option<ProductFields>)
    ensures r.None? <==> sp.variants.None? || sp.images.None?
    ensures r.Some? ==> r.value.shopifyId == sp.id && r.value.tags == Some(Tags(sp.tags))
  {
    if sp.variants.None? || sp.images.None? then None
    else
      var variants, images := sp.variants.value, sp.images.value;
      var price := if |variants| > 0 then variants[0].priceCents else 0;
      var compareAt := if |variants| > 0 then variants[0].compareAtPriceCents else None;
      var inventory := if |variants| > 0 && variants[0].inventoryQuantity.Some? then variants[0].inventoryQuantity.value else 0;
      var image := if |images| > 0 then OrEmpty(images[0].src) else "";
      Some(ProductFields(
        sp.id, sp.title, Some(OrEmpty(sp.bodyHtml)), price, compareAt, Some(image),
        Some("https://" + shopName + ".myshopify.com/products/" + sp.handle),
        Some(OrEmpty(sp.productType)), Some(Tags(sp.tags)), Some(OrEmpty(sp.vendor)), Some(inventory)))
  }

  lemma {:induction false} SplitJoinInverse(parts: seq<string>, sep: char)
    requires |parts| >= 1
    requires forall i :: 0 <= i < |parts| ==> sep !in parts[i]
    ensures Split(Join(parts, sep), sep) == parts
  {
    if |parts| == 1 {
      SplitWithoutSep(parts[0], sep);
    } else {
      SplitJoinInverse(parts[1..], sep);
      SplitAtFirst(parts[0], sep, Join(parts[1..], sep));
      assert parts == [parts[0]] + parts[1..];
    }
  }

  /** Tags round-trip: a non-empty list of tags without commas and without surrounding
      whitespace, joined with commas, converts back to the same list. */
  lemma TagsRoundTrip(tags: seq<string>)
    requires |tags| >= 1 && Join(tags, ',') != []
    requires forall i :: 0 <= i < |tags| ==>
               ',' !in tags[i] && (tags[i] == [] || (!IsWhitespace(tags[i][0]) && !IsWhitespace(tags[i][|tags[i]| - 1])))
    ensures Tags(Some(Join(tags, ','))) == tags
  {
    SplitJoinInverse(tags, ',');
    TrimAllUntouched(tags);
  }

  /** Only the first variant and the first image count: what follows them in their
      arrays does not change the converted product. */
  lemma ConvertUsesFirstOnly(sp: ShopifyProduct, shopName: string, v: Variant, vs: seq<Variant>, vs': seq<Variant>,
                             im: Image, ims: seq<Image>, ims': seq<Image>)
    ensures ConvertShopifyProduct(sp.(variants := Some([v] + vs), images := Some([im] + ims)), shopName)
         == ConvertShopifyProduct(sp.(variants := Some([v] + vs'), images := Some([im] + ims')), shopName)
  {
  }

  /** The first variant gives price, compare-at price and inventory (an absent inventory
      counting as 0), the first image (its `src`, or '') the image URL. */
  lemma ConvertFirstVariant(sp: ShopifyProduct, shopName: string, v: Variant, vs: seq<Variant>, im: Image, ims: seq<Image>)
    requires sp.variants == Some([v] + vs) && sp.images == Some([im] + ims)
    ensures var r := ConvertShopifyProduct(sp, shopName);
      && r.Some?
      && r.value.price == v.priceCents
      && r.value.compareAtPrice == v.compareAtPriceCents
      && r.value.inventory == Some(if v.inventoryQuantity.Some? then v.inventoryQuantity.value else 0)
      && r.value.imageUrl == Some(OrEmpty(im.src))
  {
  }

  /** Empty variant and image arrays are not an error: the product gets price 0, no
      compare-at price, inventory 0 and image URL ''. */
  lemma ConvertWithoutVariants(sp: ShopifyProduct, shopName: string)
    requires sp.variants == Some([]) && sp.images == Some([])
    ensures var r := ConvertShopifyProduct(sp, shopName);
      && r.Some?
      && r.value.price == 0 && r.value.compareAtPrice == None
      && r.value.inventory == Some(0) && r.value.imageUrl == Some("")
  {
  }

  // ---------------------------------------------------------------- labelling

  const PremiumCents: int := 10000
  const PurchaseReason: string := "Based on your purchase history"
  const ViewedReason: string := "Based on products you viewed"

  function ToItem(p: Product, t: RecType, reason: string): Item {
    Item(p.fields.shopifyId, p.fields.title, p.fields.price,
         OrEmpty(p.fields.imageUrl), OrEmpty(p.fields.productUrl), t, reason)
  }

  /** Every item is labelled cross-sell or up-sell, and with the requested type unless
      that is 'both'. */
  predicate WellTyped(items: seq<Item>, t: RecType) {
    forall it :: it in items ==> it.recType != Both && (t != Both ==> it.recType == t)
  }

  /** The type of a history-based item: the requested one, or by the $100 threshold. */
  function UserLabel(t: RecType, p: Product): RecType {
    if t != Both then t else if p.fields.price > PremiumCents then UpSell else CrossSell
  }

  function UserItems(ps: seq<Product>, t: RecType, reason: string): seq<Item> {
    seq(|ps|, i requires 0 <= i < |ps| => ToItem(ps[i], UserLabel(t, ps[i]), reason))
  }

  /** `price > sourceProduct?.price`: false when the source product is undefined. */
  predicate AboveSource(p: Product, sourcePrice: Option<int>) {
    sourcePrice.Some? && p.fields.price > sourcePrice.value
  }

  function ProductLabel(t: RecType, p: Product, sourcePrice: Option<int>): RecType {
    if t != Both then t else if AboveSource(p, sourcePrice) then UpSell else CrossSell
  }

  /** `getReasonByType`. */
  function ReasonByType(t: RecType, p: Product, sourcePrice: Option<int>): (r: string)
    ensures t == CrossSell ==> r == "Frequently bought together"
    ensures t != CrossSell ==> (r == "Upgrade option" <==> ProductLabel(t, p, sourcePrice) == UpSell)
    ensures r != "Upgrade option" && t != CrossSell ==> r == "Customers also bought"
  {
    match t
    case CrossSell => "Frequently bought together"
    case UpSell => "Upgrade option"
    case Both => if AboveSource(p, sourcePrice) then "Upgrade option" else "Customers also bought"
  }

  function ProductItems(ps: seq<Product>, t: RecType, sourcePrice: Option<int>): seq<Item> {
    seq(|ps|, i requires 0 <= i < |ps| =>
      ToItem(ps[i], ProductLabel(t, ps[i], sourcePrice), ReasonByType(t, ps[i], sourcePrice)))
  }

  function GeneralLabel(t: RecType, p: Product): RecType {
    if t != Both then t else if p.fields.price >= PremiumCents then UpSell else CrossSell
  }

  function GeneralReason(p: Product): string {
    if p.fields.price >= PremiumCents then "Popular premium item" else "Popular item"
  }

  function GeneralItems(ps: seq<Product>, t: RecType): seq<Item> {
    seq(|ps|, i requires 0 <= i < |ps| => ToItem(ps[i], GeneralLabel(t, ps[i]), GeneralReason(ps[i])))
  }

  /** Deduplicate, then keep the first `limit`: the tail of every strategy. */
  function Select(candidates: seq<Product>, limit: nat): (r: seq<Product>)
    ensures |r| <= limit
  {
    Take(Dedup(candidates), limit)
  }

  /** A strategy's selection holds each internal id once, only candidates, in the order
      of their first occurrence, and is cut short only by `limit`. */
  lemma SelectSpec(candidates: seq<Product>, limit: nat)
    ensures var r := Select(candidates, limit);
      && DistinctIds(r)
      && (forall p :: p in r ==> p in candidates)
      && |r| <= |Dedup(candidates)| && r == Dedup(candidates)[..|r|]
      && (|r| == limit || r == Dedup(candidates))
  {
    DedupDistinct(candidates);
    DedupFromInput(candidates);
  }

  // ---------------------------------------------------------------- user-history strategy

  function Entries(h: Option<seq<HistoryEntry>>): seq<HistoryEntry> {
    if h.Some? then h.value else []
  }

  /** `history.map(item => item.productId).slice(0, n)`. */
  function HistoryIds(entries: seq<HistoryEntry>, n: nat): seq<Option<string>> {
    var firsts := Take(entries, n);
    seq(|firsts|, i requires 0 <= i < |firsts| => firsts[i].productId)
  }

  /** The related products of one history entry; an entry without a product id matches
      no stored product, so it has none. */
  function RelatedFor(s: Snapshot, id: Option<string>, t: RecType): seq<Product> {
    if id.None? then [] else RelatedProducts(s, id.value, Name(t))
  }

  /** `Promise.all(ids.map(...))` then `.flat()`: the related products of every id,
      concatenated in the order of the ids. */
  function RelatedOfAll(s: Snapshot, ids: seq<Option<string>>, t: RecType): seq<Product> {
    if ids == [] then []
    else RelatedOfAll(s, ids[..|ids| - 1], t) + RelatedFor(s, ids[|ids| - 1], t)
  }

  /** Everything gathered from the history is a stored product related to one of the
      ids. */
  lemma {:induction false} RelatedOfAllStored(s: Snapshot, ids: seq<Option<string>>, t: RecType)
    ensures forall p :: p in RelatedOfAll(s, ids, t) ==>
              p in s.products && exists i :: 0 <= i < |ids| && p in RelatedFor(s, ids[i], t)
  {
    if ids != [] {
      var init := ids[..|ids| - 1];
      RelatedOfAllStored(s, init, t);
      forall p | p in RelatedOfAll(s, ids, t)
        ensures p in s.products && exists i :: 0 <= i < |ids| && p in RelatedFor(s, ids[i], t)
      {
        if p in RelatedOfAll(s, init, t) {
          var i :| 0 <= i < |init| && p in RelatedFor(s, init[i], t);
          assert ids[i] == init[i];
        } else {
          assert p in RelatedFor(s, ids[|ids| - 1], t);
        }
      }
    }
  }

  datatype HistorySource = Purchases | Browsed | NoHistory

  /** Purchase history wins whenever it has an entry; browsed products are the fallback. */
  function HistoryChoice(u: User): HistorySource {
    if |Entries(u.fields.purchaseHistory)| > 0 then Purchases
    else if |Entries(u.fields.browsedProducts)| > 0 then Browsed
    else NoHistory
  }

  /** The candidates of the user strategy: related products of the first 10 purchases,
      or else of the first 5 browsed products. */
  function UserCandidates(s: Snapshot, u: User, t: RecType): seq<Product> {
    match HistoryChoice(u)
    case Purchases => RelatedOfAll(s, HistoryIds(Entries(u.fields.purchaseHistory), 10), t)
    case Browsed => RelatedOfAll(s, HistoryIds(Entries(u.fields.browsedProducts), 5), t)
    case NoHistory => []
  }

  /** `getUserBasedRecommendations`. */
  function UserBased(s: Snapshot, u: User, t: RecType, limit: nat): (r: seq<Item>)
    ensures |r| <= limit
  {
    var chosen := Select(UserCandidates(s, u, t), limit);
    match HistoryChoice(u)
    case Purchases => UserItems(chosen, t, PurchaseReason)
    case Browsed => UserItems(chosen, t, ViewedReason)
    case NoHistory => []
  }

  /** History items carry the requested type, and for 'both' up-sell exactly above
      $100. */
  lemma UserBasedLabels(s: Snapshot, u: User, t: RecType, limit: nat)
    ensures var r := UserBased(s, u, t, limit);
      && WellTyped(r, t)
      && (t == Both ==> forall it :: it in r ==>
            it.recType == if it.price > PremiumCents then UpSell else CrossSell)
  {
  }

  /** Which history is used: a purchase history with at least one entry is used alone
      (its first 10 entries), even when it yields nothing; otherwise the first 5 browsed
      products; otherwise nothing. The reason names the history used. */
  lemma UserSourceSelection(s: Snapshot, u: User, t: RecType, limit: nat)
    ensures var purchases, browsed := Entries(u.fields.purchaseHistory), Entries(u.fields.browsedProducts);
      var r := UserBased(s, u, t, limit);
      && (|purchases| > 0 ==>
            && r == UserItems(Select(RelatedOfAll(s, HistoryIds(purchases, 10), t), limit), t, PurchaseReason)
            && forall it :: it in r ==> it.reason == PurchaseReason)
      && (|purchases| == 0 && |browsed| > 0 ==>
            && r == UserItems(Select(RelatedOfAll(s, HistoryIds(browsed, 5), t), limit), t, ViewedReason)
            && forall it :: it in r ==> it.reason == ViewedReason)
      && (|purchases| == 0 && |browsed| == 0 ==> r == [])
  {
  }

  /** The user strategy recommends stored products related to the chosen history
      entries, each internal id once, in the order of the selection. */
  lemma UserItemsFromHistory(s: Snapshot, u: User, t: RecType, limit: nat)
    ensures var chosen := Select(UserCandidates(s, u, t), limit);
      var r := UserBased(s, u, t, limit);
      && DistinctIds(chosen)
      && (forall p :: p in chosen ==> p in s.products)
      && (HistoryChoice(u) != NoHistory ==>
            |r| == |chosen| && forall i :: 0 <= i < |chosen| ==> r[i].id == chosen[i].fields.shopifyId)
  {
    SelectSpec(UserCandidates(s, u, t), limit);
    RelatedOfAllStored(s, HistoryIds(Entries(u.fields.purchaseHistory), 10), t);
    RelatedOfAllStored(s, HistoryIds(Entries(u.fields.browsedProducts), 5), t);
  }

  // ---------------------------------------------------------------- product strategy

  /** "min-max" in whole currency units, as cents: the first two '-'-separated parts
      read with `parseInt`; `None` when there is no second part or either is NaN. */
  function ParseRange(priceRange: string): (r: Option<(int, int)>)
    ensures r.Some? ==> '-' in priceRange
    ensures r.Some? ==> r.value.0 % 100 == 0 && r.value.1 % 100 == 0
  {
    var parts := Split(priceRange, '-');
    assert '-' !in priceRange ==> |parts| == 1 by {
      if '-' !in priceRange {
        SplitWithoutSep(priceRange, '-');
      }
    }
    RangeOfParts(parts)
  }

  /** The window of the first two parts: both must parse, and are whole currency units. */
  function RangeOfParts(parts: seq<string>): (r: Option<(int, int)>)
    ensures r.Some? <==> |parts| >= 2 && ParseInt(parts[0]).Some? && ParseInt(parts[1]).Some?
    ensures r.Some? ==> r.value.0 % 100 == 0 && r.value.1 % 100 == 0
  {
    if |parts| < 2 then None
    else
      var lo, hi := ParseInt(parts[0]), ParseInt(parts[1]);
      if lo.Some? && hi.Some? then
        WholeCents(lo.value);
        WholeCents(hi.value);
        Some((100 * lo.value, 100 * hi.value))
      else None
  }

  /** A count of whole currency units, as cents, is a multiple of 100. */
  lemma WholeCents(n: int)
    ensures (100 * n) % 100 == 0
  {
  }

  /** The price bounds applied to graph candidates: only with a non-empty range, a type
      other than cross-sell, and a range that parses. */
  function PriceWindow(priceRange: Option<string>, t: RecType): (w: Option<(int, int)>)
    ensures w.Some? <==> Truthy(priceRange) && t != CrossSell && ParseRange(priceRange.value).Some?
    ensures w.Some? ==> w == ParseRange(priceRange.value)
  {
    if Truthy(priceRange) && t != CrossSell then ParseRange(priceRange.value) else None
  }

  function PriceBetween(lo: int, hi: int): Product -> bool {
    (p: Product) => lo <= p.fields.price <= hi
  }

  function ApplyWindow(ps: seq<Product>, w: Option<(int, int)>): seq<Product> {
    if w.None? then ps else Filter(ps, PriceBetween(w.value.0, w.value.1))
  }

  /** Without a window nothing is dropped; with one exactly the products priced inside
      it are kept, in their order. */
  lemma ApplyWindowSpec(ps: seq<Product>, w: Option<(int, int)>)
    ensures w.None? ==> ApplyWindow(ps, w) == ps
    ensures w.Some? ==> forall p :: p in ApplyWindow(ps, w) <==> p in ps && w.value.0 <= p.fields.price <= w.value.1
  {
    if w.Some? {
      FilterMembers(ps, PriceBetween(w.value.0, w.value.1));
      assert forall p :: PriceBetween(w.value.0, w.value.1)(p) <==> w.value.0 <= p.fields.price <= w.value.1;
    }
  }

  /** Graph neighbours: cross-sell edges first, then up-sell edges, as the type asks. */
  function GraphCandidates(s: Snapshot, productId: string, t: RecType): seq<Product> {
    var cross := if t == CrossSell || t == Both then [] + RelatedProducts(s, productId, "cross-sell") else [];
    if t == UpSell || t == Both then cross + RelatedProducts(s, productId, "up-sell") else cross
  }

  /** 70% <= p / s <= 130%, in integers. */
  function SimilarPrice(source: int): Product -> bool {
    (p: Product) => 10 * p.fields.price >= 7 * source && 10 * p.fields.price <= 13 * source
  }

  /** p / s >= 120%, in integers. */
  function UpgradePrice(source: int): Product -> bool {
    (p: Product) => 10 * p.fields.price >= 12 * source
  }

  /** The same-category products kept for each type: cross-sell those within 70%-130% of
      the source price, up-sell those at 120% or more sorted by ascending price, both all. */
  function CategoryPick(t: RecType, sourcePrice: int, extra: seq<Product>): seq<Product> {
    match t
    case CrossSell => Filter(extra, SimilarPrice(sourcePrice))
    case UpSell => SortByPrice(Ascending, Filter(extra, UpgradePrice(sourcePrice)))
    case Both => extra
  }

  /** Cross-sell keeps exactly the products priced within 70%-130% of the source. */
  lemma SimilarPriceFilter(sourcePrice: int, extra: seq<Product>)
    ensures forall p :: p in Filter(extra, SimilarPrice(sourcePrice)) <==>
              p in extra && 7 * sourcePrice <= 10 * p.fields.price <= 13 * sourcePrice
  {
    FilterMembers(extra, SimilarPrice(sourcePrice));
    assert forall p :: SimilarPrice(sourcePrice)(p) <==>
      7 * sourcePrice <= 10 * p.fields.price <= 13 * sourcePrice;
  }

  /** Up-sell keeps exactly the products priced at 120% of the source or more. */
  lemma UpgradePriceFilter(sourcePrice: int, extra: seq<Product>)
    ensures forall p :: p in Filter(extra, UpgradePrice(sourcePrice)) <==>
              p in extra && 10 * p.fields.price >= 12 * sourcePrice
  {
    FilterMembers(extra, UpgradePrice(sourcePrice));
    assert forall p :: UpgradePrice(sourcePrice)(p) <==> 10 * p.fields.price >= 12 * sourcePrice;
  }

  /** Sorting keeps the members of a list. */
  lemma SortKeepsMembers(d: Direction, xs: seq<Product>)
    ensures forall p :: p in SortByPrice(d, xs) <==> p in xs
  {
    var r := SortByPrice(d, xs);
    assert forall p :: p in r <==> p in multiset(r);
    assert forall p :: p in xs <==> p in multiset(xs);
  }

  lemma CategoryPickSpec(t: RecType, sourcePrice: int, extra: seq<Product>)
    ensures var r := CategoryPick(t, sourcePrice, extra);
      && (t == CrossSell ==> forall p :: p in r <==>
            p in extra && 7 * sourcePrice <= 10 * p.fields.price <= 13 * sourcePrice)
      && (t == UpSell ==> SortedBy(Ascending, r))
      && (t == UpSell ==> multiset(r) == multiset(Filter(extra, UpgradePrice(sourcePrice))))
      && (t == UpSell ==> forall p :: p in r <==> p in extra && 10 * p.fields.price >= 12 * sourcePrice)
      && (t == Both ==> r == extra)
  {
    if t == CrossSell {
      SimilarPriceFilter(sourcePrice, extra);
    } else if t == UpSell {
      UpgradePriceFilter(sourcePrice, extra);
      SortKeepsMembers(Ascending, Filter(extra, UpgradePrice(sourcePrice)));
    }
  }

  function NotShopifyId(id: string): Product -> bool {
    (p: Product) => p.fields.shopifyId != id
  }

  /** Category broadening: up to 20 products of the source's category (`''` when it has
      none), without the requested product id, picked by type. */
  function Broadening(s: Snapshot, source: Product, productId: string, t: RecType): seq<Product> {
    var categoryProducts := GetProductsByCategory(s, OrEmpty(source.fields.category), 20);
    CategoryPick(t, source.fields.price, Filter(categoryProducts, NotShopifyId(productId)))
  }

  /** Broadening adds only stored products of the source's category (or, for a source
      without one, of category ''), never the requested product id. */
  lemma BroadeningSpec(s: Snapshot, source: Product, productId: string, t: RecType)
    ensures forall p :: p in Broadening(s, source, productId, t) ==>
              && p in s.products
              && p.fields.category == Some(OrEmpty(source.fields.category))
              && p.fields.shopifyId != productId
  {
    var categoryProducts := GetProductsByCategory(s, OrEmpty(source.fields.category), 20);
    var extra := Filter(categoryProducts, NotShopifyId(productId));
    FilterMembers(categoryProducts, NotShopifyId(productId));
    var picked := CategoryPick(t, source.fields.price, extra);
    assert forall p :: p in picked ==> p in extra by {
      CategoryPickSpec(t, source.fields.price, extra);
    }
  }

  /** Where the source product comes from: the store, or the catalog (lazy ingest, after
      which the source product stays undefined), or nowhere. */
  datatype SourceState = Found(product: Product) | Ingested | Missing

  /** The lookup of the source product, with the lazy ingest into the store when the
      store does not have it and the catalog fetch and conversion succeed. */
  function ResolveSource(s: Snapshot, env: Env, productId: string): (SourceState, Snapshot) {
    match GetProductByShopifyId(s, productId)
    case Some(p) => (Found(p), s)
    case None =>
      if productId !in env.catalog then (Missing, s)
      else
        match ConvertShopifyProduct(env.catalog[productId], env.shopName)
        case None => (Missing, s)
        case Some(fields) => (Ingested, AddProduct(s, fields, env.now).0)
  }

  function SourcePrice(src: SourceState): Option<int> {
    if src.Found? then Some(src.product.fields.price) else None
  }

  /** The product strategy's candidates: graph neighbours, price-filtered, then (only when
      they are fewer than `limit` and the source was found in the store) the category
      additions, unfiltered by the price range. */
  function ProductCandidates(s: Snapshot, src: SourceState, productId: string, t: RecType,
                             limit: nat, priceRange: Option<string>): seq<Product> {
    var graph := ApplyWindow(GraphCandidates(s, productId, t), PriceWindow(priceRange, t));
    if |graph| < limit && src.Found? then graph + Broadening(s, src.product, productId, t) else graph
  }

  /** Product items carry the requested type, and its reason when the type is not 'both'. */
  lemma ProductItemsLabels(ps: seq<Product>, t: RecType, sourcePrice: Option<int>)
    ensures WellTyped(ProductItems(ps, t, sourcePrice), t)
    ensures t == CrossSell ==> forall it :: it in ProductItems(ps, t, sourcePrice) ==> it.reason == "Frequently bought together"
    ensures t == UpSell ==> forall it :: it in ProductItems(ps, t, sourcePrice) ==> it.reason == "Upgrade option"
  {
  }

  /** With a source price, 'both' labels an item an up-sell "Upgrade option" exactly when
      it is dearer than the source, and otherwise a cross-sell "Customers also bought". */
  lemma ProductItemsWithSource(ps: seq<Product>, price: int)
    ensures forall it :: it in ProductItems(ps, Both, Some(price)) ==>
              if it.price > price then it.recType == UpSell && it.reason == "Upgrade option"
              else it.recType == CrossSell && it.reason == "Customers also bought"
  {
    var r := ProductItems(ps, Both, Some(price));
    forall it | it in r
      ensures if it.price > price then it.recType == UpSell && it.reason == "Upgrade option"
              else it.recType == CrossSell && it.reason == "Customers also bought"
    {
      var i :| 0 <= i < |r| && r[i] == it;
      assert it.price == ps[i].fields.price;
    }
  }

  /** Without a source price, 'both' labels every item a cross-sell "Customers also
      bought": `price > undefined` is false. */
  lemma ProductItemsWithoutSource(ps: seq<Product>)
    ensures forall it :: it in ProductItems(ps, Both, None) ==>
              it.recType == CrossSell && it.reason == "Customers also bought"
  {
  }

  /** `getProductBasedRecommendations` on a store that answers: the items and the store
      afterwards (one product more after a lazy ingest). */
  function ProductBased(s: Snapshot, env: Env, productId: string, t: RecType, limit: nat,
                        priceRange: Option<string>): (r: (seq<Item>, Snapshot))
    ensures |r.0| <= limit
  {
    var (src, s') := ResolveSource(s, env, productId);
    if src.Missing? then ([], s)
    else (ProductItems(Select(ProductCandidates(s', src, productId, t, limit, priceRange), limit), t, SourcePrice(src)), s')
  }

  /** Product items carry the requested type and reason whatever the source's state. */
  lemma ProductBasedLabels(s: Snapshot, env: Env, productId: string, t: RecType, limit: nat, priceRange: Option<string>)
    ensures var items := ProductBased(s, env, productId, t, limit, priceRange).0;
      && WellTyped(items, t)
      && (t == CrossSell ==> forall it :: it in items ==> it.reason == "Frequently bought together")
      && (t == UpSell ==> forall it :: it in items ==> it.reason == "Upgrade option")
  {
    var (src, s') := ResolveSource(s, env, productId);
    if !src.Missing? {
      ProductItemsLabels(Select(ProductCandidates(s', src, productId, t, limit, priceRange), limit), t, SourcePrice(src));
    }
  }

  /** With a source product found in the store: the store is unchanged, and under 'both'
      each item is an up-sell "Upgrade option" exactly when it is dearer than the source,
      and otherwise a cross-sell "Customers also bought". */
  lemma ProductLabelsFound(s: Snapshot, env: Env, productId: string, limit: nat, priceRange: Option<string>)
    requires GetProductByShopifyId(s, productId).Some?
    ensures var source := GetProductByShopifyId(s, productId).value;
      var (items, s') := ProductBased(s, env, productId, Both, limit, priceRange);
      && s' == s
      && (forall it :: it in items ==>
            if it.price > source.fields.price then it.recType == UpSell && it.reason == "Upgrade option"
            else it.recType == CrossSell && it.reason == "Customers also bought")
  {
    var source := GetProductByShopifyId(s, productId).value;
    assert ResolveSource(s, env, productId) == (Found(source), s);
    ProductItemsWithSource(Select(ProductCandidates(s, Found(source), productId, Both, limit, priceRange), limit), source.fields.price);
  }

  /** A product neither in the store nor obtainable from the catalog gives no items and
      leaves the store as it was. */
  lemma MissingSource(s: Snapshot, env: Env, productId: string, t: RecType, limit: nat, priceRange: Option<string>)
    requires GetProductByShopifyId(s, productId).None?
    requires productId !in env.catalog || ConvertShopifyProduct(env.catalog[productId], env.shopName).None?
    ensures ProductBased(s, env, productId, t, limit, priceRange) == ([], s)
  {
  }

  /** Lazy ingest: the converted record is stored as a new product, the graph is read on
      the new store, no category broadening happens, and since the source product stays
      undefined every 'both' item is a cross-sell "Customers also bought". */
  lemma LazyIngest(s: Snapshot, env: Env, productId: string, t: RecType, limit: nat, priceRange: Option<string>)
    requires GetProductByShopifyId(s, productId).None?
    requires productId in env.catalog
    requires ConvertShopifyProduct(env.catalog[productId], env.shopName).Some?
    ensures var fields := ConvertShopifyProduct(env.catalog[productId], env.shopName).value;
      var s1 := AddProduct(s, fields, env.now).0;
      var (items, s') := ProductBased(s, env, productId, t, limit, priceRange);
      && s' == s1
      && items == ProductItems(Select(ApplyWindow(GraphCandidates(s1, productId, t), PriceWindow(priceRange, t)), limit), t, None)
      && (t == Both ==> forall it :: it in items ==> it.recType == CrossSell && it.reason == "Customers also bought")
  {
    var fields := ConvertShopifyProduct(env.catalog[productId], env.shopName).value;
    var s1 := AddProduct(s, fields, env.now).0;
    assert ResolveSource(s, env, productId) == (Ingested, s1);
    ProductItemsWithoutSource(Select(ApplyWindow(GraphCandidates(s1, productId, t), PriceWindow(priceRange, t)), limit));
  }

  /** The shape of the candidate list: the price-filtered graph neighbours come first;
      the category additions, which the price range never touches, follow only when the
      neighbours were fewer than `limit` and the source was found in the store. */
  lemma ProductCandidatesShape(s: Snapshot, src: SourceState, productId: string, t: RecType,
                               limit: nat, priceRange: Option<string>)
    ensures var filtered := ApplyWindow(GraphCandidates(s, productId, t), PriceWindow(priceRange, t));
      var c := ProductCandidates(s, src, productId, t, limit, priceRange);
      && |filtered| <= |c| && c[..|filtered|] == filtered
      && (|c| > |filtered| ==> |filtered| < limit && src.Found?)
      && (|filtered| < limit && src.Found? ==> c[|filtered|..] == Broadening(s, src.product, productId, t))
  {
    var filtered := ApplyWindow(GraphCandidates(s, productId, t), PriceWindow(priceRange, t));
    var c := ProductCandidates(s, src, productId, t, limit, priceRange);
    if |filtered| < limit && src.Found? {
      assert c[..|filtered|] == filtered;
      assert c[|filtered|..] == Broadening(s, src.product, productId, t);
    }
  }

  /** "x-y" with two dash-free parts is read as the window of its two parts. */
  lemma ParseRangeOfParts(x: string, y: string)
    requires '-' !in x && '-' !in y
    ensures ParseRange(x + "-" + y) == RangeOfParts([x, y])
  {
    assert x + "-" + y == x + ['-'] + y;
    SplitAtFirst(x, '-', y);
    SplitWithoutSep(y, '-');
  }

  lemma RangeOfNumbers(lo: nat, hi: nat)
    ensures RangeOfParts([Decimal(lo), Decimal(hi)]) == Some((100 * lo, 100 * hi))
  {
    ParseIntOfDecimal(lo);
    ParseIntOfDecimal(hi);
  }

  /** Whole numbers written as "lo-hi" give the window [100 lo, 100 hi]. */
  lemma ParseRangeOfNumbers(lo: nat, hi: nat)
    ensures ParseRange(Decimal(lo) + "-" + Decimal(hi)) == Some((100 * lo, 100 * hi))
  {
    DecimalWithout(lo, '-');
    DecimalWithout(hi, '-');
    ParseRangeOfParts(Decimal(lo), Decimal(hi));
    RangeOfNumbers(lo, hi);
  }

  /** "120-300" is the window 12000..30000 cents. */
  lemma ParseRangeExample(r: string)
    requires r == "120-300"
    ensures ParseRange(r) == Some((12000, 30000))
  {
    assert Decimal(120) == "120" && Decimal(300) == "300";
    assert r == Decimal(120) + "-" + Decimal(300);
    ParseRangeOfNumbers(120, 300);
  }

  /** "abc" and "120" apply no price filter. */
  lemma ParseRangeRejects()
    ensures ParseRange("abc") == None
    ensures ParseRange("120") == None
  {
    SplitWithoutSep("abc", '-');
    SplitWithoutSep("120", '-');
  }

  /** Only the first two '-'-separated parts count: "a-b-c" is read as "a-b". */
  lemma ParseRangeFirstTwoParts(a: string, b: string, c: string)
    requires '-' !in a && '-' !in b
    ensures ParseRange(a + "-" + b + "-" + c) == ParseRange(a + "-" + b)
  {
    var tail := b + "-" + c;
    assert a + "-" + b + "-" + c == a + ['-'] + tail;
    SplitAtFirst(a, '-', tail);
    assert tail == b + ['-'] + c;
    SplitAtFirst(b, '-', c);
    assert a + "-" + b == a + ['-'] + b;
    SplitAtFirst(a, '-', b);
    SplitWithoutSep(b, '-');
    var p := Split(a + "-" + b + "-" + c, '-');
    var q := Split(a + "-" + b, '-');
    assert |p| >= 2 && |q| >= 2 && p[0] == q[0] && p[1] == q[1];
  }

  /** Source at 10000 cents, same-category products at 6900, 7000, 13000, 20000 and
      30000: cross-sell keeps the 70% and 130% boundaries (7000, 13000) and drops 6900
      and 20000. */
  lemma CrossSellScenario(a: Product, b: Product, c: Product, d: Product, e: Product)
    requires a.fields.price == 6900 && b.fields.price == 7000 && c.fields.price == 13000
    requires d.fields.price == 20000 && e.fields.price == 30000
    ensures CategoryPick(CrossSell, 10000, [a, b, c, d, e]) == [b, c]
  {
    assert [] + [a] == [a] && [a] + [b] == [a, b] && [a, b] + [c] == [a, b, c];
    assert [a, b, c] + [d] == [a, b, c, d] && [a, b, c, d] + [e] == [a, b, c, d, e];
    assert [] + [b] == [b] && [b] + [c] == [b, c];
    var P := SimilarPrice(10000);
    FilterDrop([], a, P, []);
    FilterKeep([a], b, P, []);
    FilterKeep([a, b], c, P, [b]);
    FilterDrop([a, b, c], d, P, [b, c]);
    FilterDrop([a, b, c, d], e, P, [b, c]);
  }

  lemma UpgradeFilterScenario(a: Product, b: Product, c: Product, d: Product, e: Product)
    requires a.fields.price == 6900 && b.fields.price == 7000 && c.fields.price == 13000
    requires d.fields.price == 20000 && e.fields.price == 30000
    ensures Filter([a, b, c, d, e], UpgradePrice(10000)) == [c, d, e]
  {
    assert [] + [a] == [a] && [a] + [b] == [a, b] && [a, b] + [c] == [a, b, c];
    assert [a, b, c] + [d] == [a, b, c, d] && [a, b, c, d] + [e] == [a, b, c, d, e];
    assert [] + [c] == [c] && [c] + [d] == [c, d] && [c, d] + [e] == [c, d, e];
    var P := UpgradePrice(10000);
    FilterDrop([], a, P, []);
    FilterDrop([a], b, P, []);
    FilterKeep([a, b], c, P, []);
    FilterKeep([a, b, c], d, P, [c]);
    FilterKeep([a, b, c, d], e, P, [c, d]);
  }

  /** The same products for up-sell: those at 120% or more (13000, 20000, 30000), in
      ascending order. */
  lemma UpSellScenario(a: Product, b: Product, c: Product, d: Product, e: Product)
    requires a.fields.price == 6900 && b.fields.price == 7000 && c.fields.price == 13000
    requires d.fields.price == 20000 && e.fields.price == 30000
    ensures CategoryPick(UpSell, 10000, [a, b, c, d, e]) == [c, d, e]
  {
    UpgradeFilterScenario(a, b, c, d, e);
    assert SortedBy(Ascending, [c, d, e]);
    SortByPriceOfSorted(Ascending, [c, d, e]);
  }


  // ---------------------------------------------------------------- popularity strategy

  function IsCheap(p: Product): bool { p.fields.price < PremiumCents }
  function IsPremium(p: Product): bool { p.fields.price >= PremiumCents }

  /** The candidates of the popularity strategy: the cheap products shuffled, then the
      premium ones by descending price (as the type asks), then, when that is fewer than
      `limit`, the whole pool again. */
  function GeneralCandidates(pool: seq<Product>, t: RecType, limit: nat, picks: seq<nat>): seq<Product> {
    var withCheap := if |pool| > 0 && (t == CrossSell || t == Both)
                     then [] + Shuffle(Filter(pool, IsCheap), picks) else [];
    var tiers := if |pool| > 0 && (t == UpSell || t == Both)
                 then withCheap + SortByPrice(Descending, Filter(pool, IsPremium)) else withCheap;
    if |tiers| < limit then tiers + pool else tiers
  }

  /** `getGeneralRecommendations` on a store that answers: from the first 30 products. */
  function General(s: Snapshot, t: RecType, limit: nat, picks: seq<nat>): (r: seq<Item>)
    ensures |r| <= limit
  {
    GeneralItems(Select(GeneralCandidates(GetProducts(s, 30), t, limit, picks), limit), t)
  }

  /** Popular items carry the requested type, for 'both' up-sell exactly from $100, and
      the premium reason exactly from $100. */
  lemma GeneralLabels(s: Snapshot, t: RecType, limit: nat, picks: seq<nat>)
    ensures var r := General(s, t, limit, picks);
      && WellTyped(r, t)
      && (forall it :: it in r ==>
            && (t == Both ==> it.recType == if it.price >= PremiumCents then UpSell else CrossSell)
            && it.reason == if it.price >= PremiumCents then "Popular premium item" else "Popular item")
  {
    GeneralItemsLabels(Select(GeneralCandidates(GetProducts(s, 30), t, limit, picks), limit), t);
  }

  /** The labels of popular items, for any list of products. */
  lemma GeneralItemsLabels(ps: seq<Product>, t: RecType)
    ensures WellTyped(GeneralItems(ps, t), t)
    ensures forall it :: it in GeneralItems(ps, t) ==>
              && (t == Both ==> it.recType == if it.price >= PremiumCents then UpSell else CrossSell)
              && it.reason == if it.price >= PremiumCents then "Popular premium item" else "Popular item"
  {
    var r := GeneralItems(ps, t);
    forall it | it in r
      ensures it.recType != Both && (t != Both ==> it.recType == t)
      ensures t == Both ==> it.recType == if it.price >= PremiumCents then UpSell else CrossSell
      ensures it.reason == if it.price >= PremiumCents then "Popular premium item" else "Popular item"
    {
      var i :| 0 <= i < |r| && r[i] == it;
      assert it.price == ps[i].fields.price;
    }
  }

  /** The first block: the pool's products under $100, shuffled, for cross-sell and both. */
  function CheapTier(pool: seq<Product>, t: RecType, picks: seq<nat>): (r: seq<Product>)
    ensures |r| == if t != UpSell then |Filter(pool, IsCheap)| else 0
    ensures multiset(r) == if t != UpSell then multiset(Filter(pool, IsCheap)) else multiset{}
  {
    if |pool| > 0 && t != UpSell then
      var r := Shuffle(Filter(pool, IsCheap), picks);
      assert |multiset(r)| == |multiset(Filter(pool, IsCheap))|;
      r
    else []
  }

  /** The second block: the pool's products of $100 or more, by descending price, for
      up-sell and both. */
  function PremiumTier(pool: seq<Product>, t: RecType): (r: seq<Product>)
    ensures |r| == if t != CrossSell then |Filter(pool, IsPremium)| else 0
    ensures SortedBy(Descending, r)
    ensures multiset(r) == if t != CrossSell then multiset(Filter(pool, IsPremium)) else multiset{}
  {
    if |pool| > 0 && t != CrossSell then
      var r := SortByPrice(Descending, Filter(pool, IsPremium));
      assert |multiset(r)| == |multiset(Filter(pool, IsPremium))|;
      r
    else []
  }

  /** The popularity candidates are the two blocks in this order, followed by the whole
      pool when the blocks are fewer than `limit`. */
  lemma TiersOfCandidates(pool: seq<Product>, t: RecType, limit: nat, picks: seq<nat>)
    ensures var tiers := CheapTier(pool, t, picks) + PremiumTier(pool, t);
      GeneralCandidates(pool, t, limit, picks) == if |tiers| < limit then tiers + pool else tiers
  {
    TiersShape(pool, t, limit, Shuffle(Filter(pool, IsCheap), picks),
               SortByPrice(Descending, Filter(pool, IsPremium)));
  }

  /** The block arithmetic of `TiersOfCandidates`, for any two blocks. */
  lemma TiersShape(pool: seq<Product>, t: RecType, limit: nat, shuffled: seq<Product>, sorted: seq<Product>)
    ensures var withCheap := if |pool| > 0 && (t == CrossSell || t == Both) then [] + shuffled else [];
      var tiers := if |pool| > 0 && (t == UpSell || t == Both) then withCheap + sorted else withCheap;
      var cheap := if |pool| > 0 && t != UpSell then shuffled else [];
      var premium := if |pool| > 0 && t != CrossSell then sorted else [];
      tiers == cheap + premium
  {
    assert [] + shuffled == shuffled + [] == shuffled;
    assert [] + sorted == sorted;
  }

  lemma MembersOfMultiset(xs: seq<Product>, ys: seq<Product>)
    requires multiset(xs) == multiset(ys)
    ensures forall p :: p in xs ==> p in ys
  {
    assert forall p :: p in xs ==> p in multiset(xs);
  }

  /** Every popularity candidate is a product of the pool. */
  lemma GeneralFromPool(pool: seq<Product>, t: RecType, limit: nat, picks: seq<nat>)
    ensures forall p :: p in GeneralCandidates(pool, t, limit, picks) ==> p in pool
  {
    var cheapPart, premiumPart := CheapTier(pool, t, picks), PremiumTier(pool, t);
    TiersOfCandidates(pool, t, limit, picks);
    MembersOfMultiset(cheapPart, if t != UpSell then Filter(pool, IsCheap) else []);
    MembersOfMultiset(premiumPart, if t != CrossSell then Filter(pool, IsPremium) else []);
    FilterMembers(pool, IsCheap);
    FilterMembers(pool, IsPremium);
  }

  /** Popular items are distinct stored products among the first 30 of the store. */
  lemma GeneralItemsFromStore(s: Snapshot, t: RecType, limit: nat, picks: seq<nat>)
    ensures var chosen := Select(GeneralCandidates(GetProducts(s, 30), t, limit, picks), limit);
      && DistinctIds(chosen)
      && (forall p :: p in chosen ==> p in GetProducts(s, 30))
      && General(s, t, limit, picks) == GeneralItems(chosen, t)
  {
    var pool := GetProducts(s, 30);
    SelectSpec(GeneralCandidates(pool, t, limit, picks), limit);
    GeneralFromPool(pool, t, limit, picks);
  }

  // ---------------------------------------------------------------- the cascade

  /** The user stage: nothing without a (non-empty) user id or for an unknown user; a
      store failure here is not caught, so it fails the whole request. */
  function UserStage(b: Backend, userId: Option<string>, t: RecType, limit: nat): (r: Result<seq<Item>, EngineError>)
    ensures r.Ok? ==> |r.value| <= limit
    ensures r.Err? <==> Truthy(userId) && b.Offline?
  {
    if !Truthy(userId) then Ok([])
    else if b.Offline? then Err(StoreUnavailable)
    else
      match GetUserByShopifyId(b.db, userId.value)
      case None => Ok([])
      case Some(u) => Ok(UserBased(b.db, u, t, limit))
  }

  /** The product strategy as the cascade calls it: a failing store gives no items. */
  function ProductStage(b: Backend, env: Env, productId: string, t: RecType, limit: nat,
                        priceRange: Option<string>): (r: (seq<Item>, Backend))
    ensures |r.0| <= limit
    ensures b.Offline? ==> r == ([], b)
    ensures WellTyped(r.0, t)
  {
    match b
    case Offline => ([], Offline)
    case Online(s) =>
      ProductBasedLabels(s, env, productId, t, limit, priceRange);
      var (items, s') := ProductBased(s, env, productId, t, limit, priceRange);
      (items, Online(s'))
  }

  /** The popularity strategy as the cascade calls it: a failing store gives no items. */
  function GeneralStage(b: Backend, t: RecType, limit: nat, picks: seq<nat>): (r: seq<Item>)
    ensures |r| <= limit
    ensures b.Offline? ==> r == []
  {
    match b
    case Offline => []
    case Online(s) => General(s, t, limit, picks)
  }

  /** The product step of the cascade: with a non-empty product id and fewer than `limit`
      items so far, the product strategy's items for the remaining number, without any
      price range, are appended; otherwise nothing runs. */
  function ProductStep(b: Backend, env: Env, productId: Option<string>, t: RecType, limit: nat,
                       sofar: seq<Item>): (r: (seq<Item>, Backend))
    ensures |sofar| <= |r.0| && r.0[..|sofar|] == sofar
    ensures |sofar| <= limit ==> |r.0| <= limit
    ensures !(Truthy(productId) && |sofar| < limit) ==> r == (sofar, b)
    ensures WellTyped(sofar, t) ==> WellTyped(r.0, t)
  {
    if Truthy(productId) && |sofar| < limit then
      var (more, b') := ProductStage(b, env, productId.value, t, limit - |sofar|, None);
      assert (sofar + more)[..|sofar|] == sofar;
      if WellTyped(sofar, t) then ConcatWellTyped(sofar, more, t); (sofar + more, b')
      else (sofar + more, b')
    else (sofar, b)
  }

  /** The popularity step of the cascade: appended only while fewer than `limit` items. */
  function GeneralStep(b: Backend, t: RecType, limit: nat, picks: seq<nat>, sofar: seq<Item>): (r: seq<Item>)
    ensures |sofar| <= |r| && r[..|sofar|] == sofar
    ensures |sofar| <= limit ==> |r| <= limit
    ensures |sofar| >= limit ==> r == sofar
  {
    if |sofar| < limit then
      var r := sofar + GeneralStage(b, t, limit - |sofar|, picks);
      assert r[..|sofar|] == sofar;
      r
    else sofar
  }

  /** `getRecommendations` on its parameters other than the price range, which it does
      not pass on: the user stage, the product step, the popularity step, concatenated
      without deduplication across stages; the user stage's failure fails the request. */
  function Cascade(b: Backend, env: Env, userId: Option<string>, productId: Option<string>,
                   t: RecType, limit: nat): (r: (Result<seq<Item>, EngineError>, Backend))
    ensures r.0.Ok? ==> |r.0.value| <= limit
    ensures r.0.Err? <==> Truthy(userId) && b.Offline?
  {
    match UserStage(b, userId, t, limit)
    case Err(e) => (Err(e), b)
    case Ok(fromUser) =>
      var (withProduct, b') := ProductStep(b, env, productId, t, limit, fromUser);
      (Ok(GeneralStep(b', t, limit, env.picks, withProduct)), b')
  }

  /** `getRecommendations`. */
  function Recommend(b: Backend, env: Env, req: Request): (r: (Result<seq<Item>, EngineError>, Backend))
    ensures r.0.Ok? ==> |r.0.value| <= req.limit
    ensures r.0.Err? <==> Truthy(req.userId) && b.Offline?
  {
    Cascade(b, env, req.userId, req.productId, req.recType, req.limit)
  }

  lemma ConcatWellTyped(xs: seq<Item>, ys: seq<Item>, t: RecType)
    requires WellTyped(xs, t) && WellTyped(ys, t)
    ensures WellTyped(xs + ys, t)
  {
  }

  lemma GeneralStageLabels(b: Backend, t: RecType, limit: nat, picks: seq<nat>)
    ensures WellTyped(GeneralStage(b, t, limit, picks), t)
  {
    if b.Online? {
      GeneralLabels(b.db, t, limit, picks);
    }
  }

  lemma UserStageLabels(b: Backend, userId: Option<string>, t: RecType, limit: nat)
    ensures var r := UserStage(b, userId, t, limit);
      r.Ok? ==> WellTyped(r.value, t)
  {
    if Truthy(userId) && b.Online? {
      var u := GetUserByShopifyId(b.db, userId.value);
      if u.Some? {
        UserBasedLabels(b.db, u.value, t, limit);
      }
    }
  }

  lemma GeneralStepLabels(b: Backend, t: RecType, limit: nat, picks: seq<nat>, sofar: seq<Item>)
    requires WellTyped(sofar, t)
    ensures WellTyped(GeneralStep(b, t, limit, picks, sofar), t)
  {
    if |sofar| < limit {
      var rest := limit - |sofar|;
      GeneralStepCases(b, t, limit, picks, sofar);
      GeneralStageLabels(b, t, rest, picks);
      ConcatWellTyped(sofar, GeneralStage(b, t, rest, picks), t);
    }
  }

  /** Type forcing over the whole cascade: every item of a response is labelled
      cross-sell or up-sell, and with the requested type unless that is 'both'. */
  lemma RecommendLabels(b: Backend, env: Env, req: Request)
    ensures var r := Recommend(b, env, req).0;
      r.Ok? ==> WellTyped(r.value, req.recType)
  {
    var t, limit := req.recType, req.limit;
    var u := UserStage(b, req.userId, t, limit);
    UserStageLabels(b, req.userId, t, limit);
    if u.Ok? {
      var (withProduct, b') := ProductStep(b, env, req.productId, t, limit, u.value);
      GeneralStepLabels(b', t, limit, env.picks, withProduct);
    }
  }

  /** The response once the user stage has answered and the product step has run. */
  lemma CascadeResponse(b: Backend, env: Env, req: Request, fromUser: seq<Item>,
                         withProduct: seq<Item>, b1: Backend)
    requires UserStage(b, req.userId, req.recType, req.limit) == Ok(fromUser)
    requires (withProduct, b1) == ProductStep(b, env, req.productId, req.recType, req.limit, fromUser)
    ensures Recommend(b, env, req) == (Ok(GeneralStep(b1, req.recType, req.limit, env.picks, withProduct)), b1)
  {
    CascadeAfterUser(b, env, req, fromUser);
  }

  /** The cascade never removes what an earlier stage produced: the user items and the
      user-plus-product items are prefixes of the response. */
  lemma CascadePrefixes(b: Backend, env: Env, req: Request, fromUser: seq<Item>,
                         withProduct: seq<Item>, b1: Backend)
    requires UserStage(b, req.userId, req.recType, req.limit) == Ok(fromUser)
    requires (withProduct, b1) == ProductStep(b, env, req.productId, req.recType, req.limit, fromUser)
    ensures Recommend(b, env, req).0.Ok?
    ensures |fromUser| <= |withProduct| <= |Recommend(b, env, req).0.value|
    ensures Recommend(b, env, req).0.value[..|fromUser|] == fromUser
    ensures Recommend(b, env, req).0.value[..|withProduct|] == withProduct
  {
    CascadeResponse(b, env, req, fromUser, withProduct, b1);
    PrefixOfPrefix(GeneralStep(b1, req.recType, req.limit, env.picks, withProduct), withProduct, fromUser);
  }

  /** User items that fill `limit` end the cascade: nothing else runs and the store is
      untouched. */
  lemma CascadeFilledByUser(b: Backend, env: Env, req: Request, fromUser: seq<Item>,
                         withProduct: seq<Item>, b1: Backend)
    requires UserStage(b, req.userId, req.recType, req.limit) == Ok(fromUser)
    requires (withProduct, b1) == ProductStep(b, env, req.productId, req.recType, req.limit, fromUser)
    requires |fromUser| >= req.limit
    ensures Recommend(b, env, req) == (Ok(fromUser), b)
  {
    CascadeResponse(b, env, req, fromUser, withProduct, b1);
  }

  /** The product step: without a product id the store is untouched; with one, while the
      user items are short of `limit`, the product items for the remaining room follow
      them, with no deduplication across the two. */
  lemma CascadeProductStep(b: Backend, env: Env, req: Request, fromUser: seq<Item>,
                         withProduct: seq<Item>, b1: Backend)
    requires UserStage(b, req.userId, req.recType, req.limit) == Ok(fromUser)
    requires (withProduct, b1) == ProductStep(b, env, req.productId, req.recType, req.limit, fromUser)
    ensures !Truthy(req.productId) ==> b1 == b
    ensures Truthy(req.productId) && |fromUser| < req.limit ==>
              withProduct == fromUser + ProductStage(b, env, req.productId.value, req.recType, req.limit - |fromUser|, None).0
  {
    ProductStepCases(b, env, req.productId, req.recType, req.limit, fromUser);
  }

  /** The popularity step: while the response is short of `limit`, the popular items for
      the remaining room follow the earlier ones, with no deduplication across stages;
      otherwise the response is the earlier items. */
  lemma CascadeGeneralStep(b: Backend, env: Env, req: Request, fromUser: seq<Item>,
                         withProduct: seq<Item>, b1: Backend)
    requires UserStage(b, req.userId, req.recType, req.limit) == Ok(fromUser)
    requires (withProduct, b1) == ProductStep(b, env, req.productId, req.recType, req.limit, fromUser)
    ensures |withProduct| < req.limit ==>
              Recommend(b, env, req).0.value == withProduct + GeneralStage(b1, req.recType, req.limit - |withProduct|, env.picks)
    ensures |withProduct| >= req.limit ==> Recommend(b, env, req).0.value == withProduct
  {
    CascadeResponse(b, env, req, fromUser, withProduct, b1);
    GeneralStepCases(b1, req.recType, req.limit, env.picks, withProduct);
  }


  /** The cascade ignores the request's price range. */
  lemma PriceRangeNotForwarded(b: Backend, env: Env, req: Request, other: Option<string>)
    ensures Recommend(b, env, req) == Recommend(b, env, req.(priceRange := other))
  {
  }

  /** With the store failing, a request naming a user fails, and any other request
      succeeds with no items. */
  lemma OfflineOutcome(env: Env, req: Request)
    ensures Recommend(Offline, env, req) ==
              (if Truthy(req.userId) then (Err(StoreUnavailable), Offline) else (Ok([]), Offline))
  {
  }

  /** The product step when it runs. */
  lemma ProductStepCases(b: Backend, env: Env, productId: Option<string>, t: RecType, limit: nat, sofar: seq<Item>)
    ensures Truthy(productId) && |sofar| < limit ==>
              ProductStep(b, env, productId, t, limit, sofar) ==
                (sofar + ProductStage(b, env, productId.value, t, limit - |sofar|, None).0,
                 ProductStage(b, env, productId.value, t, limit - |sofar|, None).1)
  {
  }

  /** The popularity step, by whether it runs. */
  lemma GeneralStepCases(b: Backend, t: RecType, limit: nat, picks: seq<nat>, sofar: seq<Item>)
    ensures |sofar| < limit ==> GeneralStep(b, t, limit, picks, sofar) == sofar + GeneralStage(b, t, limit - |sofar|, picks)
    ensures |sofar| >= limit ==> GeneralStep(b, t, limit, picks, sofar) == sofar
  {
  }

  /** The cascade once the user stage has answered. */
  lemma CascadeAfterUser(b: Backend, env: Env, req: Request, fromUser: seq<Item>)
    requires UserStage(b, req.userId, req.recType, req.limit) == Ok(fromUser)
    ensures var (withProduct, b') := ProductStep(b, env, req.productId, req.recType, req.limit, fromUser);
      Recommend(b, env, req) == (Ok(GeneralStep(b', req.recType, req.limit, env.picks, withProduct)), b')
  {
  }

  /** The product strategy's candidates once the graph neighbours are known, with the
      category additions. */
  lemma CandidatesBroadened(s: Snapshot, src: SourceState, productId: string, t: RecType, limit: nat,
                            priceRange: Option<string>, graph: seq<Product>, added: seq<Product>)
    requires graph == ApplyWindow(GraphCandidates(s, productId, t), PriceWindow(priceRange, t))
    requires |graph| < limit && src.Found?
    requires added == Broadening(s, src.product, productId, t)
    ensures ProductCandidates(s, src, productId, t, limit, priceRange) == graph + added
  {
  }

  /** The product strategy's candidates once the graph neighbours are known, without
      the category additions. */
  lemma CandidatesNotBroadened(s: Snapshot, src: SourceState, productId: string, t: RecType, limit: nat,
                               priceRange: Option<string>, graph: seq<Product>)
    requires graph == ApplyWindow(GraphCandidates(s, productId, t), PriceWindow(priceRange, t))
    requires !(|graph| < limit && src.Found?)
    ensures ProductCandidates(s, src, productId, t, limit, priceRange) == graph
  {
  }

  /** The product stage on a store that answers, once the source is resolved. */
  lemma ProductStageResolved(b: Backend, env: Env, productId: string, t: RecType, limit: nat,
                             priceRange: Option<string>, src: SourceState, s': Snapshot, selected: seq<Product>)
    requires b.Online? && ResolveSource(b.db, env, productId) == (src, s') && !src.Missing?
    requires selected == Select(ProductCandidates(s', src, productId, t, limit, priceRange), limit)
    ensures ProductStage(b, env, productId, t, limit, priceRange) ==
              (ProductItems(selected, t, SourcePrice(src)), Online(s'))
  {
  }

  /** The product stage on a store that answers, when there is no source product. */
  lemma ProductStageMissing(b: Backend, env: Env, productId: string, t: RecType, limit: nat,
                            priceRange: Option<string>)
    requires b.Online? && ResolveSource(b.db, env, productId).0.Missing?
    ensures ProductStage(b, env, productId, t, limit, priceRange) == ([], b)
  {
  }

  // ---------------------------------------------------------------- the source's methods

  method GetUserBasedRecommendations(s: Snapshot, user: User, t: RecType, limit: nat) returns (items: seq<Item>)
    ensures items == UserBased(s, user, t, limit)
  {
    var purchases := Entries(user.fields.purchaseHistory);
    var productIds := HistoryIds(purchases, 10);
    if |productIds| > 0 {
      var relatedProducts := RelatedOfAll(s, productIds, t);
      relatedProducts := DedupById(relatedProducts);
      items := UserItems(Take(relatedProducts, limit), t, PurchaseReason);
      return;
    }
    var browsed := Entries(user.fields.browsedProducts);
    if |browsed| > 0 {
      var browsedIds := HistoryIds(browsed, 5);
      var relatedProducts := RelatedOfAll(s, browsedIds, t);
      relatedProducts := DedupById(relatedProducts);
      items := UserItems(Take(relatedProducts, limit), t, ViewedReason);
      return;
    }
    items := [];
  }

  method GetProductBasedRecommendations(b: Backend, env: Env, productId: string, t: RecType, limit: nat,
                                        priceRange: Option<string>) returns (items: seq<Item>, b': Backend)
    ensures (items, b') == ProductStage(b, env, productId, t, limit, priceRange)
  {
    if b.Offline? {
      return [], b;
    }
    var s := b.db;
    var sourceProduct := GetProductByShopifyId(s, productId);
    if sourceProduct.None? {
      if productId !in env.catalog {
        ProductStageMissing(b, env, productId, t, limit, priceRange);
        return [], b;
      }
      var product := ConvertShopifyProduct(env.catalog[productId], env.shopName);
      if product.None? {
        ProductStageMissing(b, env, productId, t, limit, priceRange);
        return [], b;
      }
      s := AddProduct(s, product.value, env.now).0;
    }
    ghost var src := if sourceProduct.Some? then Found(sourceProduct.value) else Ingested;
    assert ResolveSource(b.db, env, productId) == (src, s);
    var relatedProducts: seq<Product> := [];
    if t == CrossSell || t == Both {
      relatedProducts := relatedProducts + RelatedProducts(s, productId, "cross-sell");
    }
    if t == UpSell || t == Both {
      relatedProducts := relatedProducts + RelatedProducts(s, productId, "up-sell");
    }
    if Truthy(priceRange) && t != CrossSell {
      var bounds := ParseRange(priceRange.value);
      if bounds.Some? {
        relatedProducts := Filter(relatedProducts, PriceBetween(bounds.value.0, bounds.value.1));
      }
    }
    assert relatedProducts == ApplyWindow(GraphCandidates(s, productId, t), PriceWindow(priceRange, t));
    if |relatedProducts| < limit && sourceProduct.Some? {
      var source := sourceProduct.value;
      var categoryProducts := GetProductsByCategory(s, OrEmpty(source.fields.category), 20);
      var additionalProducts := Filter(categoryProducts, NotShopifyId(productId));
      var filteredProducts;
      if t == CrossSell {
        filteredProducts := Filter(additionalProducts, SimilarPrice(source.fields.price));
      } else if t == UpSell {
        filteredProducts := SortByPrice(Ascending, Filter(additionalProducts, UpgradePrice(source.fields.price)));
      } else {
        filteredProducts := additionalProducts;
      }
      assert filteredProducts == Broadening(s, source, productId, t);
      CandidatesBroadened(s, src, productId, t, limit, priceRange, relatedProducts, filteredProducts);
      relatedProducts := relatedProducts + filteredProducts;
    } else {
      CandidatesNotBroadened(s, src, productId, t, limit, priceRange, relatedProducts);
    }
    relatedProducts := DedupById(relatedProducts);
    var sourcePrice := if sourceProduct.Some? then Some(sourceProduct.value.fields.price) else None;
    var selected := Take(relatedProducts, limit);
    ProductStageResolved(b, env, productId, t, limit, priceRange, src, s, selected);
    items := ProductItems(selected, t, sourcePrice);
    b' := Online(s);
  }

  method GetGeneralRecommendations(b: Backend, t: RecType, limit: nat, picks: seq<nat>) returns (items: seq<Item>)
    ensures items == GeneralStage(b, t, limit, picks)
  {
    if b.Offline? {
      return [];
    }
    var products := GetProducts(b.db, 30);
    var filteredProducts: seq<Product> := [];
    if |products| > 0 {
      if t == CrossSell || t == Both {
        var lowerPriceProducts := Shuffle(Filter(products, IsCheap), picks);
        filteredProducts := filteredProducts + lowerPriceProducts;
      }
      if t == UpSell || t == Both {
        var higherPriceProducts := SortByPrice(Descending, Filter(products, IsPremium));
        filteredProducts := filteredProducts + higherPriceProducts;
      }
    }
    if |filteredProducts| < limit {
      filteredProducts := filteredProducts + products;
    }
    assert filteredProducts == GeneralCandidates(products, t, limit, picks);
    filteredProducts := DedupById(filteredProducts);
    items := GeneralItems(Take(filteredProducts, limit), t);
    assert items == General(b.db, t, limit, picks);
  }

  /** `getRecommendations`: the destructuring defaults, then the cascade. */
  method GetRecommendations(b: Backend, env: Env, params: Params)
    returns (response: Result<seq<Item>, EngineError>, b': Backend)
    ensures (response, b') == Recommend(b, env, WithDefaults(params))
  {
    response, b' := RecommendFor(b, env, WithDefaults(params));
  }

  /** The body of `getRecommendations` once the defaults are applied: the response is
      reassigned stage by stage. */
  method RecommendFor(b: Backend, env: Env, req: Request)
    returns (response: Result<seq<Item>, EngineError>, b': Backend)
    ensures (response, b') == Recommend(b, env, req)
  {
    var userId, productId, t, limit := req.userId, req.productId, req.recType, req.limit;
    var recommendations: seq<Item> := [];
    b' := b;
    if Truthy(userId) {
      if b.Offline? {
        return Err(StoreUnavailable), b;
      }
      var user := GetUserByShopifyId(b.db, userId.value);
      if user.Some? {
        recommendations := GetUserBasedRecommendations(b.db, user.value, t, limit);
      }
    }
    assert UserStage(b, userId, t, limit) == Ok(recommendations);
    ghost var fromUser := recommendations;
    if Truthy(productId) && |recommendations| < limit {
      var rest := limit - |recommendations|;
      var additionalRecommendations;
      additionalRecommendations, b' := GetProductBasedRecommendations(b, env, productId.value, t, rest, None);
      ProductStepCases(b, env, productId, t, limit, recommendations);
      recommendations := recommendations + additionalRecommendations;
    }
    assert (recommendations, b') == ProductStep(b, env, productId, t, limit, fromUser);
    ghost var withProduct := recommendations;
    if |recommendations| < limit {
      var rest := limit - |recommendations|;
      var generalRecommendations := GetGeneralRecommendations(b', t, rest, env.picks);
      GeneralStepCases(b', t, limit, env.picks, recommendations);
      recommendations := recommendations + generalRecommendations;
    }
    assert recommendations == GeneralStep(b', t, limit, env.picks, withProduct);
    CascadeAfterUser(b, env, req, fromUser);
    response := Ok(recommendations);
  }

  /** `getCrossSellRecommendations`: the product strategy forced to cross-sell; it never
      fails, since the strategy catches its own errors. */
  method GetCrossSellRecommendations(b: Backend, env: Env, productId: string, limit: nat)
    returns (response: Result<seq<Item>, EngineError>, b': Backend)
    ensures response.Ok? && |response.value| <= limit
    ensures forall it :: it in response.value ==> it.recType == CrossSell && it.reason == "Frequently bought together"
    ensures (response.value, b') == ProductStage(b, env, productId, CrossSell, limit, None)
  {
    var recommendations;
    recommendations, b' := GetProductBasedRecommendations(b, env, productId, CrossSell, limit, None);
    if b.Online? {
      ProductBasedLabels(b.db, env, productId, CrossSell, limit, None);
    }
    response := Ok(recommendations);
  }

  /** `getUpSellRecommendations`: the product strategy forced to up-sell, with the price
      range passed on. */
  method GetUpSellRecommendations(b: Backend, env: Env, productId: string, priceRange: Option<string>, limit: nat)
    returns (response: Result<seq<Item>, EngineError>, b': Backend)
    ensures response.Ok? && |response.value| <= limit
    ensures forall it :: it in response.value ==> it.recType == UpSell && it.reason == "Upgrade option"
    ensures (response.value, b') == ProductStage(b, env, productId, UpSell, limit, priceRange)
  {
    var recommendations;
    recommendations, b' := GetProductBasedRecommendations(b, env, productId, UpSell, limit, priceRange);
    if b.Online? {
      ProductBasedLabels(b.db, env, productId, UpSell, limit, priceRange);
    }
    response := Ok(recommendations);
  }
}
