/** The in-memory store (`MemStorage`) behind the `IStorage` contract.

    Each of its four JavaScript `Map`s is keyed by an id that a per-table counter hands
    out, so iterating a map visits its entries in insertion order, which is also id order.
    A table is therefore a sequence of records in insertion order; `Map.get(id)` is the
    record with that id and `Map.set` on an existing id replaces it in place.

    The store's state as a value is a `Snapshot`. The lookups are functions of a
    snapshot (the source writes them as `find` / `filter` / `slice` expressions), the
    creations and the update are transitions between snapshots, and the class
    `MemStorage` holds the same fields and changes them in place. */
module Storage {
  import opened Wrappers
  import opened Seqs
  import opened Schema

  datatype Snapshot = Snapshot(
    users: seq<User>,
    apiKeys: seq<ApiKey>,
    products: seq<Product>,
    relationships: seq<ProductRelationship>,
    userIdCounter: int,
    apiKeyIdCounter: int,
    productIdCounter: int,
    relationshipIdCounter: int)

  /** The state the constructor creates: empty tables, every counter at 1. */
  function Empty(): Snapshot {
    Snapshot([], [], [], [], 1, 1, 1, 1)
  }

  datatype StoreError = ProductNotFound(id: int)

  /** The store as its callers reach it: answering from its current state, or failing
      (throwing) on every call. */
  datatype Backend = Online(db: Snapshot) | Offline

  // ---------------------------------------------------------------- invariant

  function UserKey(u: User): int { u.id }
  function ApiKeyKey(k: ApiKey): int { k.id }
  function ProductKey(p: Product): int { p.id }
  function RelationshipKey(r: ProductRelationship): int { r.id }

  /** The ids of a table strictly increase in insertion order and lie in [1, counter). */
  ghost predicate IdsInOrder<T>(xs: seq<T>, key: T -> int, counter: int) {
    && (forall i, j :: 0 <= i < j < |xs| ==> key(xs[i]) < key(xs[j]))
    && (forall i :: 0 <= i < |xs| ==> 1 <= key(xs[i]) < counter)
  }

  /** What every reachable state of the store satisfies. */
  ghost predicate WellFormed(s: Snapshot) {
    && s.userIdCounter >= 1 && s.apiKeyIdCounter >= 1
    && s.productIdCounter >= 1 && s.relationshipIdCounter >= 1
    && IdsInOrder(s.users, UserKey, s.userIdCounter)
    && IdsInOrder(s.apiKeys, ApiKeyKey, s.apiKeyIdCounter)
    && IdsInOrder(s.products, ProductKey, s.productIdCounter)
    && IdsInOrder(s.relationships, RelationshipKey, s.relationshipIdCounter)
  }

  lemma EmptyIsWellFormed()
    ensures WellFormed(Empty())
  {
  }

  lemma AppendInOrder<T>(xs: seq<T>, key: T -> int, counter: int, x: T)
    requires counter >= 1 && IdsInOrder(xs, key, counter) && key(x) == counter
    ensures IdsInOrder(xs + [x], key, counter + 1)
  {
  }

  lemma ReplaceInOrder<T>(xs: seq<T>, key: T -> int, counter: int, i: nat, y: T)
    requires i < |xs| && IdsInOrder(xs, key, counter) && key(y) == key(xs[i])
    ensures IdsInOrder(xs[i := y], key, counter)
  {
  }

  // ---------------------------------------------------------------- lookups

  function UserIdIs(id: int): User -> bool { (u: User) => u.id == id }
  function UsernameIs(name: string): User -> bool { (u: User) => u.fields.username == name }
  function UserShopifyIdIs(id: string): User -> bool { (u: User) => u.fields.shopifyId == id }
  function KeyIs(key: string): ApiKey -> bool { (k: ApiKey) => k.fields.key == key }
  function ShopifyIdIs(id: string): Product -> bool { (p: Product) => p.fields.shopifyId == id }
  function InCategory(c: string): Product -> bool { (p: Product) => p.fields.category == Some(c) }

  /** `getUser(id)`, that is `users.get(id)`. */
  function GetUser(s: Snapshot, id: int): (r: Option<User>)
    ensures IsEarliest(s.users, UserIdIs(id), r)
  {
    FindIsEarliest(s.users, UserIdIs(id));
    Find(s.users, UserIdIs(id))
  }

  /** `getUserByUsername`: the earliest-inserted user with that username. Uniqueness is
      not enforced by the store. */
  function GetUserByUsername(s: Snapshot, username: string): (r: Option<User>)
    ensures IsEarliest(s.users, UsernameIs(username), r)
  {
    FindIsEarliest(s.users, UsernameIs(username));
    Find(s.users, UsernameIs(username))
  }

  /** `getUserByShopifyId`: the earliest-inserted user with that external id. */
  function GetUserByShopifyId(s: Snapshot, shopifyId: string): (r: Option<User>)
    ensures IsEarliest(s.users, UserShopifyIdIs(shopifyId), r)
  {
    FindIsEarliest(s.users, UserShopifyIdIs(shopifyId));
    Find(s.users, UserShopifyIdIs(shopifyId))
  }

  /** `getApiKeys`: every key, in insertion order. */
  function GetApiKeys(s: Snapshot): (r: seq<ApiKey>)
    ensures r == s.apiKeys
  {
    s.apiKeys
  }

  /** `getApiKeyByKey`: the earliest-inserted API key record with that key text. */
  function GetApiKeyByKey(s: Snapshot, key: string): (r: Option<ApiKey>)
    ensures IsEarliest(s.apiKeys, KeyIs(key), r)
  {
    FindIsEarliest(s.apiKeys, KeyIs(key));
    Find(s.apiKeys, KeyIs(key))
  }

  /** `products.get(id)`. */
  function GetProduct(s: Snapshot, id: int): (r: Option<Product>)
    ensures IsEarliest(s.products, ProductIdIs(id), r)
  {
    FindIsEarliest(s.products, ProductIdIs(id));
    Find(s.products, ProductIdIs(id))
  }

  /** `getProductByShopifyId`: the earliest-inserted product with that external id. */
  function GetProductByShopifyId(s: Snapshot, shopifyId: string): (r: Option<Product>)
    ensures IsEarliest(s.products, ShopifyIdIs(shopifyId), r)
  {
    FindIsEarliest(s.products, ShopifyIdIs(shopifyId));
    Find(s.products, ShopifyIdIs(shopifyId))
  }

  /** `getProducts(limit)`: the first `limit` products in insertion order. */
  function GetProducts(s: Snapshot, limit: nat): (r: seq<Product>)
    ensures |r| == if limit < |s.products| then limit else |s.products|
    ensures forall i :: 0 <= i < |r| ==> r[i] == s.products[i]
  {
    Take(s.products, limit)
  }

  /** `getProductsByCategory(category, limit)`: the first `limit` products, in insertion
      order, whose category is exactly `category` (a product without one never matches). */
  function GetProductsByCategory(s: Snapshot, category: string, limit: nat): (r: seq<Product>)
    ensures |r| <= limit
    ensures forall p :: p in r ==> p in s.products && p.fields.category == Some(category)
    ensures var all := Filter(s.products, InCategory(category));
            |r| <= |all| && r == all[..|r|] && (|r| == limit || r == all)
  {
    var all := Filter(s.products, InCategory(category));
    var r := Take(all, limit);
    FilterMembers(s.products, InCategory(category));
    assert forall p :: p in r ==> p in all;
    r
  }

  // ---------------------------------------------------------------- relationship graph

  function EdgeMatches(sourceId: int, relType: string): ProductRelationship -> bool {
    (e: ProductRelationship) =>
      e.fields.sourceProductId == sourceId && (relType == "both" || e.fields.relationshipType == relType)
  }

  /** The edges leaving `sourceId`, in insertion order: all of them for "both", otherwise
      those whose relationship type is exactly `relType`. */
  function EdgesFrom(s: Snapshot, sourceId: int, relType: string): seq<ProductRelationship> {
    Filter(s.relationships, EdgeMatches(sourceId, relType))
  }

  /** The products the edges point to, in edge order, skipping edges whose related
      product is not in the store. */
  function Targets(s: Snapshot, edges: seq<ProductRelationship>): (r: seq<Product>)
    ensures |r| <= |edges|
    ensures forall p :: p in r ==> p in s.products
  {
    if edges == [] then []
    else
      var rest := Targets(s, edges[..|edges| - 1]);
      match GetProduct(s, edges[|edges| - 1].fields.relatedProductId)
      case Some(p) => rest + [p]
      case None => rest
  }

  /** `getRelatedProductsByShopifyId(shopifyId, relType)`. */
  function RelatedProducts(s: Snapshot, shopifyId: string, relType: string): (r: seq<Product>)
    ensures GetProductByShopifyId(s, shopifyId).None? ==> r == []
    ensures GetProductByShopifyId(s, shopifyId).Some? ==>
              |r| <= |EdgesFrom(s, GetProductByShopifyId(s, shopifyId).value.id, relType)|
    ensures forall p :: p in r ==> p in s.products
  {
    match GetProductByShopifyId(s, shopifyId)
    case None => []
    case Some(source) => Targets(s, EdgesFrom(s, source.id, relType))
  }

  /** A product found by internal id carries that id. */
  lemma GetProductHasId(s: Snapshot, id: int)
    ensures GetProduct(s, id).Some? ==> GetProduct(s, id).value.id == id
  {
    var i := FirstIndex(s.products, ProductIdIs(id));
    if i.Some? {
      assert ProductIdIs(id)(s.products[i.value]);
    }
  }

  /** When every edge points at a stored product, nothing is skipped: the i-th result is
      the product the i-th edge points at. */
  lemma {:induction false} TargetsComplete(s: Snapshot, edges: seq<ProductRelationship>)
    requires forall e :: e in edges ==> GetProduct(s, e.fields.relatedProductId).Some?
    ensures |Targets(s, edges)| == |edges|
    ensures forall i :: 0 <= i < |edges| ==> Targets(s, edges)[i].id == edges[i].fields.relatedProductId
  {
    if edges != [] {
      var init, last := edges[..|edges| - 1], edges[|edges| - 1];
      forall e | e in init ensures GetProduct(s, e.fields.relatedProductId).Some? {
        assert e in edges;
      }
      TargetsComplete(s, init);
      assert last in edges;
      var p := GetProduct(s, last.fields.relatedProductId);
      GetProductHasId(s, last.fields.relatedProductId);
      var r := Targets(s, edges);
      assert r == Targets(s, init) + [p.value];
      forall i | 0 <= i < |edges| ensures r[i].id == edges[i].fields.relatedProductId {
        if i < |init| {
          assert r[i] == Targets(s, init)[i] && edges[i] == init[i];
        }
      }
    }
  }

  /** A product is a result exactly when some edge points at it; an edge whose
      related product is not stored contributes nothing. */
  lemma {:induction false} TargetsMembers(s: Snapshot, edges: seq<ProductRelationship>)
    ensures forall p :: p in Targets(s, edges) <==>
              exists e :: e in edges && GetProduct(s, e.fields.relatedProductId) == Some(p)
  {
    if edges != [] {
      var init, last := edges[..|edges| - 1], edges[|edges| - 1];
      TargetsMembers(s, init);
      assert edges == init + [last];
      forall p ensures p in Targets(s, edges) <==>
                 exists e :: e in edges && GetProduct(s, e.fields.relatedProductId) == Some(p)
      {
        if p in Targets(s, edges) {
          if p in Targets(s, init) {
            var e :| e in init && GetProduct(s, e.fields.relatedProductId) == Some(p);
            assert e in edges;
          } else {
            assert GetProduct(s, last.fields.relatedProductId) == Some(p);
            assert last in edges;
          }
        }
        if exists e :: e in edges && GetProduct(s, e.fields.relatedProductId) == Some(p) {
          var e :| e in edges && GetProduct(s, e.fields.relatedProductId) == Some(p);
          if e != last {
            assert e in init;
          }
        }
      }
    }
  }

  /** One edge gives its related product when that is stored, and nothing otherwise. */
  lemma TargetsOfEdge(s: Snapshot, e: ProductRelationship)
    ensures Targets(s, [e]) == match GetProduct(s, e.fields.relatedProductId)
                               case Some(p) => [p]
                               case None => []
  {
    assert [e][..0] == [];
  }

  /** The walk visits the edges in order: the results for a list of edges are the
      results for its two halves, concatenated. */
  lemma {:induction false} TargetsAppend(s: Snapshot, a: seq<ProductRelationship>, b: seq<ProductRelationship>)
    ensures Targets(s, a + b) == Targets(s, a) + Targets(s, b)
    decreases |b|
  {
    if b == [] {
      assert a + b == a;
    } else {
      var ab, b' := a + b, b[..|b| - 1];
      assert ab[..|ab| - 1] == a + b';
      assert ab[|ab| - 1] == b[|b| - 1];
      TargetsAppend(s, a, b');
      match GetProduct(s, b[|b| - 1].fields.relatedProductId)
      case Some(p) =>
        assert Targets(s, ab) == Targets(s, a) + Targets(s, b') + [p];
      case None =>
    }
  }

  /** The related products of a stored source are exactly the stored products that some
      matching edge leaving it points at. */
  lemma RelatedMembers(s: Snapshot, shopifyId: string, relType: string, p: Product)
    requires GetProductByShopifyId(s, shopifyId).Some?
    ensures var source := GetProductByShopifyId(s, shopifyId).value;
      p in RelatedProducts(s, shopifyId, relType) <==>
        exists e :: && e in s.relationships && e.fields.sourceProductId == source.id
                    && (relType == "both" || e.fields.relationshipType == relType)
                    && GetProduct(s, e.fields.relatedProductId) == Some(p)
  {
    var source := GetProductByShopifyId(s, shopifyId).value;
    var edges := EdgesFrom(s, source.id, relType);
    TargetsMembers(s, edges);
    forall e ensures e in edges <==> e in s.relationships && e.fields.sourceProductId == source.id
                                     && (relType == "both" || e.fields.relationshipType == relType) {
      EdgesFromSelection(s, source.id, relType, e);
    }
  }

  /** The edges followed for "both" are exactly the edges leaving the source, and those
      followed for any other type are the ones among them with that type. */
  lemma EdgesFromSelection(s: Snapshot, sourceId: int, relType: string, e: ProductRelationship)
    ensures e in EdgesFrom(s, sourceId, relType) <==>
              e in s.relationships && e.fields.sourceProductId == sourceId
              && (relType == "both" || e.fields.relationshipType == relType)
  {
    FilterMembers(s.relationships, EdgeMatches(sourceId, relType));
    assert EdgeMatches(sourceId, relType)(e) <==>
      e.fields.sourceProductId == sourceId && (relType == "both" || e.fields.relationshipType == relType);
  }

  // ---------------------------------------------------------------- transitions

  /** `createUser`: the new user takes the counter as id, which then advances. */
  function AddUser(s: Snapshot, data: UserFields, now: int): (Snapshot, User) {
    var user := User(s.userIdCounter, data, now, now);
    (s.(users := s.users + [user], userIdCounter := s.userIdCounter + 1), user)
  }

  /** `createApiKey`. */
  function AddApiKey(s: Snapshot, data: ApiKeyFields): (Snapshot, ApiKey) {
    var key := ApiKey(s.apiKeyIdCounter, data);
    (s.(apiKeys := s.apiKeys + [key], apiKeyIdCounter := s.apiKeyIdCounter + 1), key)
  }

  /** `createProduct`. */
  function AddProduct(s: Snapshot, data: ProductFields, now: int): (Snapshot, Product) {
    var product := Product(s.productIdCounter, data, now, now);
    (s.(products := s.products + [product], productIdCounter := s.productIdCounter + 1), product)
  }

  /** `createProductRelationship`. */
  function AddRelationship(s: Snapshot, data: RelationshipFields, now: int): (Snapshot, ProductRelationship) {
    var rel := ProductRelationship(s.relationshipIdCounter, data, now);
    (s.(relationships := s.relationships + [rel], relationshipIdCounter := s.relationshipIdCounter + 1), rel)
  }

  /** `updateProduct(id, patch)`: throws for an unknown id; otherwise the product keeps its
      id, creation time and place in the table, takes the supplied columns and is stamped. */
  function PatchProduct(s: Snapshot, id: int, patch: ProductPatch, now: int): Result<(Snapshot, Product), StoreError> {
    match FirstIndex(s.products, ProductIdIs(id))
    case None => Err(ProductNotFound(id))
    case Some(i) =>
      var existing := s.products[i];
      var updated := Product(existing.id, Patched(existing.fields, patch), existing.createdAt, now);
      Ok((s.(products := s.products[i := updated]), updated))
  }

  /** The four creations keep the invariant. */
  lemma AddUserWellFormed(s: Snapshot, data: UserFields, now: int)
    requires WellFormed(s)
    ensures WellFormed(AddUser(s, data, now).0)
  {
    AppendInOrder(s.users, UserKey, s.userIdCounter, AddUser(s, data, now).1);
  }

  lemma AddApiKeyWellFormed(s: Snapshot, data: ApiKeyFields)
    requires WellFormed(s)
    ensures WellFormed(AddApiKey(s, data).0)
  {
    AppendInOrder(s.apiKeys, ApiKeyKey, s.apiKeyIdCounter, AddApiKey(s, data).1);
  }

  lemma AddProductWellFormed(s: Snapshot, data: ProductFields, now: int)
    requires WellFormed(s)
    ensures WellFormed(AddProduct(s, data, now).0)
  {
    AppendInOrder(s.products, ProductKey, s.productIdCounter, AddProduct(s, data, now).1);
  }

  lemma AddRelationshipWellFormed(s: Snapshot, data: RelationshipFields, now: int)
    requires WellFormed(s)
    ensures WellFormed(AddRelationship(s, data, now).0)
  {
    AppendInOrder(s.relationships, RelationshipKey, s.relationshipIdCounter, AddRelationship(s, data, now).1);
  }

  /** Creating a user: the id is the old counter, fresh and above every existing id; the
      user table gains exactly that entry at its end, `getUser` of the new id finds it and
      of any other id is unchanged; the other tables are untouched and the state stays valid. */
  lemma AddUserFootprint(s: Snapshot, data: UserFields, now: int)
    requires WellFormed(s)
    ensures var (s', u) := AddUser(s, data, now);
      && WellFormed(s')
      && u.id == s.userIdCounter && u.fields == data && u.createdAt == now == u.updatedAt
      && (forall v :: v in s.users ==> v.id < u.id)
      && s'.users == s.users + [u]
      && GetUser(s', u.id) == Some(u)
      && (forall id :: id != u.id ==> GetUser(s', id) == GetUser(s, id))
      && s'.apiKeys == s.apiKeys && s'.products == s.products && s'.relationships == s.relationships
  {
    var (s', u) := AddUser(s, data, now);
    AppendInOrder(s.users, UserKey, s.userIdCounter, u);
    FindAppend(s.users, u, UserIdIs(u.id));
    forall id | id != u.id ensures GetUser(s', id) == GetUser(s, id) {
      FindAppend(s.users, u, UserIdIs(id));
    }
  }

  /** Creating an API key: fresh id from the counter, one entry appended, nothing else changed. */
  lemma AddApiKeyFootprint(s: Snapshot, data: ApiKeyFields)
    requires WellFormed(s)
    ensures var (s', k) := AddApiKey(s, data);
      && WellFormed(s')
      && k.id == s.apiKeyIdCounter && k.fields == data
      && (forall j :: j in s.apiKeys ==> j.id < k.id)
      && s'.apiKeys == s.apiKeys + [k]
      && s'.users == s.users && s'.products == s.products && s'.relationships == s.relationships
  {
    var (s', k) := AddApiKey(s, data);
    AppendInOrder(s.apiKeys, ApiKeyKey, s.apiKeyIdCounter, k);
  }

  /** Creating a product: fresh id from the counter, one entry appended, `products.get`
      of the new id finds it and of any other id is unchanged, other tables untouched. */
  lemma AddProductFootprint(s: Snapshot, data: ProductFields, now: int)
    requires WellFormed(s)
    ensures var (s', p) := AddProduct(s, data, now);
      && WellFormed(s')
      && p.id == s.productIdCounter && p.fields == data && p.createdAt == now == p.updatedAt
      && (forall q :: q in s.products ==> q.id < p.id)
      && s'.products == s.products + [p]
      && GetProduct(s', p.id) == Some(p)
      && (forall id :: id != p.id ==> GetProduct(s', id) == GetProduct(s, id))
      && s'.users == s.users && s'.apiKeys == s.apiKeys && s'.relationships == s.relationships
  {
    var (s', p) := AddProduct(s, data, now);
    AppendInOrder(s.products, ProductKey, s.productIdCounter, p);
    FindAppend(s.products, p, ProductIdIs(p.id));
    forall id | id != p.id ensures GetProduct(s', id) == GetProduct(s, id) {
      FindAppend(s.products, p, ProductIdIs(id));
    }
  }

  /** Creating a relationship: fresh id from the counter, one edge appended, nothing else changed. */
  lemma AddRelationshipFootprint(s: Snapshot, data: RelationshipFields, now: int)
    requires WellFormed(s)
    ensures var (s', e) := AddRelationship(s, data, now);
      && WellFormed(s')
      && e.id == s.relationshipIdCounter && e.fields == data && e.createdAt == now
      && (forall f :: f in s.relationships ==> f.id < e.id)
      && s'.relationships == s.relationships + [e]
      && s'.users == s.users && s'.apiKeys == s.apiKeys && s'.products == s.products
  {
    var (s', e) := AddRelationship(s, data, now);
    AppendInOrder(s.relationships, RelationshipKey, s.relationshipIdCounter, e);
  }

  /** Ids handed out by successive creations strictly increase. */
  lemma AddProductIdsIncrease(s: Snapshot, a: ProductFields, b: ProductFields, now: int, later: int)
    requires WellFormed(s)
    ensures var (s1, p) := AddProduct(s, a, now);
            var (s2, q) := AddProduct(s1, b, later);
            p.id < q.id && WellFormed(s2) && s2.products == s.products + [p, q]
  {
    AddProductFootprint(s, a, now);
    var (s1, p) := AddProduct(s, a, now);
    AddProductFootprint(s1, b, later);
  }

  /** Updating a product: an unknown id is an error; otherwise exactly the product with
      that id is replaced, at the same position, by one with the same id and creation
      time, the patched columns and the new update time; nothing else changes. */
  lemma PatchProductSpec(s: Snapshot, id: int, patch: ProductPatch, now: int)
    requires WellFormed(s)
    ensures var r := PatchProduct(s, id, patch, now);
      && (r.Err? <==> GetProduct(s, id).None?)
      && (r.Err? ==> r.error == ProductNotFound(id))
      && (r.Ok? ==>
            var (s', p) := r.value;
            var before := GetProduct(s, id).value;
            && WellFormed(s')
            && p == Product(id, Patched(before.fields, patch), before.createdAt, now)
            && |s'.products| == |s.products|
            && (forall k :: 0 <= k < |s.products| ==>
                  s'.products[k] == if s.products[k].id == id then p else s.products[k])
            && s'.users == s.users && s'.apiKeys == s.apiKeys && s'.relationships == s.relationships
            && s'.productIdCounter == s.productIdCounter)
  {
    var i := FirstIndex(s.products, ProductIdIs(id));
    if i.Some? {
      var k := i.value;
      assert GetProduct(s, id) == Some(s.products[k]);
      var existing := s.products[k];
      var updated := Product(existing.id, Patched(existing.fields, patch), existing.createdAt, now);
      ReplaceInOrder(s.products, ProductKey, s.productIdCounter, k, updated);
      forall j | 0 <= j < |s.products| && j != k ensures s.products[j].id != id {
        if j < k {
          assert ProductKey(s.products[j]) < ProductKey(s.products[k]);
        } else {
          assert ProductKey(s.products[k]) < ProductKey(s.products[j]);
        }
      }
    }
  }

  // ---------------------------------------------------------------- the class

  /** `MemStorage`: four tables and four id counters, changed in place. */
  class MemStorage {
    var users: seq<User>
    var apiKeys: seq<ApiKey>
    var products: seq<Product>
    var productRelationships: seq<ProductRelationship>
    var userIdCounter: int
    var apiKeyIdCounter: int
    var productIdCounter: int
    var relationshipIdCounter: int

    /** The store's current state as a value. */
    function State(): Snapshot
      reads this
    {
      Snapshot(users, apiKeys, products, productRelationships,
               userIdCounter, apiKeyIdCounter, productIdCounter, relationshipIdCounter)
    }

    ghost predicate Valid()
      reads this
    {
      WellFormed(State())
    }

    constructor ()
      ensures Valid() && State() == Empty()
    {
      users, apiKeys, products, productRelationships := [], [], [], [];
      userIdCounter, apiKeyIdCounter, productIdCounter, relationshipIdCounter := 1, 1, 1, 1;
    }

    method CreateUser(insertUser: UserFields, now: int) returns (user: User)
      requires Valid()
      modifies this
      ensures Valid()
      ensures (State(), user) == AddUser(old(State()), insertUser, now)
    {
      AddUserWellFormed(State(), insertUser, now);
      var id := userIdCounter;
      userIdCounter := userIdCounter + 1;
      user := User(id, insertUser, now, now);
      users := users + [user];
    }

    method CreateApiKey(insertApiKey: ApiKeyFields) returns (apiKey: ApiKey)
      requires Valid()
      modifies this
      ensures Valid()
      ensures (State(), apiKey) == AddApiKey(old(State()), insertApiKey)
    {
      AddApiKeyWellFormed(State(), insertApiKey);
      var id := apiKeyIdCounter;
      apiKeyIdCounter := apiKeyIdCounter + 1;
      apiKey := ApiKey(id, insertApiKey);
      apiKeys := apiKeys + [apiKey];
    }

    method CreateProduct(insertProduct: ProductFields, now: int) returns (product: Product)
      requires Valid()
      modifies this
      ensures Valid()
      ensures (State(), product) == AddProduct(old(State()), insertProduct, now)
    {
      AddProductWellFormed(State(), insertProduct, now);
      var id := productIdCounter;
      productIdCounter := productIdCounter + 1;
      product := Product(id, insertProduct, now, now);
      products := products + [product];
    }

    method CreateProductRelationship(insertRelationship: RelationshipFields, now: int)
      returns (relationship: ProductRelationship)
      requires Valid()
      modifies this
      ensures Valid()
      ensures (State(), relationship) == AddRelationship(old(State()), insertRelationship, now)
    {
      AddRelationshipWellFormed(State(), insertRelationship, now);
      var id := relationshipIdCounter;
      relationshipIdCounter := relationshipIdCounter + 1;
      relationship := ProductRelationship(id, insertRelationship, now);
      productRelationships := productRelationships + [relationship];
    }

    /** `updateProduct`: on an unknown id the error and an untouched store; otherwise the
        new state and the updated product that `PatchProduct` describes. */
    method UpdateProduct(id: int, productUpdate: ProductPatch, now: int) returns (r: Result<Product, StoreError>)
      requires Valid()
      modifies this
      ensures Valid()
      ensures match PatchProduct(old(State()), id, productUpdate, now)
              case Err(e) => r == Err(e) && State() == old(State())
              case Ok((s', p)) => r == Ok(p) && State() == s'
    {
      PatchProductSpec(State(), id, productUpdate, now);
      var i := FirstIndex(products, ProductIdIs(id));
      if i.None? {
        return Err(ProductNotFound(id));
      }
      var existing := products[i.value];
      var updated := Product(existing.id, Patched(existing.fields, productUpdate), existing.createdAt, now);
      products := products[i.value := updated];
      r := Ok(updated);
    }

    /** `getRelatedProductsByShopifyId`: walks the matching edges and collects each related
        product the store holds. */
    method GetRelatedProductsByShopifyId(shopifyId: string, relType: string) returns (related: seq<Product>)
      ensures related == RelatedProducts(State(), shopifyId, relType)
    {
      var sourceProduct := GetProductByShopifyId(State(), shopifyId);
      if sourceProduct.None? {
        return [];
      }
      var relationships := EdgesFrom(State(), sourceProduct.value.id, relType);
      related := [];
      var i := 0;
      while i < |relationships|
        invariant 0 <= i <= |relationships|
        invariant related == Targets(State(), relationships[..i])
      {
        assert relationships[..i + 1][..i] == relationships[..i];
        var product := GetProduct(State(), relationships[i].fields.relatedProductId);
        if product.Some? {
          related := related + [product.value];
        }
        i := i + 1;
      }
      assert relationships[..|relationships|] == relationships;
    }
  }
}
