/** The records of the store (API keys, products, users, product relationships), as the
    tables of shared/schema.ts declare them. Nullable columns are `Option`s; timestamps
    are integers supplied by the caller's clock. */
module Schema {
  import opened Wrappers

  // ---------------------------------------------------------------- API keys

  /** The columns of an API key a caller supplies (`InsertApiKey`). `active` has a column
      default, so the insert schema makes it optional: `None` when the caller omits it. */
  datatype ApiKeyFields = ApiKeyFields(key: string, name: string, active: Option<bool>)

  datatype ApiKey = ApiKey(id: int, fields: ApiKeyFields)

  // ---------------------------------------------------------------- products

  /** The columns of a product a caller supplies (`InsertProduct`); prices are integer
      cents. */
  datatype ProductFields = ProductFields(
    shopifyId: string,
    title: string,
    description: Option<string>,
    price: int,
    compareAtPrice: Option<int>,
    imageUrl: Option<string>,
    productUrl: Option<string>,
    category: Option<string>,
    tags: Option<seq<string>>,
    vendor: Option<string>,
    inventory: Option<int>)

  datatype Product = Product(id: int, fields: ProductFields, createdAt: int, updatedAt: int)

  /** The product carries internal id `id`. */
  function ProductIdIs(id: int): Product -> bool {
    (p: Product) => p.id == id
  }

  /** A `Partial<InsertProduct>`: `Some(v)` for each column the update supplies. */
  datatype ProductPatch = ProductPatch(
    shopifyId: Option<string>,
    title: Option<string>,
    description: Option<Option<string>>,
    price: Option<int>,
    compareAtPrice: Option<Option<int>>,
    imageUrl: Option<Option<string>>,
    productUrl: Option<Option<string>>,
    category: Option<Option<string>>,
    tags: Option<Option<seq<string>>>,
    vendor: Option<Option<string>>,
    inventory: Option<Option<int>>)

  function Pick<T>(o: Option<T>, keep: T): T {
    if o.Some? then o.value else keep
  }

  /** The object spread `{...fields, ...patch}`: supplied columns replace, others stay. */
  function Patched(f: ProductFields, p: ProductPatch): ProductFields {
    ProductFields(
      Pick(p.shopifyId, f.shopifyId), Pick(p.title, f.title),
      Pick(p.description, f.description), Pick(p.price, f.price),
      Pick(p.compareAtPrice, f.compareAtPrice), Pick(p.imageUrl, f.imageUrl),
      Pick(p.productUrl, f.productUrl), Pick(p.category, f.category),
      Pick(p.tags, f.tags), Pick(p.vendor, f.vendor), Pick(p.inventory, f.inventory))
  }

  // ---------------------------------------------------------------- users

  /** One entry of a user's purchase history or browsed products; `productId` is the
      external product id, `None` when the entry has none (or not a string). */
  datatype HistoryEntry = HistoryEntry(productId: Option<string>)

  /** The columns of a user a caller supplies (`InsertUser`). The two JSON history
      columns are `None` when absent, falsy or not an array. */
  datatype UserFields = UserFields(
    shopifyId: string,
    username: string,
    email: string,
    preferences: Option<string>,
    purchaseHistory: Option<seq<HistoryEntry>>,
    browsedProducts: Option<seq<HistoryEntry>>)

  datatype User = User(id: int, fields: UserFields, createdAt: int, updatedAt: int)

  // ---------------------------------------------------------------- relationships

  /** A directed edge of the product graph, between internal product ids; the type is
      free text ("cross-sell", "up-sell" in practice) and the strength is stored only. */
  datatype RelationshipFields = RelationshipFields(
    sourceProductId: int,
    relatedProductId: int,
    relationshipType: string,
    strength: Option<int>)

  datatype ProductRelationship = ProductRelationship(id: int, fields: RelationshipFields, createdAt: int)
}
