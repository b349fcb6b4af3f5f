/**
 * The catalog's records (`src/types/catalog.ts`): products with their
 * prices, stock and categories, and categories. Prices and stock are
 * whole numbers; ObjectIds are their strings.
 */
module CatalogTypes {
  import opened Common

  /** The attributes the catalog's rules read: school class (`class`), subject, author and publisher. */
  datatype Attributes = Attributes(grade: Option<string>, subject: Option<string>,
                                   author: Option<string>, publisher: Option<string>)

  /** A product; `salePrice` is `None` for both `null` and an absent field. */
  datatype Product = Product(id: string, title: string, slug: string, sku: string, price: int,
                             salePrice: Option<int>, stock: int, images: seq<string>,
                             attributes: Attributes, categoryIds: seq<string>)

  datatype Category = Category(id: string, name: string, slug: string, parentId: Option<string>)

  /** `salePrice ?? price`: the price the shop charges. */
  function EffectivePrice(p: Product): int {
    if p.salePrice.Some? then p.salePrice.value else p.price
  }

  /** A product is on sale when it has a sale price below its price. */
  predicate OnSale(p: Product) {
    p.salePrice.Some? && p.salePrice.value < p.price
  }

  /** The result page of a listing. */
  datatype Paginated<T> = Paginated(items: seq<T>, page: int, perPage: int, total: int)
}
