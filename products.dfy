/** The catalog and proposal records of src/lib/products.ts.  Prices and
    quantities are integers.  An enriched item is the object spread
    `{...item, ...product}`: the four fields of the selected item followed
    by the nine fields of the product. */
module Products {

  datatype BudgetLevel = Economy | Premium | Luxury

  function BudgetName(b: BudgetLevel): string
  {
    match b
    case Economy => "economy"
    case Premium => "premium"
    case Luxury => "luxury"
  }

  datatype Product = Product(
    id: string,
    name: string,
    brand: string,
    category: string,
    price: int,
    budgetLevel: BudgetLevel,
    ecosystem: seq<string>,
    description: string,
    imageUrl: string)

  /** An item picked by the language model; `productId` is not trusted until
      it is joined against the catalog. */
  datatype SelectedItem = SelectedItem(productId: string, quantity: int, room: string, reason: string)

  datatype EnrichedItem = EnrichedItem(
    productId: string,
    quantity: int,
    room: string,
    reason: string,
    id: string,
    name: string,
    brand: string,
    category: string,
    price: int,
    budgetLevel: BudgetLevel,
    ecosystem: seq<string>,
    description: string,
    imageUrl: string)

  datatype Proposal = Proposal(analysisReport: string, enrichedItems: seq<EnrichedItem>)

  /** The selected-item fields of an enriched item. */
  function ItemPart(e: EnrichedItem): SelectedItem
  {
    SelectedItem(e.productId, e.quantity, e.room, e.reason)
  }

  /** The product fields of an enriched item. */
  function ProductPart(e: EnrichedItem): Product
  {
    Product(e.id, e.name, e.brand, e.category, e.price, e.budgetLevel, e.ecosystem, e.description, e.imageUrl)
  }

  /** `{...item, ...product}`: projecting the result gives back both inputs
      unchanged, so no field is lost or altered by the merge. */
  function Merge(item: SelectedItem, product: Product): (e: EnrichedItem)
    ensures ItemPart(e) == item && ProductPart(e) == product
  {
    EnrichedItem(item.productId, item.quantity, item.room, item.reason,
                 product.id, product.name, product.brand, product.category, product.price,
                 product.budgetLevel, product.ecosystem, product.description, product.imageUrl)
  }

  /** A field value of a plain JavaScript object, as far as these records go. */
  datatype JsValue = JStr(s: string) | JNum(n: int) | JList(items: seq<string>)

  function ItemFields(i: SelectedItem): map<string, JsValue>
  {
    map["product_id" := JStr(i.productId), "quantity" := JNum(i.quantity),
        "room" := JStr(i.room), "reason" := JStr(i.reason)]
  }

  function ProductFields(p: Product): map<string, JsValue>
  {
    map["id" := JStr(p.id), "name" := JStr(p.name), "brand" := JStr(p.brand),
        "category" := JStr(p.category), "price" := JNum(p.price),
        "budget_level" := JStr(BudgetName(p.budgetLevel)), "ecosystem" := JList(p.ecosystem),
        "description" := JStr(p.description), "imageUrl" := JStr(p.imageUrl)]
  }

  function EnrichedFields(e: EnrichedItem): map<string, JsValue>
  {
    ItemFields(ItemPart(e)) + ProductFields(ProductPart(e))
  }

  /** The merged record has exactly the keys of the spread: every product
      key holds the product's value (the later spread would win) and every
      other key holds the item's value.  The two key sets are disjoint
      (`product_id`, not `id`), so no key is in fact overwritten. */
  lemma MergeIsSpread(item: SelectedItem, product: Product)
    ensures ItemFields(item).Keys !! ProductFields(product).Keys
    ensures EnrichedFields(Merge(item, product)).Keys == ItemFields(item).Keys + ProductFields(product).Keys
    ensures forall k :: k in ProductFields(product) ==> EnrichedFields(Merge(item, product))[k] == ProductFields(product)[k]
    ensures forall k :: k in ItemFields(item) && k !in ProductFields(product) ==>
              EnrichedFields(Merge(item, product))[k] == ItemFields(item)[k]
  {
  }
}
