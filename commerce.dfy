/**
 * The records the Apex `OrderChatController` gateway hands back, the log
 * entries that stand for its calls, and the case-insensitive first-match
 * lookups the chat controllers run over them.
 */
module Commerce {
  import opened Base
  import opened Text

  /** A JavaScript value as it arrives in a field of a gateway record. */
  datatype Field = Str(s: string) | Num(x: real) | Null | Undefined

  /** `f ?? fallback`: the fallback replaces a `null` or `undefined` field. */
  function OrElse(f: Field, fallback: Field): (r: Field)
    ensures !f.Null? && !f.Undefined? ==> r == f
    ensures f.Null? || f.Undefined? ==> r == fallback
  {
    if f.Null? || f.Undefined? then fallback else f
  }

  /** JavaScript truthiness of a field (NaN is not modelled). */
  predicate Truthy(f: Field) {
    match f
    case Str(s) => s != ""
    case Num(x) => x != 0.0
    case Null => false
    case Undefined => false
  }

  /** A `Product2` row: `Id`, `Name`, `Unit_Price__c`, `Quantity__c`. */
  datatype Product = Product(id: string, name: string, unitPrice: Field, stock: Field)

  /** One line of the cart snapshot returned by `getCart`. */
  datatype CartLine = CartLine(productId: string, productName: string, unitPrice: Field, quantity: Field, total: Field)

  /** The cart snapshot: `items` may be missing, the grand total is shown as given. */
  datatype Cart = Cart(items: Option<seq<CartLine>>, grandTotal: Field)

  /** `getAvailableProducts1`: the columns to show, their labels, and one record per product. */
  datatype CatalogDisplay = CatalogDisplay(fields: seq<string>, labels: map<string, string>, records: seq<map<string, Field>>)

  /** What an awaited remote call settles to: a value, or a rejected promise. */
  datatype Remote<+T> = Resolved(value: T) | Rejected

  /** One call to a remote collaborator, with the arguments that identify it. */
  datatype Call =
    | AskGemini(message: string)                                // GeminiController.getGeminiResponse
    | FetchProducts                                             // getAvailableProducts
    | FetchProductTable                                         // getAvailableProducts1
    | SearchCatalog(keyword: Option<string>)                    // searchProducts
    | AddItem(productId: string, quantity: Option<int>)         // addToCart
    | FetchCart                                                 // getCart
    | RemoveLine(lineProduct: Option<string>, lineQuantity: Option<int>)  // removeItem
    | CompleteCheckout                                          // checkout

  /**
   * `products.find(p => p.Name.toLowerCase() === key)`: the index of the first
   * product whose lower-cased name is `key`.
   */
  function ProductIndex(ps: seq<Product>, key: string): (r: Option<nat>)
    ensures r.Some? ==> r.value < |ps| && Lower(ps[r.value].name) == key
    ensures r.Some? ==> forall j :: 0 <= j < r.value ==> Lower(ps[j].name) != key
    ensures r.None? ==> forall j :: 0 <= j < |ps| ==> Lower(ps[j].name) != key
  {
    if ps == [] then None
    else if Lower(ps[0].name) == key then Some(0)
    else
      match ProductIndex(ps[1..], key)
      case None => None
      case Some(k) => Some(k + 1)
  }

  /** The first product whose lower-cased name is `key` is the one `ProductIndex` finds. */
  lemma FirstProductMatch(ps: seq<Product>, key: string, i: nat)
    requires i < |ps| && Lower(ps[i].name) == key
    requires forall j :: 0 <= j < i ==> Lower(ps[j].name) != key
    ensures ProductIndex(ps, key) == Some(i)
  {
    var r := ProductIndex(ps, key);
    assert r.Some? && !(r.value < i) && !(i < r.value);
  }

  /** With no product of that lower-cased name, `ProductIndex` finds nothing. */
  lemma NoProductMatch(ps: seq<Product>, key: string)
    requires forall j :: 0 <= j < |ps| ==> Lower(ps[j].name) != key
    ensures ProductIndex(ps, key) == None
  {
  }

  /**
   * `items.find(i => i.productName.toLowerCase() === key)`: the index of the
   * first cart line whose lower-cased product name is `key`.
   */
  function LineIndex(items: seq<CartLine>, key: string): (r: Option<nat>)
    ensures r.Some? ==> r.value < |items| && Lower(items[r.value].productName) == key
    ensures r.Some? ==> forall j :: 0 <= j < r.value ==> Lower(items[j].productName) != key
    ensures r.None? ==> forall j :: 0 <= j < |items| ==> Lower(items[j].productName) != key
  {
    if items == [] then None
    else if Lower(items[0].productName) == key then Some(0)
    else
      match LineIndex(items[1..], key)
      case None => None
      case Some(k) => Some(k + 1)
  }
}
