/**
 * The classifier-backed chat controller (`LLLndVoice/chatBotContainer.js` and
 * `LLMJS._Working.js`) as a function of its state: one user turn is one
 * atomic step from a `Conversation` to the next, given what the remote calls
 * answer during that step. The two files differ in a handful of places; the
 * `Variant` argument selects the file.
 */
module Assistant {
  import opened Base
  import opened Text
  import opened Commerce
  import opened Transcript
  import opened Tables
  import opened Intent

  /** `Voice` is LLLndVoice/chatBotContainer.js, `Working` is LLMJS._Working.js. */
  datatype Variant = Voice | Working

  /** The controller fields one dispatch reads and writes, plus the log of remote calls. */
  datatype Conversation = Conversation(
    messages: seq<Message>,
    quickReplies: seq<QuickReply>,
    showQuickReplies: bool,
    isBotTyping: bool,
    calls: seq<Call>)

  /**
   * What each remote call settles to during one dispatch. Every remote is
   * called at most once per dispatch, so one answer per remote suffices.
   */
  datatype Backend = Backend(
    gemini: Remote<string>,                 // getGeminiResponse
    products: Remote<seq<Product>>,         // getAvailableProducts
    productTable: Remote<CatalogDisplay>,   // getAvailableProducts1
    searchHits: Remote<seq<Product>>,       // searchProducts
    cart: Remote<Option<Cart>>,             // getCart (the snapshot may be null)
    added: Remote<()>,                      // addToCart
    removed: Remote<string>,                // removeItem (its result is not shown)
    ordered: Remote<string>)                // checkout

  /** The state a handler leaves, and whether its promise resolved (`false`: it rejected). */
  datatype Attempt = Attempt(after: Conversation, resolved: bool)

  /** `addUserMessage(text)`. */
  function UserSays(c: Conversation, text: string): Conversation {
    c.(messages := c.messages + [Message(User, Said(text), false)])
  }

  /**
   * `addBotMessage(text, quickReplies = null, isHtml = false)`: appends one bot
   * message; replaces the quick replies only when a list is given.
   */
  function BotSays(c: Conversation, body: Body, replies: Option<seq<QuickReply>>, isHtml: bool): Conversation {
    var c1 := c.(messages := c.messages + [Message(Bot, body, isHtml)]);
    if replies.Some? then c1.(quickReplies := replies.value, showQuickReplies := |replies.value| > 0) else c1
  }

  /** A remote call is issued. */
  function Logged(c: Conversation, call: Call): Conversation {
    c.(calls := c.calls + [call])
  }

  /** `this.isBotTyping = false`. */
  function Idle(c: Conversation): Conversation {
    c.(isBotTyping := false)
  }

  /** The outer `catch`: clear the typing flag and apologise. */
  function Apologize(c: Conversation): Conversation {
    BotSays(Idle(c), Apology, None, false)
  }

  /** An awaited handler inside the outer `try`: a rejection is caught and apologised for. */
  function Settle(a: Attempt): Conversation {
    if a.resolved then a.after else Apologize(a.after)
  }

  /**
   * `products.find(p => p.Name.toLowerCase() === productName.toLowerCase())`:
   * the first product whose name equals the slot ignoring case. With the slot
   * missing, `productName.toLowerCase()` throws as soon as there is a product
   * to compare with.
   */
  function FindProduct(ps: seq<Product>, name: Option<string>): (r: Remote<Option<nat>>)
    ensures r.Rejected? <==> name.None? && ps != []
    ensures r.Resolved? && r.value.Some? ==>
      name.Some? && r.value.value < |ps| && Lower(ps[r.value.value].name) == Lower(name.value)
      && forall j :: 0 <= j < r.value.value ==> Lower(ps[j].name) != Lower(name.value)
    ensures r == Resolved(None) && name.Some? ==>
      forall j :: 0 <= j < |ps| ==> Lower(ps[j].name) != Lower(name.value)
  {
    if name.None? then (if ps == [] then Resolved(None) else Rejected)
    else Resolved(ProductIndex(ps, Lower(name.value)))
  }

  /** `cartData.items.find(...)`: the first cart line whose product name equals the slot ignoring case. */
  function FindLine(items: seq<CartLine>, name: Option<string>): (r: Remote<Option<nat>>)
    ensures r.Rejected? <==> name.None? && items != []
    ensures r.Resolved? && r.value.Some? ==>
      name.Some? && r.value.value < |items| && Lower(items[r.value.value].productName) == Lower(name.value)
      && forall j :: 0 <= j < r.value.value ==> Lower(items[j].productName) != Lower(name.value)
    ensures r == Resolved(None) && name.Some? ==>
      forall j :: 0 <= j < |items| ==> Lower(items[j].productName) != Lower(name.value)
  {
    if name.None? then (if items == [] then Resolved(None) else Rejected)
    else Resolved(LineIndex(items, Lower(name.value)))
  }

  /** `cartData && cartData.items && cartData.items.length > 0`. */
  predicate HasItems(cart: Option<Cart>) {
    cart.Some? && cart.value.items.Some? && |cart.value.items.value| > 0
  }

  /** `handleAddToCart(productName, quantity)`. */
  function HandleAddToCart(c: Conversation, b: Backend, name: Option<string>, quantity: int): Attempt {
    var c1 := Logged(c, FetchProducts);
    if b.products.Rejected? then Attempt(c1, false)
    else
      var ps := b.products.value;
      match FindProduct(ps, name)
      case Rejected => Attempt(c1, false)
      case Resolved(None) => Attempt(Idle(BotSays(c1, NotFound(name), None, false)), true)
      case Resolved(Some(i)) =>
        var c2 := Logged(c1, AddItem(ps[i].id, Some(quantity)));
        if b.added.Rejected? then Attempt(c2, false)
        else Attempt(Idle(BotSays(c2, Added(ps[i].name, Some(quantity)), None, false)), true)
  }

  /**
   * `handleRemoveFromCart(productName[, quantity])`. A null snapshot or a
   * snapshot without `items` makes `cartData.items.find` throw.
   */
  function HandleRemoveFromCart(c: Conversation, b: Backend, name: Option<string>, quantity: Option<int>): Attempt {
    var c1 := Logged(c, FetchCart);
    if b.cart.Rejected? || b.cart.value.None? || b.cart.value.value.items.None? then Attempt(c1, false)
    else
      var items := b.cart.value.value.items.value;
      match FindLine(items, name)
      case Rejected => Attempt(c1, false)
      case Resolved(None) => Attempt(Idle(BotSays(c1, NotInCart(name), None, false)), true)
      case Resolved(Some(i)) =>
        var c2 := Logged(c1, RemoveLine(Some(items[i].productId), quantity));
        if b.removed.Rejected? then Attempt(c2, false)
        else Attempt(Idle(BotSays(c2, Removed(items[i].productName), None, false)), true)
  }

  /**
   * `handleSearchProducts(keyword)`: the voice file answers yes or no, the
   * other renders the hits as a table or says nothing matched.
   */
  function HandleSearchProducts(v: Variant, c: Conversation, b: Backend, keyword: Option<string>): Attempt {
    var c1 := Logged(c.(isBotTyping := true), SearchCatalog(keyword));
    if b.searchHits.Rejected? then Attempt(c1, false)
    else
      var hits := b.searchHits.value;
      var c2 :=
        if |hits| > 0 then
          if v == Voice then BotSays(c1, Available(keyword), None, false)
          else BotSays(c1, Grid(SearchTable(hits)), None, true)
        else
          BotSays(c1, if v == Voice then Unavailable(keyword) else NoMatches(keyword), None, false);
      Attempt(Idle(c2), true)
  }

  /** `handleShowCart()`: the itemised table with its grand total, or "cart is empty". */
  function HandleShowCart(c: Conversation, b: Backend): Attempt {
    var c1 := Logged(c, FetchCart);
    if b.cart.Rejected? then Attempt(c1, false)
    else if HasItems(b.cart.value) then
      var cart := b.cart.value.value;
      Attempt(Idle(BotSays(c1, Grid(CartTable(cart.items.value, cart.grandTotal)), None, true)), true)
    else
      Attempt(Idle(BotSays(c1, CartEmpty, None, false)), true)
  }

  /** `handleCheckout()`: the gateway's message is shown verbatim. */
  function HandleCheckout(c: Conversation, b: Backend): Attempt {
    var c1 := Logged(c, CompleteCheckout);
    if b.ordered.Rejected? then Attempt(c1, false)
    else Attempt(Idle(BotSays(c1, Echo(b.ordered.value), None, false)), true)
  }

  /** `handleHelp()`: the capabilities summary (HTML in the voice file) with the default replies. */
  function HandleHelp(v: Variant, c: Conversation): Conversation {
    Idle(BotSays(c, HelpText, Some(DefaultQuickReplies), v == Voice))
  }

  /** `handleShowProducts()`: the configurable catalog table. */
  function HandleShowProducts(c: Conversation, b: Backend): Attempt {
    var c1 := Logged(c, FetchProductTable);
    if b.productTable.Rejected? then Attempt(c1, false)
    else Attempt(Idle(BotSays(c1, Grid(CatalogTable(b.productTable.value)), None, true)), true)
  }

  /**
   * `handleUnknownInput(input)`. The handlers it starts are not awaited, so a
   * rejection escapes the dispatcher's `catch`: the state is left as the
   * handler left it, typing flag included.
   */
  function HandleUnknownInput(v: Variant, c: Conversation, input: string, b: Backend): Conversation {
    match Resolve(input)
    case BrowseCatalog => HandleShowProducts(c, b).after
    case ViewCart => HandleShowCart(c, b).after
    case PlaceOrder => HandleCheckout(c, b).after
    case OfferHelp => HandleHelp(v, c)
    case NotUnderstood => Idle(BotSays(c, DidNotUnderstand, None, false))
  }

  /**
   * The cases of `processInput`'s `switch` that await a handler inside the
   * outer `try`, with the slots each one passes; `None` for `help` and for the
   * fallback, which are not awaited.
   */
  function Awaited(v: Variant, c: Conversation, reply: Parsed, b: Backend): Option<Attempt>
    requires reply.Record?
  {
    match ActionOf(reply.action)
    case AddToCart => Some(HandleAddToCart(c, b, reply.product, QuantityOrOne(reply.quantity)))
    case RemoveFromCart => Some(HandleRemoveFromCart(c, b, reply.product, if v == Voice then reply.quantity else None))
    case SearchProducts => Some(HandleSearchProducts(v, c, b, if v == Voice then reply.product else reply.query))
    case ShowCart => Some(HandleShowCart(c, b))
    case Checkout => Some(HandleCheckout(c, b))
    case ShowProducts => Some(HandleShowProducts(c, b))
    case Help => None
    case Unknown => None
  }

  /**
   * `processInput(input)`: ask the classifier, parse its reply (a parse
   * failure reads as `unknown`), and branch on the action tag. Reading
   * `.action` of a `null` reply throws into the outer `catch`.
   */
  function ProcessInput(v: Variant, c: Conversation, input: string, b: Backend, parse: string -> Option<Parsed>): Conversation {
    var c1 := Logged(c.(isBotTyping := true), AskGemini(input));
    if b.gemini.Rejected? then Apologize(c1)
    else
      var reply := Interpret(parse(b.gemini.value));
      if reply.NullValue? then Apologize(c1)
      else
        match Awaited(v, c1, reply, b)
        case Some(a) => Settle(a)
        case None =>
          if ActionOf(reply.action) == Help then HandleHelp(v, c1) else HandleUnknownInput(v, c1, input, b)
  }

  /** `handleSend()` on the text in the input box: blank text does nothing. */
  function HandleSend(v: Variant, c: Conversation, text: string, b: Backend, parse: string -> Option<Parsed>): Conversation {
    var msg := Trim(text);
    if msg == "" then c else ProcessInput(v, UserSays(c, msg), msg, b, parse)
  }
}
