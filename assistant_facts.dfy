/**
 * What the classifier-backed controllers promise, stated over the step
 * functions of `Assistant`: routing of classifier replies, the append-only
 * transcript, when the typing indicator is cleared, the lookup rules of the
 * cart handlers, and the shape of the rendered tables.
 */
module AssistantFacts {
  import opened Base
  import opened Text
  import opened Commerce
  import opened Transcript
  import opened Tables
  import opened Intent
  import opened Assistant

  /** Blank input: no message is appended, nothing is dispatched, nothing changes. */
  lemma BlankSendChangesNothing(v: Variant, c: Conversation, text: string, b: Backend, parse: string -> Option<Parsed>)
    requires Blank(text)
    ensures HandleSend(v, c, text, b, parse) == c
  {
  }

  /**
   * `addBotMessage`: exactly one bot message is appended after the earlier
   * ones; the quick replies change only when a list is given, and are then
   * shown exactly when that list is non-empty.
   */
  lemma BotSaysAppendsOne(c: Conversation, body: Body, replies: Option<seq<QuickReply>>, isHtml: bool)
    ensures BotSays(c, body, replies, isHtml).messages == c.messages + [Message(Bot, body, isHtml)]
    ensures replies.None? ==>
      BotSays(c, body, replies, isHtml).quickReplies == c.quickReplies
      && BotSays(c, body, replies, isHtml).showQuickReplies == c.showQuickReplies
    ensures replies.Some? ==>
      BotSays(c, body, replies, isHtml).quickReplies == replies.value
      && (BotSays(c, body, replies, isHtml).showQuickReplies <==> replies.value != [])
    ensures BotSays(c, body, replies, isHtml).isBotTyping == c.isBotTyping
      && BotSays(c, body, replies, isHtml).calls == c.calls
  {
  }

  /** The state right after `processInput` set the typing flag and asked the classifier. */
  function Asked(c: Conversation, input: string): Conversation {
    Logged(c.(isBotTyping := true), AskGemini(input))
  }

  /**
   * `d` keeps every message and call of `c`, in place, and may add more after
   * them; every message added is the bot's.
   */
  predicate Extends(c: Conversation, d: Conversation) {
    c.messages <= d.messages && c.calls <= d.calls
    && forall k :: |c.messages| <= k < |d.messages| ==> d.messages[k].sender == Bot
  }

  /** Adding only appends to the transcript and the call log, whether it resolves or not. */
  lemma AddAppends(c: Conversation, b: Backend, name: Option<string>, quantity: int)
    ensures Extends(c, HandleAddToCart(c, b, name, quantity).after)
  {
  }

  /** Removing only appends. */
  lemma RemoveAppends(c: Conversation, b: Backend, name: Option<string>, quantity: Option<int>)
    ensures Extends(c, HandleRemoveFromCart(c, b, name, quantity).after)
  {
  }

  /** Searching only appends. */
  lemma SearchAppends(v: Variant, c: Conversation, b: Backend, keyword: Option<string>)
    ensures Extends(c, HandleSearchProducts(v, c, b, keyword).after)
  {
  }

  /** Showing the cart only appends. */
  lemma ShowCartAppends(c: Conversation, b: Backend)
    ensures Extends(c, HandleShowCart(c, b).after)
  {
  }

  /** Checking out only appends. */
  lemma CheckoutAppends(c: Conversation, b: Backend)
    ensures Extends(c, HandleCheckout(c, b).after)
  {
  }

  /** Showing the catalog only appends. */
  lemma ShowProductsAppends(c: Conversation, b: Backend)
    ensures Extends(c, HandleShowProducts(c, b).after)
  {
  }

  /** Help only appends. */
  lemma HelpAppends(v: Variant, c: Conversation)
    ensures Extends(c, HandleHelp(v, c))
  {
  }

  /** Showing the cart, checking out, showing the catalog and help only append. */
  lemma LookupsAppend(v: Variant, c: Conversation, b: Backend)
    ensures Extends(c, HandleShowCart(c, b).after)
    ensures Extends(c, HandleCheckout(c, b).after)
    ensures Extends(c, HandleShowProducts(c, b).after)
    ensures Extends(c, HandleHelp(v, c))
  {
    ShowCartAppends(c, b);
    CheckoutAppends(c, b);
    ShowProductsAppends(c, b);
    HelpAppends(v, c);
  }

  /** The keyword fallback only appends, whichever handler it starts. */
  lemma {:induction false} FallbackAppends(v: Variant, c: Conversation, input: string, b: Backend)
    ensures Extends(c, HandleUnknownInput(v, c, input, b))
  {
    LookupsAppend(v, c, b);
    match Resolve(input)
    case BrowseCatalog => assert HandleUnknownInput(v, c, input, b) == HandleShowProducts(c, b).after;
    case ViewCart => assert HandleUnknownInput(v, c, input, b) == HandleShowCart(c, b).after;
    case PlaceOrder => assert HandleUnknownInput(v, c, input, b) == HandleCheckout(c, b).after;
    case OfferHelp => assert HandleUnknownInput(v, c, input, b) == HandleHelp(v, c);
    case NotUnderstood =>
  }

  /** Settling an attempt (apologising if it rejected) only appends. */
  lemma SettleAppends(c: Conversation, a: Attempt)
    requires Extends(c, a.after)
    ensures Extends(c, Settle(a))
  {
  }

  /** Whichever handler a classifier reply awaits, it only appends bot messages and calls. */
  lemma {:induction false} AwaitedAppends(v: Variant, c: Conversation, reply: Parsed, b: Backend)
    requires reply.Record? && Awaited(v, c, reply, b).Some?
    ensures Extends(c, Awaited(v, c, reply, b).value.after)
  {
    match ActionOf(reply.action)
    case AddToCart => AddAppends(c, b, reply.product, QuantityOrOne(reply.quantity));
    case RemoveFromCart => RemoveAppends(c, b, reply.product, if v == Voice then reply.quantity else None);
    case SearchProducts => SearchAppends(v, c, b, if v == Voice then reply.product else reply.query);
    case ShowCart => ShowCartAppends(c, b);
    case Checkout => CheckoutAppends(c, b);
    case ShowProducts => ShowProductsAppends(c, b);
  }

  /**
   * One dispatch only appends: every earlier message and call stays where it
   * was, every new message is the bot's, and the first new call is the
   * classifier's.
   */
  lemma {:induction false} ProcessInputAppends(v: Variant, c: Conversation, input: string, b: Backend, parse: string -> Option<Parsed>)
    ensures c.messages <= ProcessInput(v, c, input, b, parse).messages
    ensures forall k :: |c.messages| <= k < |ProcessInput(v, c, input, b, parse).messages| ==>
      ProcessInput(v, c, input, b, parse).messages[k].sender == Bot
    ensures c.calls + [AskGemini(input)] <= ProcessInput(v, c, input, b, parse).calls
  {
    var c1 := Asked(c, input);
    var r := ProcessInput(v, c, input, b, parse);
    if b.gemini.Resolved? && Interpret(parse(b.gemini.value)).Record? {
      var reply := Interpret(parse(b.gemini.value));
      match Awaited(v, c1, reply, b)
      case Some(a) =>
        AwaitedAppends(v, c1, reply, b);
        SettleAppends(c1, a);
      case None =>
        HelpAppends(v, c1);
        FallbackAppends(v, c1, input, b);
    }
    assert Extends(c1, r);
    assert c1.calls == c.calls + [AskGemini(input)];
  }

  /**
   * A non-blank send appends exactly one user turn holding the trimmed text,
   * followed only by bot messages, and classifies that same trimmed text.
   */
  lemma SendRecordsTrimmedText(v: Variant, c: Conversation, text: string, b: Backend, parse: string -> Option<Parsed>)
    requires !Blank(text)
    ensures c.messages + [Message(User, Said(Trim(text)), false)] <= HandleSend(v, c, text, b, parse).messages
    ensures forall k :: |c.messages| < k < |HandleSend(v, c, text, b, parse).messages| ==>
      HandleSend(v, c, text, b, parse).messages[k].sender == Bot
    ensures c.calls + [AskGemini(Trim(text))] <= HandleSend(v, c, text, b, parse).calls
  {
    ProcessInputAppends(v, UserSays(c, Trim(text)), Trim(text), b, parse);
  }

  /** A classifier reply that is not JSON is handled as `unknown`: the keyword fallback sees the input. */
  lemma UnparsableReplyFallsBack(v: Variant, c: Conversation, input: string, b: Backend, parse: string -> Option<Parsed>)
    requires b.gemini.Resolved? && parse(b.gemini.value).None?
    ensures ProcessInput(v, c, input, b, parse) == HandleUnknownInput(v, Asked(c, input), input, b)
  {
  }

  /** A missing tag, or any tag outside the seven handler tags, goes to the keyword fallback. */
  lemma UnlistedTagFallsBack(v: Variant, c: Conversation, input: string, b: Backend, parse: string -> Option<Parsed>)
    requires b.gemini.Resolved? && parse(b.gemini.value).Some? && parse(b.gemini.value).value.Record?
    requires parse(b.gemini.value).value.action.None? || parse(b.gemini.value).value.action.value !in HandlerTags
    ensures ProcessInput(v, c, input, b, parse) == HandleUnknownInput(v, Asked(c, input), input, b)
  {
  }

  /** A rejected classifier call: exactly one apology, typing cleared, quick replies untouched. */
  lemma ClassifierFailureApologises(v: Variant, c: Conversation, input: string, b: Backend, parse: string -> Option<Parsed>)
    requires b.gemini.Rejected?
    ensures ProcessInput(v, c, input, b, parse).messages == c.messages + [Message(Bot, Apology, false)]
    ensures !ProcessInput(v, c, input, b, parse).isBotTyping
    ensures ProcessInput(v, c, input, b, parse).quickReplies == c.quickReplies
    ensures ProcessInput(v, c, input, b, parse).showQuickReplies == c.showQuickReplies
    ensures ProcessInput(v, c, input, b, parse).calls == c.calls + [AskGemini(input)]
  {
  }

  /** The outer `catch` after an awaited handler rejected: exactly one apology, typing cleared, replies kept. */
  lemma SettleApologises(a: Attempt)
    requires !a.resolved
    ensures Settle(a).messages == a.after.messages + [Message(Bot, Apology, false)]
    ensures !Settle(a).isBotTyping
    ensures Settle(a).quickReplies == a.after.quickReplies && Settle(a).showQuickReplies == a.after.showQuickReplies
    ensures Settle(a).calls == a.after.calls
  {
  }

  /**
   * An awaited handler that rejects has shown nothing yet: every rejection
   * happens before its reply, so the transcript and the quick replies are
   * as the handler found them.
   */
  lemma {:induction false} RejectedHandlerIsSilent(v: Variant, c: Conversation, reply: Parsed, b: Backend)
    requires reply.Record? && Awaited(v, c, reply, b).Some? && !Awaited(v, c, reply, b).value.resolved
    ensures Awaited(v, c, reply, b).value.after.messages == c.messages
    ensures Awaited(v, c, reply, b).value.after.quickReplies == c.quickReplies
    ensures Awaited(v, c, reply, b).value.after.showQuickReplies == c.showQuickReplies
  {
    var a := Awaited(v, c, reply, b).value;
    match ActionOf(reply.action)
    case AddToCart => assert a == HandleAddToCart(c, b, reply.product, QuantityOrOne(reply.quantity));
    case RemoveFromCart =>
      assert a == HandleRemoveFromCart(c, b, reply.product, if v == Voice then reply.quantity else None);
    case SearchProducts =>
      assert a == HandleSearchProducts(v, c, b, if v == Voice then reply.product else reply.query);
    case ShowCart => assert a == HandleShowCart(c, b);
    case Checkout => assert a == HandleCheckout(c, b);
    case ShowProducts => assert a == HandleShowProducts(c, b);
  }

  /**
   * Every other route into the outer `catch`: a `null` classifier reply
   * (reading its `.action` throws) or an awaited handler that rejects. Either
   * way the dispatch shows exactly one apology after the earlier messages,
   * clears the indicator and leaves the quick replies as they were.
   */
  lemma {:induction false} HandlerFailureApologises(v: Variant, c: Conversation, input: string, b: Backend,
                                                    parse: string -> Option<Parsed>)
    requires b.gemini.Resolved?
    requires Interpret(parse(b.gemini.value)).NullValue?
      || (Awaited(v, Asked(c, input), Interpret(parse(b.gemini.value)), b).Some?
          && !Awaited(v, Asked(c, input), Interpret(parse(b.gemini.value)), b).value.resolved)
    ensures ProcessInput(v, c, input, b, parse).messages == c.messages + [Message(Bot, Apology, false)]
    ensures !ProcessInput(v, c, input, b, parse).isBotTyping
    ensures ProcessInput(v, c, input, b, parse).quickReplies == c.quickReplies
    ensures ProcessInput(v, c, input, b, parse).showQuickReplies == c.showQuickReplies
    ensures c.calls + [AskGemini(input)] <= ProcessInput(v, c, input, b, parse).calls
  {
    ProcessInputAppends(v, c, input, b, parse);
    var c1 := Asked(c, input);
    var reply := Interpret(parse(b.gemini.value));
    if reply.Record? {
      var a := Awaited(v, c1, reply, b).value;
      RejectedHandlerIsSilent(v, c1, reply, b);
      SettleApologises(a);
      assert ProcessInput(v, c, input, b, parse) == Settle(a);
    }
  }

  /**
   * The keyword fallback took over and started a handler whose remote call
   * rejected. That handler was not awaited, so the rejection escapes the
   * dispatcher's `catch`.
   */
  predicate FallbackStalls(input: string, b: Backend, parse: string -> Option<Parsed>) {
    && b.gemini.Resolved?
    && Interpret(parse(b.gemini.value)).Record?
    && ActionOf(Interpret(parse(b.gemini.value)).action) == Unknown
    && FallbackRejects(input, b)
  }

  /** The handler the keyword fallback starts for `input` rejects. */
  predicate FallbackRejects(input: string, b: Backend) {
    match Resolve(input)
    case BrowseCatalog => b.productTable.Rejected?
    case ViewCart => b.cart.Rejected?
    case PlaceOrder => b.ordered.Rejected?
    case _ => false
  }

  /** Adding, settled by the outer `catch`, ends with the indicator off. */
  lemma AddClearsTyping(c: Conversation, b: Backend, name: Option<string>, quantity: int)
    ensures !Settle(HandleAddToCart(c, b, name, quantity)).isBotTyping
  {
  }

  /** Removing, settled, ends with the indicator off. */
  lemma RemoveClearsTyping(c: Conversation, b: Backend, name: Option<string>, quantity: Option<int>)
    ensures !Settle(HandleRemoveFromCart(c, b, name, quantity)).isBotTyping
  {
  }

  /** Searching, showing the cart, checking out and showing the catalog, settled, end with the indicator off. */
  lemma LookupsClearTyping(v: Variant, c: Conversation, b: Backend, keyword: Option<string>)
    ensures !Settle(HandleSearchProducts(v, c, b, keyword)).isBotTyping
    ensures !Settle(HandleShowCart(c, b)).isBotTyping
    ensures !Settle(HandleCheckout(c, b)).isBotTyping
    ensures !Settle(HandleShowProducts(c, b)).isBotTyping
  {
  }

  /** Entered with the indicator on, the fallback leaves it on exactly when the handler it starts rejects. */
  lemma {:induction false} FallbackTyping(v: Variant, c: Conversation, input: string, b: Backend)
    requires c.isBotTyping
    ensures HandleUnknownInput(v, c, input, b).isBotTyping <==> FallbackRejects(input, b)
  {
    match Resolve(input)
    case BrowseCatalog => assert HandleUnknownInput(v, c, input, b) == HandleShowProducts(c, b).after;
    case ViewCart => assert HandleUnknownInput(v, c, input, b) == HandleShowCart(c, b).after;
    case PlaceOrder => assert HandleUnknownInput(v, c, input, b) == HandleCheckout(c, b).after;
    case OfferHelp => assert HandleUnknownInput(v, c, input, b) == HandleHelp(v, c);
    case NotUnderstood =>
  }

  /**
   * After a dispatch the typing indicator is off, except exactly when the
   * fallback started a handler that rejected: then it stays on.
   */
  lemma {:induction false} TypingClearedUnlessFallbackStalls(v: Variant, c: Conversation, input: string, b: Backend, parse: string -> Option<Parsed>)
    ensures ProcessInput(v, c, input, b, parse).isBotTyping <==> FallbackStalls(input, b, parse)
  {
    var c1 := Asked(c, input);
    var r := ProcessInput(v, c, input, b, parse);
    if b.gemini.Resolved? && Interpret(parse(b.gemini.value)).Record? {
      var reply := Interpret(parse(b.gemini.value));
      match ActionOf(reply.action)
      case AddToCart =>
        assert r == Settle(HandleAddToCart(c1, b, reply.product, QuantityOrOne(reply.quantity)));
        AddClearsTyping(c1, b, reply.product, QuantityOrOne(reply.quantity));
      case RemoveFromCart =>
        assert r == Settle(HandleRemoveFromCart(c1, b, reply.product, if v == Voice then reply.quantity else None));
        RemoveClearsTyping(c1, b, reply.product, if v == Voice then reply.quantity else None);
      case SearchProducts =>
        assert r == Settle(HandleSearchProducts(v, c1, b, if v == Voice then reply.product else reply.query));
        LookupsClearTyping(v, c1, b, if v == Voice then reply.product else reply.query);
      case ShowCart =>
        assert r == Settle(HandleShowCart(c1, b));
        LookupsClearTyping(v, c1, b, None);
      case Checkout =>
        assert r == Settle(HandleCheckout(c1, b));
        LookupsClearTyping(v, c1, b, None);
      case Help =>
      case ShowProducts =>
        assert r == Settle(HandleShowProducts(c1, b));
        LookupsClearTyping(v, c1, b, None);
      case Unknown =>
        assert r == HandleUnknownInput(v, c1, input, b);
        FallbackTyping(v, c1, input, b);
    }
  }

  /** A stalled fallback leaves the transcript as it was: no reply and no apology. */
  lemma StalledFallbackIsSilent(v: Variant, c: Conversation, input: string, b: Backend, parse: string -> Option<Parsed>)
    requires FallbackStalls(input, b, parse)
    ensures ProcessInput(v, c, input, b, parse).messages == c.messages
  {
  }

  /**
   * Adding: the first catalog product whose name equals the slot ignoring case
   * is added under its own Id with the given quantity, and the confirmation
   * names that product and quantity.
   */
  lemma AddToCartFirstMatch(c: Conversation, b: Backend, name: string, quantity: int, ps: seq<Product>, i: nat)
    requires b.products == Resolved(ps) && b.added.Resolved?
    requires i < |ps| && Lower(ps[i].name) == Lower(name)
    requires forall j :: 0 <= j < i ==> Lower(ps[j].name) != Lower(name)
    ensures HandleAddToCart(c, b, Some(name), quantity).resolved
    ensures HandleAddToCart(c, b, Some(name), quantity).after.calls
      == c.calls + [FetchProducts, AddItem(ps[i].id, Some(quantity))]
    ensures HandleAddToCart(c, b, Some(name), quantity).after.messages
      == c.messages + [Message(Bot, Added(ps[i].name, Some(quantity)), false)]
    ensures !HandleAddToCart(c, b, Some(name), quantity).after.isBotTyping
    ensures HandleAddToCart(c, b, Some(name), quantity).after.quickReplies == c.quickReplies
  {
    var r := FindProduct(ps, Some(name));
    assert r.Resolved? && r.value.Some?;
    var k := r.value.value;
    assert !(k < i) && !(i < k);
  }

  /** Adding with no matching product: a not-found reply and no `addToCart` call. */
  lemma AddToCartNoMatch(c: Conversation, b: Backend, name: string, quantity: int, ps: seq<Product>)
    requires b.products == Resolved(ps)
    requires forall j :: 0 <= j < |ps| ==> Lower(ps[j].name) != Lower(name)
    ensures HandleAddToCart(c, b, Some(name), quantity).resolved
    ensures HandleAddToCart(c, b, Some(name), quantity).after.calls == c.calls + [FetchProducts]
    ensures HandleAddToCart(c, b, Some(name), quantity).after.messages
      == c.messages + [Message(Bot, NotFound(Some(name)), false)]
  {
    var r := FindProduct(ps, Some(name));
    assert r == Resolved(None);
  }

  /** Through the dispatcher, a missing or zero quantity slot adds one unit. */
  lemma AddDefaultsToOne(v: Variant, c: Conversation, input: string, b: Backend, parse: string -> Option<Parsed>,
                         product: Option<string>, query: Option<string>, quantity: Option<int>)
    requires b.gemini.Resolved?
    requires parse(b.gemini.value) == Some(Record(Some("addToCart"), product, query, quantity))
    requires quantity.None? || quantity == Some(0)
    ensures ProcessInput(v, c, input, b, parse) == Settle(HandleAddToCart(Asked(c, input), b, product, 1))
  {
  }

  /** Removing a product that no cart line names: a not-found reply and no `removeItem` call. */
  lemma RemoveNoMatch(c: Conversation, b: Backend, name: string, quantity: Option<int>, items: seq<CartLine>, total: Field)
    requires b.cart == Resolved(Some(Cart(Some(items), total)))
    requires forall j :: 0 <= j < |items| ==> Lower(items[j].productName) != Lower(name)
    ensures HandleRemoveFromCart(c, b, Some(name), quantity).resolved
    ensures HandleRemoveFromCart(c, b, Some(name), quantity).after.calls == c.calls + [FetchCart]
    ensures HandleRemoveFromCart(c, b, Some(name), quantity).after.messages
      == c.messages + [Message(Bot, NotInCart(Some(name)), false)]
  {
    var r := FindLine(items, Some(name));
    assert r == Resolved(None);
  }

  /**
   * Removing: the first cart line whose product name equals the slot ignoring
   * case is removed by its product Id, with the quantity handed over.
   */
  lemma RemoveFirstMatch(c: Conversation, b: Backend, name: string, quantity: Option<int>,
                         items: seq<CartLine>, total: Field, i: nat)
    requires b.cart == Resolved(Some(Cart(Some(items), total))) && b.removed.Resolved?
    requires i < |items| && Lower(items[i].productName) == Lower(name)
    requires forall j :: 0 <= j < i ==> Lower(items[j].productName) != Lower(name)
    ensures HandleRemoveFromCart(c, b, Some(name), quantity).resolved
    ensures HandleRemoveFromCart(c, b, Some(name), quantity).after.calls
      == c.calls + [FetchCart, RemoveLine(Some(items[i].productId), quantity)]
    ensures HandleRemoveFromCart(c, b, Some(name), quantity).after.messages
      == c.messages + [Message(Bot, Removed(items[i].productName), false)]
  {
    var r := FindLine(items, Some(name));
    assert r.Resolved? && r.value.Some?;
    var k := r.value.value;
    assert !(k < i) && !(i < k);
  }

  /**
   * Removing through the dispatcher: the voice file forwards the quantity
   * slot to the gateway, the other file never does.
   */
  lemma {:induction false} RemoveForwardsQuantityOnlyWithVoice(v: Variant, c: Conversation, input: string, b: Backend,
                                            parse: string -> Option<Parsed>, name: string, query: Option<string>,
                                            quantity: Option<int>, items: seq<CartLine>, total: Field, i: nat)
    requires b.gemini.Resolved?
    requires parse(b.gemini.value) == Some(Record(Some("removeFromCart"), Some(name), query, quantity))
    requires b.cart == Resolved(Some(Cart(Some(items), total))) && b.removed.Resolved?
    requires i < |items| && Lower(items[i].productName) == Lower(name)
    requires forall j :: 0 <= j < i ==> Lower(items[j].productName) != Lower(name)
    ensures ProcessInput(v, c, input, b, parse).calls
      == c.calls + [AskGemini(input), FetchCart, RemoveLine(Some(items[i].productId), if v == Voice then quantity else None)]
    ensures ProcessInput(v, c, input, b, parse).messages
      == c.messages + [Message(Bot, Removed(items[i].productName), false)]
  {
    var q := if v == Voice then quantity else None;
    var reply := Interpret(parse(b.gemini.value));
    assert reply == Record(Some("removeFromCart"), Some(name), query, quantity);
    assert ActionOf(reply.action) == RemoveFromCart;
    assert ProcessInput(v, c, input, b, parse) == Settle(HandleRemoveFromCart(Asked(c, input), b, Some(name), q));
    RemoveFirstMatch(Asked(c, input), b, name, q, items, total, i);
  }

  /** A search without hits says so and leaves the quick replies as they were. */
  lemma SearchWithoutHits(v: Variant, c: Conversation, b: Backend, keyword: Option<string>)
    requires b.searchHits == Resolved([])
    ensures HandleSearchProducts(v, c, b, keyword).resolved
    ensures HandleSearchProducts(v, c, b, keyword).after.messages
      == c.messages + [Message(Bot, if v == Voice then Unavailable(keyword) else NoMatches(keyword), false)]
    ensures HandleSearchProducts(v, c, b, keyword).after.quickReplies == c.quickReplies
    ensures HandleSearchProducts(v, c, b, keyword).after.showQuickReplies == c.showQuickReplies
    ensures !HandleSearchProducts(v, c, b, keyword).after.isBotTyping
  {
  }

  /**
   * With hits, the file without voice appends exactly one HTML table: one row
   * per hit holding its name, its price and its stock, a missing stock shown as 0.
   */
  lemma SearchRendersOneRowPerHit(c: Conversation, b: Backend, keyword: Option<string>, hits: seq<Product>)
    requires b.searchHits == Resolved(hits) && hits != []
    ensures HandleSearchProducts(Working, c, b, keyword).resolved
    ensures HandleSearchProducts(Working, c, b, keyword).after.messages
      == c.messages + [Message(Bot, Grid(SearchTable(hits)), true)]
    ensures !HandleSearchProducts(Working, c, b, keyword).after.isBotTyping
    ensures HandleSearchProducts(Working, c, b, keyword).after.quickReplies == c.quickReplies
    ensures HandleSearchProducts(Working, c, b, keyword).after.showQuickReplies == c.showQuickReplies
    ensures |SearchTable(hits).rows| == |hits|
    ensures forall i :: 0 <= i < |hits| ==> SearchTable(hits).rows[i][2] == OrElse(hits[i].stock, Num(0.0))
  {
  }

  /** With hits, the voice file answers yes, naming the searched product, as plain text. */
  lemma SearchAnswersYes(c: Conversation, b: Backend, keyword: Option<string>, hits: seq<Product>)
    requires b.searchHits == Resolved(hits) && hits != []
    ensures HandleSearchProducts(Voice, c, b, keyword).resolved
    ensures HandleSearchProducts(Voice, c, b, keyword).after.messages
      == c.messages + [Message(Bot, Available(keyword), false)]
    ensures !HandleSearchProducts(Voice, c, b, keyword).after.isBotTyping
    ensures HandleSearchProducts(Voice, c, b, keyword).after.quickReplies == c.quickReplies
    ensures HandleSearchProducts(Voice, c, b, keyword).after.showQuickReplies == c.showQuickReplies
  {
  }

  /** An absent, item-less or empty cart is reported as empty. */
  lemma EmptyCartReported(c: Conversation, b: Backend)
    requires b.cart.Resolved? && !HasItems(b.cart.value)
    ensures HandleShowCart(c, b).after.messages == c.messages + [Message(Bot, CartEmpty, false)]
  {
  }

  /** A non-empty cart is one HTML table: one row per line, and the grand total in the footer. */
  lemma CartRendersOneRowPerLine(c: Conversation, b: Backend, items: seq<CartLine>, total: Field)
    requires b.cart == Resolved(Some(Cart(Some(items), total))) && items != []
    ensures |HandleShowCart(c, b).after.messages| == |c.messages| + 1
    ensures HandleShowCart(c, b).after.messages[|c.messages|] == Message(Bot, Grid(CartTable(items, total)), true)
    ensures |CartTable(items, total).rows| == |items|
    ensures CartTable(items, total).footer == [Str("Grand Total:"), total]
  {
  }

  /**
   * Checkout asks the gateway once and shows its answer verbatim; a rejected
   * checkout leaves the attempt unresolved with only the call logged.
   */
  lemma CheckoutEchoesGateway(c: Conversation, b: Backend)
    ensures HandleCheckout(c, b).after.calls == c.calls + [CompleteCheckout]
    ensures HandleCheckout(c, b).resolved <==> b.ordered.Resolved?
    ensures b.ordered.Resolved? ==>
      HandleCheckout(c, b).after.messages == c.messages + [Message(Bot, Echo(b.ordered.value), false)]
      && !HandleCheckout(c, b).after.isBotTyping
    ensures b.ordered.Rejected? ==> HandleCheckout(c, b).after.messages == c.messages
  {
  }

  /** The catalog is one HTML table with one header cell per field and one row per record. */
  lemma CatalogRendersOneRowPerRecord(c: Conversation, b: Backend, d: CatalogDisplay)
    requires b.productTable == Resolved(d)
    ensures HandleShowProducts(c, b).after.messages == c.messages + [Message(Bot, Grid(CatalogTable(d)), true)]
    ensures |CatalogTable(d).header| == |d.fields| && |CatalogTable(d).rows| == |d.records|
    ensures forall i :: 0 <= i < |d.records| ==> |CatalogTable(d).rows[i]| == |d.fields|
  {
  }

  /** Help appends one message and restores the four default quick replies. */
  lemma HelpRestoresDefaultReplies(v: Variant, c: Conversation)
    ensures HandleHelp(v, c).messages == c.messages + [Message(Bot, HelpText, v == Voice)]
    ensures HandleHelp(v, c).quickReplies == DefaultQuickReplies && HandleHelp(v, c).showQuickReplies
    ensures !HandleHelp(v, c).isBotTyping
  {
  }

  /**
   * The fallback with none of its keywords: one "didn't understand" reply,
   * the indicator cleared, no remote call, the quick replies kept.
   */
  lemma NotUnderstoodReply(v: Variant, c: Conversation, input: string, b: Backend)
    requires Resolve(input) == NotUnderstood
    ensures HandleUnknownInput(v, c, input, b).messages == c.messages + [Message(Bot, DidNotUnderstand, false)]
    ensures !HandleUnknownInput(v, c, input, b).isBotTyping
    ensures HandleUnknownInput(v, c, input, b).calls == c.calls
    ensures HandleUnknownInput(v, c, input, b).quickReplies == c.quickReplies
  {
  }
}
