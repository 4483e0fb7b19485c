/**
 * The rule-based controller, `chatBotContainer.js`: fixed commands instead of
 * a classifier, a `cart` field refreshed by `loadCart`, and an
 * `addBotMessage` that always replaces the quick replies.
 *
 * As for the classifier-backed files, one dispatch is one atomic step from a
 * `RuleState` to the next, given what the gateway answers during it; the
 * class `ChatBotContainer` is proved against these step functions. There is
 * no `try`/`catch` in this file: a rejected call ends the step where it
 * happened.
 */
module RuleBot {
  import opened Base
  import opened Text
  import opened Commerce
  import opened Transcript
  import opened Tables

  /** What `getCart` answers, as far as `loadCart` reads it: the top-level `productName`. */
  datatype CartSnapshot = CartSnapshot(productName: Field)

  /** A gateway call, and whether the typing indicator was on when it was issued. */
  datatype Request = Request(call: Call, typing: bool)

  /** The controller fields one dispatch reads and writes, plus the log of gateway calls. */
  datatype RuleState = RuleState(
    messages: seq<Message>,
    quickReplies: seq<QuickReply>,
    showQuickReplies: bool,
    isBotTyping: bool,
    cart: Option<CartSnapshot>,
    requests: seq<Request>)

  /** What each gateway call settles to during one dispatch. */
  datatype RuleBackend = RuleBackend(
    products: Remote<seq<Product>>,      // getAvailableProducts
    added: Remote<()>,                   // addToCart
    cart: Remote<Option<CartSnapshot>>,  // getCart (the snapshot may be null)
    removed: Remote<string>,             // removeItem
    ordered: Remote<string>)             // checkout

  /** A state, and whether the promise that produced it resolved (`false`: it rejected). */
  datatype Step = Step(after: RuleState, resolved: bool)

  /** The two quick replies offered with the greeting. */
  const GreetingReplies: seq<QuickReply> := [QuickReply(1, "show products"), QuickReply(2, "show cart")]

  /** `addUserMessage(text)`. */
  function UserSays(s: RuleState, text: string): RuleState {
    s.(messages := s.messages + [Message(User, Said(text), false)])
  }

  /** `addBotMessage(text, quickReplies = [])`: the quick replies are always replaced. */
  function BotSays(s: RuleState, body: Body, replies: seq<QuickReply>): RuleState {
    s.(messages := s.messages + [Message(Bot, body, false)], quickReplies := replies, showQuickReplies := |replies| > 0)
  }

  /** A gateway call is issued while the typing indicator is as it is now. */
  function Issue(s: RuleState, call: Call): RuleState {
    s.(requests := s.requests + [Request(call, s.isBotTyping)])
  }

  /** `loadCart()`: keep the snapshot only when it names a product; otherwise clear it and say so. */
  function ReloadCart(s: RuleState, b: RuleBackend): Step {
    var s1 := Issue(s, FetchCart);
    if b.cart.Rejected? then Step(s1, false)
    else if b.cart.value.Some? && Truthy(b.cart.value.value.productName) then Step(s1.(cart := b.cart.value), true)
    else Step(BotSays(s1.(cart := None), CartEmpty, []), true)
  }

  /** The commands `processInput` recognises, in the order it tests them. */
  datatype Command = ShowProducts | Add(name: string) | ShowCart | Remove | Checkout | Other

  /** `processInput`'s tests on the lower-cased input, in the order it makes them. */
  function Classify(input: string): Command {
    if input == "show products" then ShowProducts
    else if StartsWith(input, "add ") then Add(Lower(Trim(ReplaceFirst(input, "add ", ""))))
    else if input == "show cart" then ShowCart
    else if input == "remove" then Remove
    else if input == "checkout" then Checkout
    else Other
  }

  /**
   * Three exact commands, the `add ` prefix and everything else; the tests
   * never overlap, so their order decides nothing. The product name of `add`
   * is what follows the prefix, trimmed and lower-cased.
   */
  lemma ClassifyCommands(input: string)
    ensures Classify(input) == ShowProducts <==> input == "show products"
    ensures Classify(input).Add? <==> StartsWith(input, "add ")
    ensures Classify(input).Add? ==> Classify(input).name == Lower(Trim(input[4..]))
    ensures Classify(input) == ShowCart <==> input == "show cart"
    ensures Classify(input) == Remove <==> input == "remove"
    ensures Classify(input) == Checkout <==> input == "checkout"
    ensures Classify(input) == Other <==>
      input !in {"show products", "show cart", "remove", "checkout"} && !StartsWith(input, "add ")
  {
    if input == "show products" {
      assert input[0] != 'a';
    } else if StartsWith(input, "add ") {
      assert input[0] == input[..4][0] == 'a';
      ReplacePrefix(input, "add ");
    }
  }

  /**
   * `processInput(input)`. Each gateway branch shows the typing indicator
   * while it waits and clears it before replying; the unrecognised branch
   * replies after a one-second timer, which one atomic step includes. The
   * `loadCart` that follows a successful add is not awaited: it runs after
   * the confirmation, with the indicator already off.
   */
  function Process(s: RuleState, input: string, b: RuleBackend): RuleState {
    Dispatch(s, Classify(input), b)
  }

  /** The branch of `processInput` that a recognised command selects. */
  function Dispatch(s: RuleState, cmd: Command, b: RuleBackend): RuleState {
    match cmd
    case ShowProducts =>
      var s1 := Issue(s.(isBotTyping := true), FetchProducts);
      if b.products.Rejected? then s1
      else BotSays(s1.(isBotTyping := false), Listing(ProductListing(b.products.value)), [])
    case Add(name) =>
      var s1 := Issue(s.(isBotTyping := true), FetchProducts);
      if b.products.Rejected? then s1
      else
        var ps := b.products.value;
        (match ProductIndex(ps, name)
         case None => BotSays(s1.(isBotTyping := false), NoSuchProduct, [])
         case Some(i) =>
           var s2 := Issue(s1, AddItem(ps[i].id, None));
           if b.added.Rejected? then s2
           else ReloadCart(BotSays(s2.(isBotTyping := false), Added(ps[i].name, None), []), b).after)
    case ShowCart =>
      var a := ReloadCart(s.(isBotTyping := true), b);
      if !a.resolved then a.after
      else BotSays(a.after.(isBotTyping := false), CartShown, [])
    case Remove =>
      var s1 := Issue(s.(isBotTyping := true), RemoveLine(None, None));
      if b.removed.Rejected? then s1
      else BotSays(s1.(isBotTyping := false), Echo(b.removed.value), []).(cart := None)
    case Checkout =>
      var s1 := Issue(s.(isBotTyping := true), CompleteCheckout);
      if b.ordered.Rejected? then s1
      else BotSays(s1.(isBotTyping := false, cart := None), Echo(b.ordered.value), [])
    case Other =>
      BotSays(s.(isBotTyping := false), DidNotUnderstand, [])
  }

  /** `handleSend()`: the trimmed text is shown as typed, and dispatched lower-cased. */
  function Send(s: RuleState, text: string, b: RuleBackend): RuleState {
    var msg := Trim(text);
    if msg == "" then s else Process(UserSays(s, msg), Lower(msg), b)
  }

  /** Blank input: nothing is shown, nothing is dispatched. */
  lemma BlankSendChangesNothing(s: RuleState, text: string, b: RuleBackend)
    requires Blank(text)
    ensures Send(s, text, b) == s
  {
  }

  /**
   * A non-blank send shows the trimmed text in its original case, but what
   * the dispatcher sees depends only on its lower-cased form: two texts that
   * agree ignoring case and surrounding blanks are dispatched alike.
   */
  lemma {:induction false} SendDispatchesLowerCase(s: RuleState, text: string, other: string, b: RuleBackend)
    requires !Blank(text) && Lower(Trim(text)) == Lower(Trim(other))
    ensures Send(s, text, b) == Process(UserSays(s, Trim(text)), Lower(Trim(other)), b)
    ensures s.messages + [Message(User, Said(Trim(text)), false)] <= Send(s, text, b).messages
  {
    ProcessAppends(UserSays(s, Trim(text)), Lower(Trim(text)), b);
  }

  /** A reply without a list clears the quick replies and hides them. */
  lemma ReplyWithoutListClearsQuickReplies(s: RuleState, body: Body)
    ensures BotSays(s, body, []).messages == s.messages + [Message(Bot, body, false)]
    ensures BotSays(s, body, []).quickReplies == [] && !BotSays(s, body, []).showQuickReplies
  {
  }

  /** `loadCart` keeps a snapshot exactly when it names a product, and otherwise reports an empty cart. */
  lemma ReloadKeepsOnlyNamedCarts(s: RuleState, b: RuleBackend)
    requires b.cart.Resolved?
    ensures ReloadCart(s, b).resolved
    ensures ReloadCart(s, b).after.cart.Some? ==> Truthy(ReloadCart(s, b).after.cart.value.productName)
    ensures ReloadCart(s, b).after.cart.Some? <==> b.cart.value.Some? && Truthy(b.cart.value.value.productName)
    ensures ReloadCart(s, b).after.cart.Some? ==> ReloadCart(s, b).after.cart == b.cart.value
    ensures ReloadCart(s, b).after.cart.None? ==>
      ReloadCart(s, b).after.messages == s.messages + [Message(Bot, CartEmpty, false)]
    ensures ReloadCart(s, b).after.cart.Some? ==> ReloadCart(s, b).after.messages == s.messages
  {
  }

  /** An `add` dispatch only appends to the transcript and the request log. */
  lemma {:induction false} AddAppends(s: RuleState, b: RuleBackend, name: string)
    ensures s.messages <= Dispatch(s, Add(name), b).messages
    ensures s.requests <= Dispatch(s, Add(name), b).requests
  {
    var r := Dispatch(s, Add(name), b);
    var s1 := Issue(s.(isBotTyping := true), FetchProducts);
    if b.products.Rejected? {
      assert r == s1;
    } else if ProductIndex(b.products.value, name).None? {
      assert r == BotSays(s1.(isBotTyping := false), NoSuchProduct, []);
    } else {
      var ps := b.products.value;
      var i := ProductIndex(ps, name).value;
      var s2 := Issue(s1, AddItem(ps[i].id, None));
      if b.added.Rejected? {
        assert r == s2;
      } else {
        AddFound(s, b, name, i);
      }
    }
  }

  /** A dispatch only appends to the transcript and the request log. */
  lemma {:induction false} ProcessAppends(s: RuleState, input: string, b: RuleBackend)
    ensures s.messages <= Process(s, input, b).messages
    ensures s.requests <= Process(s, input, b).requests
  {
    match Classify(input)
    case Add(name) => AddAppends(s, b, name);
    case _ =>
  }

  /** An unrecognised command: one "didn't understand" reply, no gateway call, indicator off. */
  lemma UnrecognisedCommand(s: RuleState, input: string, b: RuleBackend)
    requires input !in {"show products", "show cart", "remove", "checkout"} && !StartsWith(input, "add ")
    ensures Process(s, input, b).messages == s.messages + [Message(Bot, DidNotUnderstand, false)]
    ensures Process(s, input, b).requests == s.requests
    ensures !Process(s, input, b).isBotTyping
  {
    ClassifyCommands(input);
  }

  /** "show products": exactly one reply, listing every catalog product once, in order. */
  lemma ShowProductsListsCatalog(s: RuleState, b: RuleBackend, ps: seq<Product>)
    requires b.products == Resolved(ps)
    ensures Process(s, "show products", b).messages == s.messages + [Message(Bot, Listing(ProductListing(ps)), false)]
    ensures |ProductListing(ps)| == |ps|
    ensures Process(s, "show products", b).requests == s.requests + [Request(FetchProducts, true)]
  {
    ClassifyCommands("show products");
  }

  /** An `add` whose name is found: the catalog read and `addToCart` with the typing indicator on, then a confirmation and a cart reload. */
  lemma {:induction false} AddFound(s: RuleState, b: RuleBackend, name: string, i: nat)
    requires b.products.Resolved? && b.added.Resolved?
    requires ProductIndex(b.products.value, name) == Some(i)
    ensures Dispatch(s, Add(name), b).requests == s.requests
      + [Request(FetchProducts, true), Request(AddItem(b.products.value[i].id, None), true), Request(FetchCart, false)]
    ensures s.messages + [Message(Bot, Added(b.products.value[i].name, None), false)] <= Dispatch(s, Add(name), b).messages
    ensures !Dispatch(s, Add(name), b).isBotTyping
  {
    var ps := b.products.value;
    var s2 := Issue(Issue(s.(isBotTyping := true), FetchProducts), AddItem(ps[i].id, None));
    var s3 := BotSays(s2.(isBotTyping := false), Added(ps[i].name, None), []);
    assert Dispatch(s, Add(name), b) == ReloadCart(s3, b).after;
  }

  /**
   * "add <name>" with a product of that name (ignoring case): `addToCart` is
   * called with the first such product's Id and no quantity, the
   * confirmation names it, and the cart is reloaded after the indicator is off.
   */
  lemma {:induction false} AddNamedProduct(s: RuleState, input: string, b: RuleBackend, ps: seq<Product>, i: nat)
    requires StartsWith(input, "add ") && b.products == Resolved(ps) && b.added.Resolved?
    requires i < |ps| && Lower(ps[i].name) == Lower(Trim(input[4..]))
    requires forall j :: 0 <= j < i ==> Lower(ps[j].name) != Lower(Trim(input[4..]))
    ensures Process(s, input, b).requests
      == s.requests + [Request(FetchProducts, true), Request(AddItem(ps[i].id, None), true), Request(FetchCart, false)]
    ensures s.messages + [Message(Bot, Added(ps[i].name, None), false)] <= Process(s, input, b).messages
    ensures !Process(s, input, b).isBotTyping
  {
    var name := Lower(Trim(input[4..]));
    ClassifyCommands(input);
    FirstProductMatch(ps, name, i);
    AddFound(s, b, name, i);
  }

  /** "add <name>" with no product of that name: "Product not found." and no `addToCart` call. */
  lemma {:induction false} AddUnknownProduct(s: RuleState, input: string, b: RuleBackend, ps: seq<Product>)
    requires StartsWith(input, "add ") && b.products == Resolved(ps)
    requires forall j :: 0 <= j < |ps| ==> Lower(ps[j].name) != Lower(Trim(input[4..]))
    ensures Process(s, input, b).messages == s.messages + [Message(Bot, NoSuchProduct, false)]
    ensures Process(s, input, b).requests == s.requests + [Request(FetchProducts, true)]
    ensures !Process(s, input, b).isBotTyping
  {
    var name := Lower(Trim(input[4..]));
    ClassifyCommands(input);
    NoProductMatch(ps, name);
    AddMissing(s, b, name);
  }

  /** An `add` whose name is not found: "Product not found." after the catalog read, and nothing else. */
  lemma AddMissing(s: RuleState, b: RuleBackend, name: string)
    requires b.products.Resolved? && ProductIndex(b.products.value, name).None?
    ensures Dispatch(s, Add(name), b).messages == s.messages + [Message(Bot, NoSuchProduct, false)]
    ensures Dispatch(s, Add(name), b).requests == s.requests + [Request(FetchProducts, true)]
    ensures !Dispatch(s, Add(name), b).isBotTyping
  {
  }

  /** "remove" and "checkout" echo the gateway's message and forget the cart. */
  lemma RemoveAndCheckoutResetCart(s: RuleState, b: RuleBackend)
    requires b.removed.Resolved? && b.ordered.Resolved?
    ensures Process(s, "remove", b).cart.None? && Process(s, "checkout", b).cart.None?
    ensures Process(s, "remove", b).messages == s.messages + [Message(Bot, Echo(b.removed.value), false)]
    ensures Process(s, "checkout", b).messages == s.messages + [Message(Bot, Echo(b.ordered.value), false)]
    ensures Process(s, "remove", b).requests == s.requests + [Request(RemoveLine(None, None), true)]
    ensures Process(s, "checkout", b).requests == s.requests + [Request(CompleteCheckout, true)]
  {
    ClassifyCommands("remove");
    ClassifyCommands("checkout");
  }

  /** The typing facts below, for an `add` dispatch. */
  lemma {:induction false} AddTyping(s: RuleState, b: RuleBackend, name: string)
    ensures forall k :: |s.requests| <= k < |Dispatch(s, Add(name), b).requests| ==>
      Dispatch(s, Add(name), b).requests[k].typing || Dispatch(s, Add(name), b).requests[k].call == FetchCart
    ensures !Dispatch(s, Add(name), b).isBotTyping <==> |s.messages| < |Dispatch(s, Add(name), b).messages|
  {
    var r := Dispatch(s, Add(name), b);
    var s1 := Issue(s.(isBotTyping := true), FetchProducts);
    if b.products.Rejected? {
      assert r == s1;
    } else if ProductIndex(b.products.value, name).None? {
      assert r == BotSays(s1.(isBotTyping := false), NoSuchProduct, []);
    } else {
      var ps := b.products.value;
      var i := ProductIndex(ps, name).value;
      var s2 := Issue(s1, AddItem(ps[i].id, None));
      if b.added.Rejected? {
        assert r == s2;
      } else {
        AddFound(s, b, name, i);
      }
    }
  }

  /**
   * The typing indicator: every gateway call of a dispatch is issued while it
   * is on, except the cart reload after an add; and the dispatch ends with it
   * off exactly when it appended a reply (a rejected call leaves it on, silently).
   */
  lemma {:induction false} TypingDuringRequests(s: RuleState, input: string, b: RuleBackend)
    ensures forall k :: |s.requests| <= k < |Process(s, input, b).requests| ==>
      Process(s, input, b).requests[k].typing
      || (StartsWith(input, "add ") && Process(s, input, b).requests[k].call == FetchCart)
    ensures !Process(s, input, b).isBotTyping <==> |s.messages| < |Process(s, input, b).messages|
  {
    ClassifyCommands(input);
    match Classify(input)
    case Add(name) => AddTyping(s, b, name);
    case _ =>
  }

  class ChatBotContainer {
    var messages: seq<Message>
    var inputText: string
    var cart: Option<CartSnapshot>
    var isOpen: bool
    var isFullscreen: bool
    var isBotTyping: bool
    var showQuickReplies: bool
    var quickReplies: seq<QuickReply>
    /** The gateway calls issued so far, each with the indicator's state at the time. */
    ghost var requests: seq<Request>

    /** The part of the state a dispatch reads and writes. */
    ghost function State(): RuleState
      reads this
    {
      RuleState(messages, quickReplies, showQuickReplies, isBotTyping, cart, requests)
    }

    /** The field initialisers followed by `connectedCallback()`: the greeting with two quick replies. */
    constructor ()
      ensures messages == [Message(Bot, Welcome, false)]
      ensures quickReplies == GreetingReplies && showQuickReplies
      ensures inputText == "" && cart.None? && !isOpen && !isFullscreen && !isBotTyping
      ensures requests == []
    {
      messages := [Message(Bot, Welcome, false)];
      inputText := "";
      cart := None;
      isOpen := false;
      isFullscreen := false;
      isBotTyping := false;
      quickReplies := GreetingReplies;
      showQuickReplies := |GreetingReplies| > 0;
      requests := [];
    }

    /** `toggleChat()`: opening or closing the window always leaves full screen. */
    method ToggleChat()
      modifies this`isOpen, this`isFullscreen
      ensures isOpen == !old(isOpen) && !isFullscreen
    {
      isOpen := !isOpen;
      isFullscreen := false;
    }

    /** `toggleFullscreen()`. */
    method ToggleFullscreen()
      modifies this`isFullscreen
      ensures isFullscreen == !old(isFullscreen)
    {
      isFullscreen := !isFullscreen;
    }

    /** `handleInput(event)`: the input box's value. */
    method HandleInput(value: string)
      modifies this`inputText
      ensures inputText == value
    {
      inputText := value;
    }

    /** `addUserMessage(text)`. */
    method AddUserMessage(text: string)
      modifies this`messages
      ensures State() == UserSays(old(State()), text)
    {
      messages := messages + [Message(User, Said(text), false)];
    }

    /** `addBotMessage(text, quickReplies)`; callers pass `[]` where the source relies on the default. */
    method AddBotMessage(body: Body, replies: seq<QuickReply>)
      modifies this`messages, this`quickReplies, this`showQuickReplies
      ensures State() == BotSays(old(State()), body, replies)
    {
      messages := messages + [Message(Bot, body, false)];
      quickReplies := replies;
      showQuickReplies := |replies| > 0;
    }

    /** `loadCart()`; `ok` is false when its promise rejects. */
    method LoadCart(b: RuleBackend) returns (ok: bool)
      modifies this`messages, this`quickReplies, this`showQuickReplies, this`cart, this`requests
      ensures Step(State(), ok) == ReloadCart(old(State()), b)
    {
      requests := requests + [Request(FetchCart, isBotTyping)];
      if b.cart.Rejected? {
        return false;
      }
      if b.cart.value.Some? && Truthy(b.cart.value.value.productName) {
        cart := b.cart.value;
      } else {
        cart := None;
        AddBotMessage(CartEmpty, []);
      }
      return true;
    }

    /** `processInput(input)`. */
    method ProcessInput(input: string, b: RuleBackend)
      modifies this`messages, this`quickReplies, this`showQuickReplies, this`isBotTyping, this`cart, this`requests
      ensures State() == Process(old(State()), input, b)
    {
      match Classify(input) {
        case ShowProducts =>
          isBotTyping := true;
          requests := requests + [Request(FetchProducts, isBotTyping)];
          if b.products.Rejected? {
            return;
          }
          var lines := BuildListing(b.products.value);
          isBotTyping := false;
          AddBotMessage(Listing(lines), []);
        case Add(name) =>
          isBotTyping := true;
          requests := requests + [Request(FetchProducts, isBotTyping)];
          if b.products.Rejected? {
            return;
          }
          var ps := b.products.value;
          match ProductIndex(ps, name) {
            case None =>
              isBotTyping := false;
              AddBotMessage(NoSuchProduct, []);
            case Some(i) =>
              requests := requests + [Request(AddItem(ps[i].id, None), isBotTyping)];
              if b.added.Rejected? {
                return;
              }
              isBotTyping := false;
              AddBotMessage(Added(ps[i].name, None), []);
              var _ := LoadCart(b);
          }
        case ShowCart =>
          isBotTyping := true;
          var ok := LoadCart(b);
          if !ok {
            return;
          }
          isBotTyping := false;
          AddBotMessage(CartShown, []);
        case Remove =>
          isBotTyping := true;
          requests := requests + [Request(RemoveLine(None, None), isBotTyping)];
          if b.removed.Rejected? {
            return;
          }
          isBotTyping := false;
          AddBotMessage(Echo(b.removed.value), []);
          cart := None;
        case Checkout =>
          isBotTyping := true;
          requests := requests + [Request(CompleteCheckout, isBotTyping)];
          if b.ordered.Rejected? {
            return;
          }
          isBotTyping := false;
          cart := None;
          AddBotMessage(Echo(b.ordered.value), []);
        case Other =>
          isBotTyping := true;
          // the one-second timer fires
          isBotTyping := false;
          AddBotMessage(DidNotUnderstand, []);
      }
    }

    /** `handleSend()`: blank input does nothing; otherwise show, dispatch lower-cased, clear the box. */
    method HandleSend(b: RuleBackend)
      modifies this`messages, this`quickReplies, this`showQuickReplies, this`isBotTyping, this`cart, this`requests,
               this`inputText
      ensures State() == Send(old(State()), old(inputText), b)
      ensures inputText == if Blank(old(inputText)) then old(inputText) else ""
    {
      var msg := Trim(inputText);
      if msg == "" {
        return;
      }
      AddUserMessage(msg);
      ProcessInput(Lower(msg), b);
      inputText := "";
    }

    /** `handleQuickReply(event)`: the button's label is sent as if typed. */
    method HandleQuickReply(replyText: string, b: RuleBackend)
      modifies this`messages, this`quickReplies, this`showQuickReplies, this`isBotTyping, this`cart, this`requests,
               this`inputText
      ensures State() == Send(old(State()), replyText, b)
      ensures inputText == if Blank(replyText) then replyText else ""
    {
      inputText := replyText;
      HandleSend(b);
    }
  }
}
