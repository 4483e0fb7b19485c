/**
 * The classifier-backed controller without voice input, `LLMJS._Working.js`,
 * as the object it is. Each method is proved to move the state exactly as the
 * corresponding `Assistant` step function with `Variant` `Working` says, so
 * the properties proved in `AssistantFacts` hold of the object.
 *
 * Remote calls answer from a `Backend`.
 */
module WorkingBot {
  import opened Base
  import opened Text
  import opened Commerce
  import opened Transcript
  import opened Tables
  import opened Intent
  import Assistant

  class ChatBotContainer {
    var messages: seq<Message>
    var inputText: string
    var isOpen: bool
    var isFullscreen: bool
    var isBotTyping: bool
    var showQuickReplies: bool
    var quickReplies: seq<QuickReply>
    /** The remote calls issued so far, in order. */
    ghost var calls: seq<Call>

    /** The part of the state a dispatch reads and writes. */
    ghost function Conv(): Assistant.Conversation
      reads this
    {
      Assistant.Conversation(messages, quickReplies, showQuickReplies, isBotTyping, calls)
    }

    /**
     * The field initialisers followed by `connectedCallback()`: a plain-text
     * welcome message with the four default quick replies.
     */
    constructor ()
      ensures messages == [Message(Bot, Welcome, false)]
      ensures quickReplies == DefaultQuickReplies && showQuickReplies
      ensures inputText == "" && !isOpen && !isFullscreen && !isBotTyping
      ensures calls == []
    {
      messages := [Message(Bot, Welcome, false)];
      inputText := "";
      isOpen := false;
      isFullscreen := false;
      isBotTyping := false;
      quickReplies := DefaultQuickReplies;
      showQuickReplies := |DefaultQuickReplies| > 0;
      calls := [];
    }

    /** `toggleChat()`: opening or closing the window always leaves full screen. */
    method ToggleChat()
      modifies this`isOpen, this`isFullscreen
      ensures isOpen == !old(isOpen) && !isFullscreen
    {
      isOpen := !isOpen;
      isFullscreen := false;
    }

    /** `toggleFullscreen()`. */
    method ToggleFullscreen()
      modifies this`isFullscreen
      ensures isFullscreen == !old(isFullscreen)
    {
      isFullscreen := !isFullscreen;
    }

    /** `handleInput(event)`: the input box's value. */
    method HandleInput(value: string)
      modifies this`inputText
      ensures inputText == value
    {
      inputText := value;
    }

    /** `addUserMessage(text)`. */
    method AddUserMessage(text: string)
      modifies this`messages
      ensures Conv() == Assistant.UserSays(old(Conv()), text)
    {
      messages := messages + [Message(User, Said(text), false)];
    }

    /** `addBotMessage(text, quickReplies, isHtml)`; `None` is the `null` default. */
    method AddBotMessage(body: Body, replies: Option<seq<QuickReply>>, isHtml: bool)
      modifies this`messages, this`quickReplies, this`showQuickReplies
      ensures Conv() == Assistant.BotSays(old(Conv()), body, replies, isHtml)
    {
      messages := messages + [Message(Bot, body, isHtml)];
      if replies.Some? {
        quickReplies := replies.value;
        showQuickReplies := |replies.value| > 0;
      }
    }

    /** `handleAddToCart(productName, quantity)`; `ok` is false when its promise rejects. */
    method HandleAddToCart(b: Assistant.Backend, name: Option<string>, quantity: int) returns (ok: bool)
      modifies this`messages, this`quickReplies, this`showQuickReplies, this`isBotTyping, this`calls
      ensures Assistant.Attempt(Conv(), ok) == Assistant.HandleAddToCart(old(Conv()), b, name, quantity)
    {
      calls := calls + [FetchProducts];
      if b.products.Rejected? {
        return false;
      }
      var ps := b.products.value;
      match Assistant.FindProduct(ps, name)
      case Rejected =>
        return false;
      case Resolved(None) =>
        AddBotMessage(NotFound(name), None, false);
        isBotTyping := false;
        return true;
      case Resolved(Some(i)) =>
        calls := calls + [AddItem(ps[i].id, Some(quantity))];
        if b.added.Rejected? {
          return false;
        }
        AddBotMessage(Added(ps[i].name, Some(quantity)), None, false);
        isBotTyping := false;
        return true;
    }

    /** `handleRemoveFromCart(productName)`: `removeItem` is called without a quantity. */
    method HandleRemoveFromCart(b: Assistant.Backend, name: Option<string>) returns (ok: bool)
      modifies this`messages, this`quickReplies, this`showQuickReplies, this`isBotTyping, this`calls
      ensures Assistant.Attempt(Conv(), ok) == Assistant.HandleRemoveFromCart(old(Conv()), b, name, None)
    {
      calls := calls + [FetchCart];
      if b.cart.Rejected? || b.cart.value.None? || b.cart.value.value.items.None? {
        return false;
      }
      var items := b.cart.value.value.items.value;
      match Assistant.FindLine(items, name)
      case Rejected =>
        return false;
      case Resolved(None) =>
        AddBotMessage(NotInCart(name), None, false);
        isBotTyping := false;
        return true;
      case Resolved(Some(i)) =>
        calls := calls + [RemoveLine(Some(items[i].productId), None)];
        if b.removed.Rejected? {
          return false;
        }
        AddBotMessage(Removed(items[i].productName), None, false);
        isBotTyping := false;
        return true;
    }

    /** `handleSearchProducts(query)`: the hits as a table, or a no-match message. */
    method HandleSearchProducts(b: Assistant.Backend, query: Option<string>) returns (ok: bool)
      modifies this`messages, this`quickReplies, this`showQuickReplies, this`isBotTyping, this`calls
      ensures Assistant.Attempt(Conv(), ok) == Assistant.HandleSearchProducts(Assistant.Working, old(Conv()), b, query)
    {
      isBotTyping := true;
      calls := calls + [SearchCatalog(query)];
      if b.searchHits.Rejected? {
        return false;
      }
      if |b.searchHits.value| > 0 {
        var table := BuildSearchTable(b.searchHits.value);
        AddBotMessage(Grid(table), None, true);
      } else {
        AddBotMessage(NoMatches(query), None, false);
      }
      isBotTyping := false;
      return true;
    }

    /** `handleShowCart()`. */
    method HandleShowCart(b: Assistant.Backend) returns (ok: bool)
      modifies this`messages, this`quickReplies, this`showQuickReplies, this`isBotTyping, this`calls
      ensures Assistant.Attempt(Conv(), ok) == Assistant.HandleShowCart(old(Conv()), b)
    {
      calls := calls + [FetchCart];
      if b.cart.Rejected? {
        return false;
      }
      if Assistant.HasItems(b.cart.value) {
        var cart := b.cart.value.value;
        var table := BuildCartTable(cart.items.value, cart.grandTotal);
        AddBotMessage(Grid(table), None, true);
      } else {
        AddBotMessage(CartEmpty, None, false);
      }
      isBotTyping := false;
      return true;
    }

    /** `handleCheckout()`. */
    method HandleCheckout(b: Assistant.Backend) returns (ok: bool)
      modifies this`messages, this`quickReplies, this`showQuickReplies, this`isBotTyping, this`calls
      ensures Assistant.Attempt(Conv(), ok) == Assistant.HandleCheckout(old(Conv()), b)
    {
      calls := calls + [CompleteCheckout];
      if b.ordered.Rejected? {
        return false;
      }
      AddBotMessage(Echo(b.ordered.value), None, false);
      isBotTyping := false;
      return true;
    }

    /** `handleHelp()`. */
    method HandleHelp()
      modifies this`messages, this`quickReplies, this`showQuickReplies, this`isBotTyping
      ensures Conv() == Assistant.HandleHelp(Assistant.Working, old(Conv()))
    {
      AddBotMessage(HelpText, Some(DefaultQuickReplies), false);
      isBotTyping := false;
    }

    /** `handleShowProducts()`. */
    method HandleShowProducts(b: Assistant.Backend) returns (ok: bool)
      modifies this`messages, this`quickReplies, this`showQuickReplies, this`isBotTyping, this`calls
      ensures Assistant.Attempt(Conv(), ok) == Assistant.HandleShowProducts(old(Conv()), b)
    {
      calls := calls + [FetchProductTable];
      if b.productTable.Rejected? {
        return false;
      }
      var table := BuildCatalogTable(b.productTable.value);
      AddBotMessage(Grid(table), None, true);
      isBotTyping := false;
      return true;
    }

    /** `handleUnknownInput(input)`: the handlers it starts are not awaited, so their outcome is dropped. */
    method HandleUnknownInput(input: string, b: Assistant.Backend)
      modifies this`messages, this`quickReplies, this`showQuickReplies, this`isBotTyping, this`calls
      ensures Conv() == Assistant.HandleUnknownInput(Assistant.Working, old(Conv()), input, b)
    {
      match Resolve(input)
      case BrowseCatalog =>
        var _ := HandleShowProducts(b);
      case ViewCart =>
        var _ := HandleShowCart(b);
      case PlaceOrder =>
        var _ := HandleCheckout(b);
      case OfferHelp =>
        HandleHelp();
      case NotUnderstood =>
        AddBotMessage(DidNotUnderstand, None, false);
        isBotTyping := false;
    }

    /** The outer `catch` of `processInput`. */
    method Apologize()
      modifies this`messages, this`quickReplies, this`showQuickReplies, this`isBotTyping
      ensures Conv() == Assistant.Apologize(old(Conv()))
    {
      isBotTyping := false;
      AddBotMessage(Apology, None, false);
    }

    /** `processInput(input)`; `parse` is `JSON.parse`, `None` when it throws. */
    method ProcessInput(input: string, b: Assistant.Backend, parse: string -> Option<Parsed>)
      modifies this`messages, this`quickReplies, this`showQuickReplies, this`isBotTyping, this`calls
      ensures Conv() == Assistant.ProcessInput(Assistant.Working, old(Conv()), input, b, parse)
    {
      isBotTyping := true;
      calls := calls + [AskGemini(input)];
      if b.gemini.Rejected? {
        Apologize();
        return;
      }
      var reply := Interpret(parse(b.gemini.value));
      if reply.NullValue? {
        Apologize();
        return;
      }
      var ok := true;
      match ActionOf(reply.action) {
      case AddToCart =>
        ok := HandleAddToCart(b, reply.product, QuantityOrOne(reply.quantity));
      case RemoveFromCart =>
        ok := HandleRemoveFromCart(b, reply.product);
      case SearchProducts =>
        ok := HandleSearchProducts(b, reply.query);
      case ShowCart =>
        ok := HandleShowCart(b);
      case Checkout =>
        ok := HandleCheckout(b);
      case Help =>
        HandleHelp();
      case ShowProducts =>
        ok := HandleShowProducts(b);
      case Unknown =>
        HandleUnknownInput(input, b);
      }
      if !ok {
        Apologize();
      }
    }

    /**
     * `handleSend()`: blank input does nothing; otherwise the trimmed text is
     * shown, dispatched, and the input box is cleared.
     */
    method HandleSend(b: Assistant.Backend, parse: string -> Option<Parsed>)
      modifies this`messages, this`quickReplies, this`showQuickReplies, this`isBotTyping, this`calls, this`inputText
      ensures Conv() == Assistant.HandleSend(Assistant.Working, old(Conv()), old(inputText), b, parse)
      ensures inputText == if Blank(old(inputText)) then old(inputText) else ""
    {
      var msg := Trim(inputText);
      if msg == "" {
        return;
      }
      AddUserMessage(msg);
      ProcessInput(msg, b, parse);
      inputText := "";
    }

    /** `handleKeyPress(event)`: only Enter sends. */
    method HandleKeyPress(key: string, b: Assistant.Backend, parse: string -> Option<Parsed>)
      modifies this`messages, this`quickReplies, this`showQuickReplies, this`isBotTyping, this`calls, this`inputText
      ensures key == "Enter" ==> Conv() == Assistant.HandleSend(Assistant.Working, old(Conv()), old(inputText), b, parse)
      ensures key == "Enter" ==> inputText == if Blank(old(inputText)) then old(inputText) else ""
      ensures key != "Enter" ==> Conv() == old(Conv()) && inputText == old(inputText)
    {
      if key == "Enter" {
        HandleSend(b, parse);
      }
    }

    /** `handleQuickReply(event)`: the button's label is sent as if typed. */
    method HandleQuickReply(replyText: string, b: Assistant.Backend, parse: string -> Option<Parsed>)
      modifies this`messages, this`quickReplies, this`showQuickReplies, this`isBotTyping, this`calls, this`inputText
      ensures Conv() == Assistant.HandleSend(Assistant.Working, old(Conv()), replyText, b, parse)
      ensures inputText == if Blank(replyText) then replyText else ""
    {
      inputText := replyText;
      HandleSend(b, parse);
    }

  }
}
