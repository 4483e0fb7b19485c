/**
 * The voice-enabled controller, `LLLndVoice/chatBotContainer.js`, as the
 * object it is: its tracked fields are fields of the class, and every handler
 * updates them in place. Each method is proved to move the state exactly as
 * the corresponding `Assistant` step function with `Variant` `Voice` says,
 * so the properties proved in `AssistantFacts` hold of the object.
 *
 * Remote calls answer from a `Backend`; the speech engine is reduced to
 * whether the browser offers one and to its two callbacks.
 */
module VoiceBot {
  import opened Base
  import opened Text
  import opened Commerce
  import opened Transcript
  import opened Tables
  import opened Intent
  import Assistant

  class ChatBotContainer {
    var messages: seq<Message>
    var inputText: string
    var isOpen: bool
    var isFullscreen: bool
    var isBotTyping: bool
    var showQuickReplies: bool
    var quickReplies: seq<QuickReply>
    var isListening: bool
    /** Whether `recognition` was created, that is whether the browser offers speech recognition. */
    const hasRecognizer: bool
    /** The remote calls issued so far, in order. */
    ghost var calls: seq<Call>

    /** The part of the state a dispatch reads and writes. */
    ghost function Conv(): Assistant.Conversation
      reads this
    {
      Assistant.Conversation(messages, quickReplies, showQuickReplies, isBotTyping, calls)
    }

    /**
     * The field initialisers followed by `connectedCallback()`: the HTML
     * welcome message with the four default quick replies.
     */
    constructor (speechSupported: bool)
      ensures messages == [Message(Bot, Welcome, true)]
      ensures quickReplies == DefaultQuickReplies && showQuickReplies
      ensures inputText == "" && !isOpen && !isFullscreen && !isBotTyping && !isListening
      ensures hasRecognizer == speechSupported && calls == []
    {
      messages := [Message(Bot, Welcome, true)];
      inputText := "";
      isOpen := false;
      isFullscreen := false;
      isBotTyping := false;
      quickReplies := DefaultQuickReplies;
      showQuickReplies := |DefaultQuickReplies| > 0;
      isListening := false;
      hasRecognizer := speechSupported;
      calls := [];
    }

    /** `toggleChat()`: opening or closing the window always leaves full screen. */
    method ToggleChat()
      modifies this`isOpen, this`isFullscreen
      ensures isOpen == !old(isOpen) && !isFullscreen
    {
      isOpen := !isOpen;
      isFullscreen := false;
    }

    /** `toggleFullscreen()`. */
    method ToggleFullscreen()
      modifies this`isFullscreen
      ensures isFullscreen == !old(isFullscreen)
    {
      isFullscreen := !isFullscreen;
    }

    /** `toggleMic()`: starts or stops listening; without a recognizer it does nothing. */
    method ToggleMic()
      modifies this`isListening
      ensures isListening == if hasRecognizer then !old(isListening) else old(isListening)
    {
      if !hasRecognizer {
        return;
      }
      if isListening {
        isListening := false;
      } else {
        isListening := true;
      }
    }

    /** `recognition.onresult`: the transcript replaces the input text; nothing is sent. */
    method RecognitionResult(transcript: string)
      requires hasRecognizer
      modifies this`inputText
      ensures inputText == transcript
    {
      inputText := transcript;
    }

    /** `recognition.onend` and `recognition.onerror`: listening stops. */
    method RecognitionEnded()
      requires hasRecognizer
      modifies this`isListening
      ensures !isListening
    {
      isListening := false;
    }

    /** `handleInput(event)`: the input box's value. */
    method HandleInput(value: string)
      modifies this`inputText
      ensures inputText == value
    {
      inputText := value;
    }

    /** `addUserMessage(text)`. */
    method AddUserMessage(text: string)
      modifies this`messages
      ensures Conv() == Assistant.UserSays(old(Conv()), text)
    {
      messages := messages + [Message(User, Said(text), false)];
    }

    /** `addBotMessage(text, quickReplies, isHtml)`; `None` is the `null` default. */
    method AddBotMessage(body: Body, replies: Option<seq<QuickReply>>, isHtml: bool)
      modifies this`messages, this`quickReplies, this`showQuickReplies
      ensures Conv() == Assistant.BotSays(old(Conv()), body, replies, isHtml)
    {
      messages := messages + [Message(Bot, body, isHtml)];
      if replies.Some? {
        quickReplies := replies.value;
        showQuickReplies := |replies.value| > 0;
      }
    }

    /** `handleAddToCart(productName, quantity)`; `ok` is false when its promise rejects. */
    method HandleAddToCart(b: Assistant.Backend, name: Option<string>, quantity: int) returns (ok: bool)
      modifies this`messages, this`quickReplies, this`showQuickReplies, this`isBotTyping, this`calls
      ensures Assistant.Attempt(Conv(), ok) == Assistant.HandleAddToCart(old(Conv()), b, name, quantity)
    {
      calls := calls + [FetchProducts];
      if b.products.Rejected? {
        return false;
      }
      var ps := b.products.value;
      match Assistant.FindProduct(ps, name)
      case Rejected =>
        return false;
      case Resolved(None) =>
        AddBotMessage(NotFound(name), None, false);
        isBotTyping := false;
        return true;
      case Resolved(Some(i)) =>
        calls := calls + [AddItem(ps[i].id, Some(quantity))];
        if b.added.Rejected? {
          return false;
        }
        AddBotMessage(Added(ps[i].name, Some(quantity)), None, false);
        isBotTyping := false;
        return true;
    }

    /** `handleRemoveFromCart(productName, quantity)`. */
    method HandleRemoveFromCart(b: Assistant.Backend, name: Option<string>, quantity: Option<int>) returns (ok: bool)
      modifies this`messages, this`quickReplies, this`showQuickReplies, this`isBotTyping, this`calls
      ensures Assistant.Attempt(Conv(), ok) == Assistant.HandleRemoveFromCart(old(Conv()), b, name, quantity)
    {
      calls := calls + [FetchCart];
      if b.cart.Rejected? || b.cart.value.None? || b.cart.value.value.items.None? {
        return false;
      }
      var items := b.cart.value.value.items.value;
      match Assistant.FindLine(items, name)
      case Rejected =>
        return false;
      case Resolved(None) =>
        AddBotMessage(NotInCart(name), None, false);
        isBotTyping := false;
        return true;
      case Resolved(Some(i)) =>
        calls := calls + [RemoveLine(Some(items[i].productId), quantity)];
        if b.removed.Rejected? {
          return false;
        }
        AddBotMessage(Removed(items[i].productName), None, false);
        isBotTyping := false;
        return true;
    }

    /** `handleSearchProducts(productName)`: a yes-or-no answer; the table is not rendered in this file. */
    method HandleSearchProducts(b: Assistant.Backend, keyword: Option<string>) returns (ok: bool)
      modifies this`messages, this`quickReplies, this`showQuickReplies, this`isBotTyping, this`calls
      ensures Assistant.Attempt(Conv(), ok) == Assistant.HandleSearchProducts(Assistant.Voice, old(Conv()), b, keyword)
    {
      isBotTyping := true;
      calls := calls + [SearchCatalog(keyword)];
      if b.searchHits.Rejected? {
        return false;
      }
      if |b.searchHits.value| > 0 {
        AddBotMessage(Available(keyword), None, false);
      } else {
        AddBotMessage(Unavailable(keyword), None, false);
      }
      isBotTyping := false;
      return true;
    }

    /** `handleShowCart()`. */
    method HandleShowCart(b: Assistant.Backend) returns (ok: bool)
      modifies this`messages, this`quickReplies, this`showQuickReplies, this`isBotTyping, this`calls
      ensures Assistant.Attempt(Conv(), ok) == Assistant.HandleShowCart(old(Conv()), b)
    {
      calls := calls + [FetchCart];
      if b.cart.Rejected? {
        return false;
      }
      if Assistant.HasItems(b.cart.value) {
        var cart := b.cart.value.value;
        var table := BuildCartTable(cart.items.value, cart.grandTotal);
        AddBotMessage(Grid(table), None, true);
      } else {
        AddBotMessage(CartEmpty, None, false);
      }
      isBotTyping := false;
      return true;
    }

    /** `handleCheckout()`. */
    method HandleCheckout(b: Assistant.Backend) returns (ok: bool)
      modifies this`messages, this`quickReplies, this`showQuickReplies, this`isBotTyping, this`calls
      ensures Assistant.Attempt(Conv(), ok) == Assistant.HandleCheckout(old(Conv()), b)
    {
      calls := calls + [CompleteCheckout];
      if b.ordered.Rejected? {
        return false;
      }
      AddBotMessage(Echo(b.ordered.value), None, false);
      isBotTyping := false;
      return true;
    }

    /** `handleHelp()`. */
    method HandleHelp()
      modifies this`messages, this`quickReplies, this`showQuickReplies, this`isBotTyping
      ensures Conv() == Assistant.HandleHelp(Assistant.Voice, old(Conv()))
    {
      AddBotMessage(HelpText, Some(DefaultQuickReplies), true);
      isBotTyping := false;
    }

    /** `handleShowProducts()`. */
    method HandleShowProducts(b: Assistant.Backend) returns (ok: bool)
      modifies this`messages, this`quickReplies, this`showQuickReplies, this`isBotTyping, this`calls
      ensures Assistant.Attempt(Conv(), ok) == Assistant.HandleShowProducts(old(Conv()), b)
    {
      calls := calls + [FetchProductTable];
      if b.productTable.Rejected? {
        return false;
      }
      var table := BuildCatalogTable(b.productTable.value);
      AddBotMessage(Grid(table), None, true);
      isBotTyping := false;
      return true;
    }

    /** `handleUnknownInput(input)`: the handlers it starts are not awaited, so their outcome is dropped. */
    method HandleUnknownInput(input: string, b: Assistant.Backend)
      modifies this`messages, this`quickReplies, this`showQuickReplies, this`isBotTyping, this`calls
      ensures Conv() == Assistant.HandleUnknownInput(Assistant.Voice, old(Conv()), input, b)
    {
      match Resolve(input)
      case BrowseCatalog =>
        var _ := HandleShowProducts(b);
      case ViewCart =>
        var _ := HandleShowCart(b);
      case PlaceOrder =>
        var _ := HandleCheckout(b);
      case OfferHelp =>
        HandleHelp();
      case NotUnderstood =>
        AddBotMessage(DidNotUnderstand, None, false);
        isBotTyping := false;
    }

    /** The outer `catch` of `processInput`. */
    method Apologize()
      modifies this`messages, this`quickReplies, this`showQuickReplies, this`isBotTyping
      ensures Conv() == Assistant.Apologize(old(Conv()))
    {
      isBotTyping := false;
      AddBotMessage(Apology, None, false);
    }

    /** `processInput(input)`; `parse` is `JSON.parse`, `None` when it throws. */
    method ProcessInput(input: string, b: Assistant.Backend, parse: string -> Option<Parsed>)
      modifies this`messages, this`quickReplies, this`showQuickReplies, this`isBotTyping, this`calls
      ensures Conv() == Assistant.ProcessInput(Assistant.Voice, old(Conv()), input, b, parse)
    {
      isBotTyping := true;
      calls := calls + [AskGemini(input)];
      if b.gemini.Rejected? {
        Apologize();
        return;
      }
      var reply := Interpret(parse(b.gemini.value));
      if reply.NullValue? {
        Apologize();
        return;
      }
      var ok := true;
      match ActionOf(reply.action) {
      case AddToCart =>
        ok := HandleAddToCart(b, reply.product, QuantityOrOne(reply.quantity));
      case RemoveFromCart =>
        ok := HandleRemoveFromCart(b, reply.product, reply.quantity);
      case SearchProducts =>
        ok := HandleSearchProducts(b, reply.product);
      case ShowCart =>
        ok := HandleShowCart(b);
      case Checkout =>
        ok := HandleCheckout(b);
      case Help =>
        HandleHelp();
      case ShowProducts =>
        ok := HandleShowProducts(b);
      case Unknown =>
        HandleUnknownInput(input, b);
      }
      if !ok {
        Apologize();
      }
    }

    /**
     * `handleSend()`: blank input does nothing; otherwise the trimmed text is
     * shown, dispatched, and the input box is cleared.
     */
    method HandleSend(b: Assistant.Backend, parse: string -> Option<Parsed>)
      modifies this`messages, this`quickReplies, this`showQuickReplies, this`isBotTyping, this`calls, this`inputText
      ensures Conv() == Assistant.HandleSend(Assistant.Voice, old(Conv()), old(inputText), b, parse)
      ensures inputText == if Blank(old(inputText)) then old(inputText) else ""
    {
      var msg := Trim(inputText);
      if msg == "" {
        return;
      }
      AddUserMessage(msg);
      ProcessInput(msg, b, parse);
      inputText := "";
    }

    /** `handleKeyPress(event)`: only Enter sends. */
    method HandleKeyPress(key: string, b: Assistant.Backend, parse: string -> Option<Parsed>)
      modifies this`messages, this`quickReplies, this`showQuickReplies, this`isBotTyping, this`calls, this`inputText
      ensures key == "Enter" ==> Conv() == Assistant.HandleSend(Assistant.Voice, old(Conv()), old(inputText), b, parse)
      ensures key == "Enter" ==> inputText == if Blank(old(inputText)) then old(inputText) else ""
      ensures key != "Enter" ==> Conv() == old(Conv()) && inputText == old(inputText)
    {
      if key == "Enter" {
        HandleSend(b, parse);
      }
    }

    /** `handleQuickReply(event)`: the button's label is sent as if typed. */
    method HandleQuickReply(replyText: string, b: Assistant.Backend, parse: string -> Option<Parsed>)
      modifies this`messages, this`quickReplies, this`showQuickReplies, this`isBotTyping, this`calls, this`inputText
      ensures Conv() == Assistant.HandleSend(Assistant.Voice, old(Conv()), replyText, b, parse)
      ensures inputText == if Blank(replyText) then replyText else ""
    {
      inputText := replyText;
      HandleSend(b, parse);
    }

  }
}
