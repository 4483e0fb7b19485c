/**
 * The chat transcript as the controllers keep it: who spoke, which reply was
 * shown, whether it is embedded as HTML, and the quick-reply buttons; plus the
 * presentation getters the three variants share.
 */
module Transcript {
  import opened Base
  import opened Commerce

  datatype Sender = User | Bot

  /** A rendered table: header cells, one row of cells per record, footer cells. */
  datatype Table = Table(header: seq<Field>, rows: seq<seq<Field>>, footer: seq<Field>)

  /**
   * Which message was shown. The exact wording, emoji and HTML markup are not
   * modelled; the values a message interpolates are.
   */
  datatype Body =
    | Said(text: string)                              // the user's own words
    | Welcome                                         // connectedCallback greeting
    | Added(name: string, quantity: Option<int>)      // "<name> (<quantity>) added to cart."
    | NotFound(asked: Option<string>)                 // `Product "<name>" not found.`
    | NoSuchProduct                                   // "Product not found." (rule-based)
    | Removed(name: string)                           // "<name> removed from cart."
    | NotInCart(asked: Option<string>)                // `Product "<name>" not found in cart.`
    | Available(keyword: Option<string>)              // "Yes, <keyword> is available."
    | Unavailable(keyword: Option<string>)            // "No, <keyword> is not available."
    | NoMatches(query: Option<string>)                // `No products found matching "<query>".`
    | Grid(table: Table)                              // an HTML table
    | Listing(lines: seq<seq<Field>>)                 // "Available Products:" one line per product
    | CartEmpty                                       // "Your cart is empty."
    | CartShown                                       // "Cart details shown."
    | HelpText                                        // the capabilities summary
    | DidNotUnderstand                                // "Sorry, I didn't understand that."
    | Apology                                         // "Sorry, I encountered an error."
    | Echo(text: string)                              // a gateway result shown verbatim

  datatype Message = Message(sender: Sender, body: Body, isHtml: bool)

  datatype QuickReply = QuickReply(id: int, text: string)

  /** The four replies offered on connect and after help in the classifier-backed variants. */
  const DefaultQuickReplies: seq<QuickReply> := [
    QuickReply(1, "show products"),
    QuickReply(2, "show cart"),
    QuickReply(3, "checkout"),
    QuickReply(4, "need Help")
  ]

  /** The `fullscreenIcon` getter. */
  function FullscreenIcon(isFullscreen: bool): string {
    if isFullscreen then "utility:contract_alt" else "utility:expand_alt"
  }

  /** The `chatContainerClass` getter: the base class, then ` open`, then ` fullscreen`. */
  function ContainerClass(isOpen: bool, isFullscreen: bool): string {
    "chat-container" + (if isOpen then " open" else "") + (if isFullscreen then " fullscreen" else "")
  }

  /** The class string tells both flags apart, so the stylesheet can react to each. */
  lemma ContainerClassDistinguishes(o1: bool, f1: bool, o2: bool, f2: bool)
    requires ContainerClass(o1, f1) == ContainerClass(o2, f2)
    ensures o1 == o2 && f1 == f2
  {
    var c1, c2 := ContainerClass(o1, f1), ContainerClass(o2, f2);
    assert |c1| == 14 + (if o1 then 5 else 0) + (if f1 then 11 else 0);
    assert |c2| == 14 + (if o2 then 5 else 0) + (if f2 then 11 else 0);
  }

  /** The `micIcon` getter. */
  function MicIcon(isListening: bool): string {
    if isListening then "\U{1F534}" else "\U{1F3A4}"
  }

  /** The `micButtonClass` getter. */
  function MicButtonClass(isListening: bool): string {
    if isListening then "mic-button active" else "mic-button"
  }
}
