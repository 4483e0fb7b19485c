/**
 * Intents: what the classifier's JSON reply says, the closed set of action
 * tags the dispatcher branches on, and the keyword fallback
 * (`handleUnknownInput`) that takes over when the tag is not one of them.
 */
module Intent {
  import opened Base
  import opened Text

  /**
   * What `JSON.parse` made of the classifier reply, as far as the dispatcher
   * reads it. `null` is kept apart because reading `.action` of it throws; any
   * other value that is not an object (a number, a string, an array) reads
   * every slot as undefined, that is `Record(None, None, None, None)`.
   * A slot holding a value of another JSON type than the one shown is not modelled.
   */
  datatype Parsed =
    | NullValue
    | Record(action: Option<string>, product: Option<string>, query: Option<string>, quantity: Option<int>)

  /** `{ action: 'unknown' }`, what the dispatcher substitutes when `JSON.parse` throws. */
  const UnknownReply: Parsed := Record(Some("unknown"), None, None, None)

  /** The parsed reply, with a parse failure (`None`) normalised to `UnknownReply`. */
  function Interpret(parsed: Option<Parsed>): Parsed {
    if parsed.Some? then parsed.value else UnknownReply
  }

  /** The `switch (parsedResponse.action)` cases; `Unknown` is `'unknown'` and `default`. */
  datatype Action = AddToCart | RemoveFromCart | SearchProducts | ShowCart | Checkout | Help | ShowProducts | Unknown

  /** The wire tag of each case. */
  function Tag(a: Action): string {
    match a
    case AddToCart => "addToCart"
    case RemoveFromCart => "removeFromCart"
    case SearchProducts => "searchProducts"
    case ShowCart => "showCart"
    case Checkout => "checkout"
    case Help => "help"
    case ShowProducts => "showProducts"
    case Unknown => "unknown"
  }

  /** The seven tags that select a handler. */
  const HandlerTags: set<string> :=
    {"addToCart", "removeFromCart", "searchProducts", "showCart", "checkout", "help", "showProducts"}

  /**
   * The `switch`: a tag selects its own case, and a missing tag or one outside
   * the seven handler tags lands in `Unknown`.
   */
  function ActionOf(tag: Option<string>): (a: Action)
    ensures a != Unknown <==> tag.Some? && tag.value in HandlerTags
    ensures a != Unknown ==> tag == Some(Tag(a))
  {
    if tag.None? then Unknown
    else if tag.value == "addToCart" then AddToCart
    else if tag.value == "removeFromCart" then RemoveFromCart
    else if tag.value == "searchProducts" then SearchProducts
    else if tag.value == "showCart" then ShowCart
    else if tag.value == "checkout" then Checkout
    else if tag.value == "help" then Help
    else if tag.value == "showProducts" then ShowProducts
    else Unknown
  }

  /** Each action's tag routes back to that action. */
  lemma ActionOfTag(a: Action)
    ensures ActionOf(Some(Tag(a))) == a
  {
  }

  /** `parsedResponse.quantity || 1`: a missing or zero quantity becomes 1. */
  function QuantityOrOne(q: Option<int>): (n: int)
    ensures n != 0
    ensures q.Some? && q.value != 0 ==> n == q.value
    ensures q.None? || q.value == 0 ==> n == 1
  {
    if q.Some? && q.value != 0 then q.value else 1
  }

  /** What the keyword fallback decides for an utterance. */
  datatype Resolution = BrowseCatalog | ViewCart | PlaceOrder | OfferHelp | NotUnderstood

  /**
   * `handleUnknownInput`'s decision: case-insensitive containment tests in a
   * fixed priority order, the first that matches wins.
   */
  function Resolve(input: string): Resolution {
    var s := Lower(input);
    if Contains(s, "product") || Contains(s, "item") then BrowseCatalog
    else if Contains(s, "cart") || Contains(s, "basket") then ViewCart
    else if Contains(s, "checkout") || Contains(s, "buy") then PlaceOrder
    else if Contains(s, "help") then OfferHelp
    else NotUnderstood
  }

  /** One line of the priority table: any of these keywords selects this outcome. */
  datatype Rule = Rule(keywords: seq<string>, outcome: Resolution)

  /** The fallback's priority table, highest priority first. */
  const FallbackRules: seq<Rule> := [
    Rule(["product", "item"], BrowseCatalog),
    Rule(["cart", "basket"], ViewCart),
    Rule(["checkout", "buy"], PlaceOrder),
    Rule(["help"], OfferHelp)
  ]

  /** Some keyword of the list occurs in `s`. */
  predicate MentionsAny(s: string, keywords: seq<string>) {
    exists k :: 0 <= k < |keywords| && Contains(s, keywords[k])
  }

  /** The outcome of the first rule one of whose keywords occurs in `s`. */
  function FirstMatch(rules: seq<Rule>, s: string): Resolution {
    if rules == [] then NotUnderstood
    else if MentionsAny(s, rules[0].keywords) then rules[0].outcome
    else FirstMatch(rules[1..], s)
  }

  /** `Resolve` is the first-match reading of the priority table, on the lower-cased input. */
  lemma {:induction false} ResolveIsFirstMatch(input: string)
    ensures Resolve(input) == FirstMatch(FallbackRules, Lower(input))
  {
    var s := Lower(input);
    var rules := FallbackRules;
    assert MentionsAny(s, rules[0].keywords) <==> Contains(s, "product") || Contains(s, "item") by {
      assert rules[0].keywords[0] == "product" && rules[0].keywords[1] == "item";
    }
    assert MentionsAny(s, rules[1].keywords) <==> Contains(s, "cart") || Contains(s, "basket") by {
      assert rules[1].keywords[0] == "cart" && rules[1].keywords[1] == "basket";
    }
    assert MentionsAny(s, rules[2].keywords) <==> Contains(s, "checkout") || Contains(s, "buy") by {
      assert rules[2].keywords[0] == "checkout" && rules[2].keywords[1] == "buy";
    }
    assert MentionsAny(s, rules[3].keywords) <==> Contains(s, "help") by {
      assert rules[3].keywords[0] == "help";
    }
    var r1, r2, r3 := rules[1..], rules[2..], rules[3..];
    assert r1[0] == rules[1] && r1[1..] == r2;
    assert r2[0] == rules[2] && r2[1..] == r3;
    assert r3[0] == rules[3] && r3[1..] == [];
    assert FirstMatch(r3, s) == if Contains(s, "help") then OfferHelp else NotUnderstood;
    assert FirstMatch(r2, s) == if MentionsAny(s, rules[2].keywords) then PlaceOrder else FirstMatch(r3, s);
    assert FirstMatch(r1, s) == if MentionsAny(s, rules[1].keywords) then ViewCart else FirstMatch(r2, s);
    assert FirstMatch(rules, s) == if MentionsAny(s, rules[0].keywords) then BrowseCatalog else FirstMatch(r1, s);
  }

  /** The fallback ignores letter case: lower-casing the utterance first changes nothing. */
  lemma {:induction false} ResolveIgnoresCase(input: string)
    ensures Resolve(Lower(input)) == Resolve(input)
  {
    LowerIdempotent(input);
  }

  /** Priority: a mention of products or items wins over every other keyword. */
  lemma ProductsOutrankHelp(input: string)
    requires Contains(Lower(input), "help") && Contains(Lower(input), "product")
    ensures Resolve(input) == BrowseCatalog
  {
  }

  /** Help is chosen only when no higher-priority keyword occurs. */
  lemma HelpOnlyAlone(input: string)
    requires Resolve(input) == OfferHelp
    ensures Contains(Lower(input), "help")
    ensures !Contains(Lower(input), "product") && !Contains(Lower(input), "item")
    ensures !Contains(Lower(input), "cart") && !Contains(Lower(input), "basket")
    ensures !Contains(Lower(input), "checkout") && !Contains(Lower(input), "buy")
  {
  }
}
