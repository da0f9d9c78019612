/** The reply texts: fixed messages and the formatters that turn gateway records into
    spoken-style sentences. */
module ResponseGenerator {
  import opened Options
  import opened Text
  import opened Money
  import opened Records

  // ---------------------------------------------------------------------------
  // Fixed messages
  // ---------------------------------------------------------------------------

  const NoTransactionsFound := "I couldn't find any transactions matching your criteria."
  const NoVirtualCards := "You don't have any virtual cards."
  const NoExpenseCategories := "You don't have any expense categories."

  /** The greeting, kept as the pieces that the properties below point into. */
  const WelcomeParts := [
    "Hello!", " I'm your ", "Extend voice assistant",
    ". I can help you manage your virtual cards, check your transactions, view expense categories, and upload receipts. ",
    "How can I assist you", " today?"]

  function GenerateWelcomeMessage(): (r: string)
    ensures Contains(r, "Hello!")
    ensures Contains(r, "Extend voice assistant")
    ensures Contains(r, "How can I assist you")
  {
    ContainsPart(WelcomeParts, 0);
    ContainsPart(WelcomeParts, 2);
    ContainsPart(WelcomeParts, 4);
    Concat(WelcomeParts)
  }

  /** The error text is quoted inside a fixed apology. */
  function GenerateErrorMessage(error: string): (r: string)
    ensures StartsWith(r, "I encountered an error: ")
    ensures Contains(r, error)
    ensures Contains(r, "error")
  {
    var prefix := "I encountered an error: ";
    var r := prefix + error + ". Please try again or ask for help.";
    ContainsPiece(r, prefix, error, ". Please try again or ask for help.");
    assert r[17..22] == prefix[17..22] == "error";
    ContainsAt(r, "error", 17);
    assert r[..24] == prefix;
    r
  }

  const HelpParts := [
    "I can ", "help", " you with the following: 1) Check your ", "virtual cards", ", 2) View your ",
    "transactions", ", 3) List your ", "expense categories", ", 4) Upload receipts. What would you like to do?"]

  function GenerateHelpMessage(): (r: string)
    ensures Contains(r, "help")
    ensures Contains(r, "virtual cards")
    ensures Contains(r, "transactions")
    ensures Contains(r, "expense categories")
  {
    ContainsPart(HelpParts, 1);
    ContainsPart(HelpParts, 3);
    ContainsPart(HelpParts, 5);
    ContainsPart(HelpParts, 7);
    Concat(HelpParts)
  }

  // ---------------------------------------------------------------------------
  // Transaction summary
  // ---------------------------------------------------------------------------

  /** Python truthiness of an optional string: present and non-empty. */
  predicate Truthy(s: Option<string>) {
    s.Some? && s.value != ""
  }

  /** "You spent $X " + optional "<time period> " + optional "on <category> " + ".". */
  function FormatTransactionSummary(txs: seq<Transaction>, timePeriod: Option<string>,
                                    category: Option<string>): (r: string)
    ensures |txs| == 0 ==> r == NoTransactionsFound
    ensures |txs| > 0 ==> StartsWith(r, "You spent " + FormatCents(TotalCents(txs)) + " ")
    ensures |txs| > 0 ==> |r| > 0 && r[|r| - 1] == '.'
    ensures |txs| > 0 && Truthy(timePeriod) ==> Contains(r, timePeriod.value + " ")
    ensures |txs| > 0 && Truthy(category) ==> Contains(r, "on " + category.value + " ")
    ensures (|txs| > 0 && !Truthy(timePeriod) && !Truthy(category))
              ==> r == "You spent " + FormatCents(TotalCents(txs)) + " ."
    ensures |txs| > 0 ==> r == "You spent " + FormatCents(TotalCents(txs)) + " "
                                 + (if Truthy(timePeriod) then timePeriod.value + " " else "")
                                 + (if Truthy(category) then "on " + category.value + " " else "") + "."
  {
    if |txs| == 0 then NoTransactionsFound
    else
      var head := "You spent " + FormatCents(TotalCents(txs)) + " ";
      var timeClause := if Truthy(timePeriod) then timePeriod.value + " " else "";
      var categoryClause := if Truthy(category) then "on " + category.value + " " else "";
      SentenceParts(head, timeClause, categoryClause);
      head + timeClause + categoryClause + "."
  }

  /** A sentence built from three pieces and a period starts with the first and holds the others. */
  lemma SentenceParts(head: string, middle: string, tail: string)
    ensures var r := head + middle + tail + ".";
      && StartsWith(r, head) && Contains(r, middle) && Contains(r, tail) && r[|r| - 1] == '.'
  {
    var r := head + middle + tail + ".";
    ContainsSelf(middle);
    ContainsInContext(head, middle, tail + ".", middle);
    ContainsSelf(tail);
    ContainsInContext(head + middle, tail, ".", tail);
    assert r == head + middle + (tail + ".");
    assert r[..|head|] == head;
  }

  // ---------------------------------------------------------------------------
  // Transaction list
  // ---------------------------------------------------------------------------

  const TransactionListHeader := "Here are your recent transactions: "

  /** "$<amount> for <description> on <date>. ", with 0 and "Unknown" for missing fields. */
  function TransactionSentence(tx: Transaction): string {
    FormatCents(AmountOrZero(tx)) + " for " + tx.description.GetOr("Unknown")
      + " on " + tx.date.GetOr("Unknown") + ". "
  }

  /** The header, at most `limit` transactions in input order, and a count of the rest. */
  function FormatTransactionList(txs: seq<Transaction>, limit: nat): (r: string)
    ensures |txs| == 0 ==> r == NoTransactionsFound
    ensures (0 < |txs| <= limit)
              ==> r == TransactionListHeader + Concat(RenderEach(txs, TransactionSentence))
    ensures (limit < |txs|)
              ==> r == TransactionListHeader + Concat(RenderEach(txs[..limit], TransactionSentence))
                       + "And " + NatToString(|txs| - limit) + " more transactions. "
  {
    if |txs| == 0 then NoTransactionsFound
    else
      var shown := txs[..Min(limit, |txs|)];
      var response := AppendEach(TransactionListHeader, shown, TransactionSentence);
      AppendEachIsConcat(TransactionListHeader, shown, TransactionSentence);
      assert |txs| <= limit ==> shown == txs;
      if |txs| > limit then response + "And " + NatToString(|txs| - limit) + " more transactions. "
      else response
  }

  // ---------------------------------------------------------------------------
  // Virtual cards and expense categories
  // ---------------------------------------------------------------------------

  /** "Card ending in <lastFour> has a balance of $<balance>. ", with "unknown" and 0 for missing fields. */
  function CardSentence(card: VirtualCard): string {
    "Card ending in " + card.lastFour.GetOr("unknown") + " has a balance of "
      + FormatCents(card.balance.GetOr(0)) + ". "
  }

  function FormatVirtualCardList(cards: seq<VirtualCard>): (r: string)
    ensures |cards| == 0 ==> r == NoVirtualCards
    ensures |cards| > 0 ==> r == "You have " + NatToString(|cards|) + " virtual cards. "
                                 + Concat(RenderEach(cards, CardSentence))
  {
    if |cards| == 0 then NoVirtualCards
    else
      var header := "You have " + NatToString(|cards|) + " virtual cards. ";
      AppendEachIsConcat(header, cards, CardSentence);
      AppendEach(header, cards, CardSentence)
  }

  function CategoryName(category: ExpenseCategory): string {
    category.name.GetOr("Unknown")
  }

  function CategoryItem(category: ExpenseCategory): string {
    CategoryName(category) + ", "
  }

  /** The names joined by ", " and closed by "."; the trailing separator the loop
      leaves is cut off before the period goes on. */
  function FormatExpenseCategoryList(categories: seq<ExpenseCategory>): (r: string)
    ensures |categories| == 0 ==> r == NoExpenseCategories
    ensures |categories| > 0 ==> r == "You have " + NatToString(|categories|) + " expense categories: "
                                      + Join(RenderEach(categories, CategoryName), ", ") + "."
  {
    if |categories| == 0 then NoExpenseCategories
    else
      var header := "You have " + NatToString(|categories|) + " expense categories: ";
      var response := AppendEach(header, categories, CategoryItem);
      AppendEachWithSeparator(header, categories, CategoryItem, CategoryName, ", ");
      var joined := header + Join(RenderEach(categories, CategoryName), ", ");
      assert response == joined + ", ";
      assert response[..|response| - 2] == joined;
      response[..|response| - 2] + "."
  }

  // ---------------------------------------------------------------------------
  // Properties relating the formatters to their inputs
  // ---------------------------------------------------------------------------

  /** The summary's dollar figure is the same whatever time period or category is shown. */
  lemma SummaryTotalIgnoresFilters(txs: seq<Transaction>, t1: Option<string>, c1: Option<string>,
                                   t2: Option<string>, c2: Option<string>)
    requires |txs| > 0
    ensures var head := "You spent " + FormatCents(TotalCents(txs)) + " ";
      FormatTransactionSummary(txs, t1, c1)[..|head|] == FormatTransactionSummary(txs, t2, c2)[..|head|]
  {
  }

  /** A card without a last-four field is read out as "unknown"; one without a balance as "$0.00". */
  lemma CardSentenceDefaults(card: VirtualCard)
    ensures card.lastFour.None? ==> Contains(CardSentence(card), "unknown")
    ensures card.balance.None? ==> Contains(CardSentence(card), "$0.00")
  {
    var amount := FormatCents(card.balance.GetOr(0));
    ContainsSecondOfFive("Card ending in ", card.lastFour.GetOr("unknown"), " has a balance of ", amount, ". ");
    var head := "Card ending in " + card.lastFour.GetOr("unknown") + " has a balance of ";
    ContainsPiece(CardSentence(card), head, amount, ". ");
    ZeroCents();
  }

  /** Every transaction within the limit is read out as its own sentence. */
  lemma TransactionListShowsEach(txs: seq<Transaction>, limit: nat, k: nat)
    requires k < |txs| && k < limit
    ensures Contains(FormatTransactionList(txs, limit), TransactionSentence(txs[k]))
  {
    var r := FormatTransactionList(txs, limit);
    if |txs| <= limit {
      RenderedPartInContext(TransactionListHeader, txs, TransactionSentence, "", k);
      assert r == TransactionListHeader + Concat(RenderEach(txs, TransactionSentence)) + "";
    } else {
      var listed := TransactionListHeader + Concat(RenderEach(txs[..limit], TransactionSentence));
      var count := NatToString(|txs| - limit);
      AppendRegroup(listed, "And ", count, " more transactions. ");
      RenderedPartInContext(TransactionListHeader, txs[..limit], TransactionSentence,
                            "And " + count + " more transactions. ", k);
      assert txs[..limit][k] == txs[k];
    }
  }

  /** A transaction's sentence names its description ("Unknown" when it has none). */
  lemma TransactionSentenceNamesIt(tx: Transaction)
    ensures Contains(TransactionSentence(tx), tx.description.GetOr("Unknown"))
  {
    ContainsSecondOfFive(FormatCents(AmountOrZero(tx)) + " for ", tx.description.GetOr("Unknown"),
                         " on ", tx.date.GetOr("Unknown"), ". ");
  }

  /** The description of every transaction within the limit is spoken. */
  lemma TransactionListNamesEach(txs: seq<Transaction>, limit: nat, k: nat)
    requires k < |txs| && k < limit
    ensures Contains(FormatTransactionList(txs, limit), txs[k].description.GetOr("Unknown"))
  {
    TransactionListShowsEach(txs, limit, k);
    TransactionSentenceNamesIt(txs[k]);
    ContainsTransitive(FormatTransactionList(txs, limit), TransactionSentence(txs[k]),
                       txs[k].description.GetOr("Unknown"));
  }

  /** Transactions beyond the limit are not read out but counted. */
  lemma TransactionListCountsRest(txs: seq<Transaction>, limit: nat)
    requires limit < |txs|
    ensures Contains(FormatTransactionList(txs, limit), "more transactions")
  {
    var before := TransactionListHeader + Concat(RenderEach(txs[..limit], TransactionSentence))
                  + "And " + NatToString(|txs| - limit);
    MoreTransactionsPhrase(" more transactions. ");
    ContainsAfter(before, " more transactions. ", "more transactions");
  }

  lemma MoreTransactionsPhrase(s: string)
    requires s == " more transactions. "
    ensures Contains(s, "more transactions")
  {
    assert s[1..18] == "more transactions";
    ContainsAt(s, "more transactions", 1);
  }

  /** Every card is read out as its own sentence. */
  lemma CardListShowsEach(cards: seq<VirtualCard>, k: nat)
    requires k < |cards|
    ensures Contains(FormatVirtualCardList(cards), CardSentence(cards[k]))
  {
    var header := "You have " + NatToString(|cards|) + " virtual cards. ";
    RenderedPartInContext(header, cards, CardSentence, "", k);
    assert FormatVirtualCardList(cards) == header + Concat(RenderEach(cards, CardSentence)) + "";
  }

  /** Every category name is read out ("Unknown" for a category without one). */
  lemma CategoryListNamesEach(categories: seq<ExpenseCategory>, k: nat)
    requires k < |categories|
    ensures Contains(FormatExpenseCategoryList(categories), CategoryName(categories[k]))
  {
    var parts := RenderEach(categories, CategoryName);
    JoinContainsPart(parts, ", ", k);
    ContainsInContext("You have " + NatToString(|categories|) + " expense categories: ",
                      Join(parts, ", "), ".", parts[k]);
  }
}
