/** The voice-command interpreter: keyword-based intent classification, date-range
    and category extraction, and one handler per intent. Each handler builds its reply
    text inline, and its contract states that this text is the matching response
    formatter's. */
module CommandProcessor {
  import opened Options
  import opened Text
  import opened Money
  import opened Calendar
  import opened Records
  import opened ResponseGenerator

  // ---------------------------------------------------------------------------
  // Intent classification
  // ---------------------------------------------------------------------------

  datatype Intent = VirtualCardIntent | TransactionIntent | ExpenseCategoryIntent | ReceiptIntent | UnknownIntent

  const VirtualCardKeywords: seq<string> := ["virtual card", "virtual cards"]
  const TransactionKeywords: seq<string> := ["transaction", "transactions", "spent", "spending"]
  const ExpenseCategoryKeywords: seq<string> := ["category", "categories", "expense"]
  const ReceiptKeywords: seq<string> := ["receipt", "upload"]

  /** The keywords that select an intent; the fallback has none. */
  function Keywords(intent: Intent): seq<string> {
    match intent
    case VirtualCardIntent => VirtualCardKeywords
    case TransactionIntent => TransactionKeywords
    case ExpenseCategoryIntent => ExpenseCategoryKeywords
    case ReceiptIntent => ReceiptKeywords
    case UnknownIntent => []
  }

  /** Order in which the intents are tried; lower goes first. */
  function Priority(intent: Intent): nat {
    match intent
    case VirtualCardIntent => 0
    case TransactionIntent => 1
    case ExpenseCategoryIntent => 2
    case ReceiptIntent => 3
    case UnknownIntent => 4
  }

  /** The intent of a lower-cased command: the first intent, in priority order,
      one of whose keywords occurs in it. */
  function Classify(command: string): (r: Intent)
    ensures r != UnknownIntent ==> MentionsAny(command, Keywords(r))
    ensures forall i: Intent | Priority(i) < Priority(r) :: !MentionsAny(command, Keywords(i))
  {
    assert VirtualCardKeywords[0] == "virtual card" && VirtualCardKeywords[1] == "virtual cards";
    assert TransactionKeywords[0] == "transaction" && TransactionKeywords[1] == "transactions";
    assert TransactionKeywords[2] == "spent" && TransactionKeywords[3] == "spending";
    assert ExpenseCategoryKeywords[0] == "category" && ExpenseCategoryKeywords[1] == "categories";
    assert ExpenseCategoryKeywords[2] == "expense";
    assert ReceiptKeywords[0] == "receipt" && ReceiptKeywords[1] == "upload";
    if Contains(command, "virtual card") || Contains(command, "virtual cards") then VirtualCardIntent
    else if Contains(command, "transaction") || Contains(command, "transactions")
         || Contains(command, "spent") || Contains(command, "spending") then TransactionIntent
    else if Contains(command, "category") || Contains(command, "categories")
         || Contains(command, "expense") then ExpenseCategoryIntent
    else if Contains(command, "receipt") || Contains(command, "upload") then ReceiptIntent
    else UnknownIntent
  }

  /** The plural keywords never decide anything: each contains its singular form. */
  lemma PluralKeywordsRedundant(command: string)
    ensures Contains(command, "virtual cards") ==> Contains(command, "virtual card")
    ensures Contains(command, "transactions") ==> Contains(command, "transaction")
  {
    ContainsPiece("virtual cards", "", "virtual card", "s");
    ContainsPiece("transactions", "", "transaction", "s");
    if Contains(command, "virtual cards") {
      ContainsTransitive(command, "virtual cards", "virtual card");
    }
    if Contains(command, "transactions") {
      ContainsTransitive(command, "transactions", "transaction");
    }
  }

  // ---------------------------------------------------------------------------
  // First match in an ordered word list
  // ---------------------------------------------------------------------------

  /** Index of the first word of `words` that occurs in `command`. */
  function FirstOccurring(command: string, words: seq<string>): (r: Option<nat>)
    ensures r.Some? ==> r.value < |words| && Contains(command, words[r.value])
    ensures r.Some? ==> forall j | 0 <= j < r.value :: !Contains(command, words[j])
    ensures r.None? ==> forall j | 0 <= j < |words| :: !Contains(command, words[j])
    decreases |words|
  {
    if |words| == 0 then None
    else if Contains(command, words[0]) then Some(0)
    else
      match FirstOccurring(command, words[1..])
      case Some(k) => Some(k + 1)
      case None => None
  }

  // ---------------------------------------------------------------------------
  // Time period extraction
  // ---------------------------------------------------------------------------

  /** A date range with the phrase that produced it. */
  datatype TimePeriod = TimePeriod(startDate: Date, endDate: Date, description: string)

  /** The recognised phrases, in the order they are checked. */
  const TimePhrases: seq<string> := ["today", "yesterday", "this week", "this month", "last month"]

  /** A clock reading every phrase can be resolved against: a real date after January
      of year 1 (earlier, "yesterday" and "last month" fall outside the calendar). */
  predicate ClockInRange(now: Date) {
    ValidDate(now) && (now.year > 1 || now.month > 1)
  }

  predicate WellFormedPeriod(p: TimePeriod) {
    ValidDate(p.startDate) && ValidDate(p.endDate) && DateLe(p.startDate, p.endDate)
  }

  /** The calendar month before `now`'s, from its first day to its last, except that
      February always ends on the 28th. */
  function LastMonth(now: Date): (r: TimePeriod)
    requires ClockInRange(now)
    ensures WellFormedPeriod(r) && r.description == "last month"
    ensures r.startDate.day == 1
    ensures now.month == 1 ==> r.startDate.year == now.year - 1 && r.startDate.month == 12
    ensures now.month > 1 ==> r.startDate.year == now.year && r.startDate.month == now.month - 1
    ensures r.endDate.year == r.startDate.year && r.endDate.month == r.startDate.month
    ensures r.endDate.day == (if r.endDate.month == 2 then 28 else DaysInMonth(r.endDate.year, r.endDate.month))
    ensures DateLe(r.endDate, now) && r.endDate != now
  {
    var start := if now.month == 1 then Date(now.year - 1, 12, 1) else Date(now.year, now.month - 1, 1);
    var endDay :=
      if now.month == 1 then 31
      else if now.month == 3 then 28
      else if now.month in {5, 7, 10, 12} then 30
      else 31;
    TimePeriod(start, Date(start.year, start.month, endDay), "last month")
  }

  /** The day before the clock's date (`today - timedelta(days=1)`); only 0001-01-01
      has none. */
  function Yesterday(now: Date): (r: Date)
    requires ValidDate(now) && Ordinal(now) > 1
    ensures ValidDate(r) && Ordinal(r) == Ordinal(now) - 1 && DateLe(r, now)
  {
    PrevDay(now)
  }

  /** The date range named by the first of the time phrases found in the command. */
  function ExtractTimePeriod(command: string, now: Date): (r: Option<TimePeriod>)
    requires ClockInRange(now)
    ensures r.Some? <==> FirstOccurring(command, TimePhrases).Some?
    ensures r.Some? ==> r.value.description == TimePhrases[FirstOccurring(command, TimePhrases).value]
    ensures r.Some? ==> WellFormedPeriod(r.value) && DateLe(r.value.endDate, now)
    ensures (r.Some? && r.value.description == "today")
              ==> r.value.startDate == now && r.value.endDate == now
    ensures (r.Some? && r.value.description == "yesterday")
              ==> r.value.startDate == r.value.endDate && Ordinal(r.value.startDate) == Ordinal(now) - 1
    ensures (r.Some? && r.value.description == "this week")
              ==> r.value.startDate == StartOfWeek(now) && r.value.endDate == now
    ensures (r.Some? && r.value.description == "this month")
              ==> r.value.startDate == Date(now.year, now.month, 1) && r.value.endDate == now
    ensures r.Some? && r.value.description == "last month" ==> r.value == LastMonth(now)
  {
    assert TimePhrases[0] == "today" && TimePhrases[1] == "yesterday" && TimePhrases[2] == "this week";
    assert TimePhrases[3] == "this month" && TimePhrases[4] == "last month";
    if Contains(command, "today") then
      Some(TimePeriod(now, now, "today"))
    else if Contains(command, "yesterday") then
      assert now.year > 1 ==> DaysBeforeYear(now.year) >= 365;
      assert now.month > 1 ==> DaysBeforeMonth(now.year, now.month) >= 1;
      var yesterday := Yesterday(now);
      Some(TimePeriod(yesterday, yesterday, "yesterday"))
    else if Contains(command, "this week") then
      Some(TimePeriod(StartOfWeek(now), now, "this week"))
    else if Contains(command, "this month") then
      Some(TimePeriod(Date(now.year, now.month, 1), now, "this month"))
    else if Contains(command, "last month") then
      Some(LastMonth(now))
    else
      None
  }

  /** With the clock at 2024-03-05, "last month" ends on 2024-02-28 although February
      2024 has 29 days: the fixed 28 misses leap days. */
  lemma LastMonthMissesLeapDay()
    ensures var r := LastMonth(Date(2024, 3, 5));
      r.startDate == Date(2024, 2, 1) && r.endDate == Date(2024, 2, 28)
      && DaysInMonth(2024, 2) == 29
  {
  }

  // ---------------------------------------------------------------------------
  // Category extraction and filters
  // ---------------------------------------------------------------------------

  /** The closed category vocabulary, in the order it is scanned. */
  const CategoryVocabulary: seq<string> := ["travel", "food", "office", "entertainment", "utilities"]

  /** The first vocabulary word, in vocabulary order, that occurs in the command. */
  function ExtractCategory(command: string): (r: Option<string>)
    ensures r.None? <==> forall k | 0 <= k < |CategoryVocabulary| :: !Contains(command, CategoryVocabulary[k])
    ensures r.Some? ==> exists k | 0 <= k < |CategoryVocabulary| ::
              && r.value == CategoryVocabulary[k]
              && Contains(command, CategoryVocabulary[k])
              && forall j | 0 <= j < k :: !Contains(command, CategoryVocabulary[j])
  {
    match FirstOccurring(command, CategoryVocabulary)
    case Some(k) => Some(CategoryVocabulary[k])
    case None => None
  }

  /** Query parameters for the transaction listing, keyed as the gateway expects. */
  type Filters = map<string, string>

  /** Dates when a period was found, the category when one was found; otherwise empty. */
  function BuildFilters(period: Option<TimePeriod>, category: Option<string>): (f: Filters)
    requires period.Some? ==> WellFormedPeriod(period.value)
    ensures ("startDate" in f) <==> period.Some?
    ensures ("endDate" in f) <==> period.Some?
    ensures ("category" in f) <==> Truthy(category)
    ensures f.Keys <= {"startDate", "endDate", "category"}
    ensures period.Some? ==> f["startDate"] == FormatDate(period.value.startDate)
                             && f["endDate"] == FormatDate(period.value.endDate)
    ensures Truthy(category) ==> f["category"] == category.value
  {
    var dated: Filters :=
      if period.Some? then
        map["startDate" := FormatDate(period.value.startDate), "endDate" := FormatDate(period.value.endDate)]
      else map[];
    if Truthy(category) then dated["category" := category.value] else dated
  }

  function TransactionFilters(command: string, now: Date): Filters
    requires ClockInRange(now)
  {
    BuildFilters(ExtractTimePeriod(command, now), ExtractCategory(command))
  }

  /** The filters carry the dates exactly when a time phrase occurs, the category
      exactly when a vocabulary word occurs, and nothing else. */
  lemma TransactionFiltersKeys(command: string, now: Date)
    requires ClockInRange(now)
    ensures var f := TransactionFilters(command, now);
      && (("startDate" in f) <==> MentionsAny(command, TimePhrases))
      && (("endDate" in f) <==> MentionsAny(command, TimePhrases))
      && (("category" in f) <==> MentionsAny(command, CategoryVocabulary))
      && f.Keys <= {"startDate", "endDate", "category"}
  {
    var c := ExtractCategory(command);
    if c.Some? {
      var k :| 0 <= k < |CategoryVocabulary| && c.value == CategoryVocabulary[k];
      assert c.value != "";
    }
  }

  // ---------------------------------------------------------------------------
  // The backend gateway, as the handlers see it
  // ---------------------------------------------------------------------------

  /** What the backend answers: the card list, the transactions matching a set of
      filters, and the expense categories. */
  datatype Gateway = Gateway(
    virtualCards: seq<VirtualCard>,
    listTransactions: Filters -> seq<Transaction>,
    expenseCategories: seq<ExpenseCategory>)

  // ---------------------------------------------------------------------------
  // Handlers
  // ---------------------------------------------------------------------------

  const VirtualCardHelp := "I can help you with your virtual cards. You can ask me to list your virtual cards or show details about a specific card."
  const TransactionHelp := "I can help you with your transactions. You can ask me how much you spent or to list your recent transactions."
  const ExpenseCategoryHelp := "I can help you with your expense categories. You can ask me to list your categories."
  const ReceiptReply := "I can help you upload receipts. In a real implementation, this would guide you through taking a photo and attaching it to a transaction."
  const FallbackReply := "I'm not sure how to help with that. You can ask me about your virtual cards, transactions, expense categories, or uploading receipts."

  /** How many transactions a listing reads out. */
  const RecentTransactionLimit: nat := 5

  /** The command asks for an enumeration. */
  predicate AsksForList(command: string) {
    Contains(command, "list") || Contains(command, "show") || Contains(command, "what")
  }

  /** The handler's own loop over the cards. */
  function AppendCardLines(response: string, cards: seq<VirtualCard>): string
    decreases |cards|
  {
    if |cards| == 0 then response
    else
      var card := cards[0];
      AppendCardLines(response + "Card ending in " + card.lastFour.GetOr("unknown")
                        + " has a balance of " + FormatCents(card.balance.GetOr(0)) + ". ", cards[1..])
  }

  /** Lists the cards when there are none or the command asks for a list; the text it
      builds is then `format_virtual_card_list`'s. Otherwise it explains itself. */
  function HandleVirtualCardCommand(command: string, cards: seq<VirtualCard>): (r: string)
    ensures (|cards| == 0 || AsksForList(command)) ==> r == FormatVirtualCardList(cards)
    ensures |cards| > 0 && !AsksForList(command) ==> r == VirtualCardHelp
  {
    if |cards| == 0 then "You don't have any virtual cards."
    else if AsksForList(command) then
      var header := "You have " + NatToString(|cards|) + " virtual cards. ";
      AppendCardLinesIsCardSentences(header, cards);
      AppendEachIsConcat(header, cards, CardSentence);
      AppendCardLines(header, cards)
    else VirtualCardHelp
  }

  /** The handler's own loop over the listed transactions. */
  function AppendTransactionLines(response: string, txs: seq<Transaction>): string
    decreases |txs|
  {
    if |txs| == 0 then response
    else
      var tx := txs[0];
      AppendTransactionLines(response + FormatCents(tx.amount.GetOr(0)) + " for "
                               + tx.description.GetOr("Unknown") + " on " + tx.date.GetOr("Unknown") + ". ",
                             txs[1..])
  }

  /** The description of a found period, as the summary formatter takes it. */
  function PeriodDescription(period: Option<TimePeriod>): Option<string> {
    match period
    case Some(p) => Some(p.description)
    case None => None
  }

  /** The handler's "how much" text: the total, then the period's description and
      the category when there are such, then "."; it is `format_transaction_summary`'s
      text for the period's description. */
  function SpokenSummary(txs: seq<Transaction>, period: Option<TimePeriod>, category: Option<string>): (r: string)
    requires |txs| > 0 && (period.Some? ==> period.value.description != "")
    ensures r == FormatTransactionSummary(txs, PeriodDescription(period), category)
  {
    var spent := "You spent " + FormatCents(TotalCents(txs)) + " ";
    var withPeriod := if period.Some? then spent + period.value.description + " " else spent;
    var withCategory := if Truthy(category) then withPeriod + "on " + category.value + " " else withPeriod;
    var timeClause := if period.Some? then period.value.description + " " else "";
    var categoryClause := if Truthy(category) then "on " + category.value + " " else "";
    assert withPeriod == spent + timeClause;
    assert withCategory == withPeriod + categoryClause;
    assert Truthy(PeriodDescription(period)) <==> period.Some?;
    withCategory + "."
  }

  /** The handler's listing: the first five transactions, then a count of the rest;
      it is `format_transaction_list`'s text with limit 5. */
  function SpokenListing(txs: seq<Transaction>): (r: string)
    requires |txs| > 0
    ensures r == FormatTransactionList(txs, RecentTransactionLimit)
  {
    var shown := txs[..Min(RecentTransactionLimit, |txs|)];
    var listed := AppendTransactionLines("Here are your recent transactions: ", shown);
    ListedSentences(shown);
    if |txs| > RecentTransactionLimit then
      assert shown == txs[..RecentTransactionLimit];
      listed + "And " + NatToString(|txs| - RecentTransactionLimit) + " more transactions. "
    else
      assert shown == txs;
      listed
  }

  /** The listing loop, started on the header, gives the header and one sentence each. */
  lemma ListedSentences(shown: seq<Transaction>)
    ensures AppendTransactionLines("Here are your recent transactions: ", shown)
              == TransactionListHeader + Concat(RenderEach(shown, TransactionSentence))
  {
    AppendTransactionLinesIsSentences(TransactionListHeader, shown);
    AppendEachIsConcat(TransactionListHeader, shown, TransactionSentence);
  }

  /** The reply to a transaction command once the gateway has answered with `txs`:
      `format_transaction_summary`'s text for "how much" (the period named by its
      description), `format_transaction_list`'s with limit 5 for a listing or an empty
      result, and the help text otherwise. */
  function TransactionReply(command: string, period: Option<TimePeriod>, category: Option<string>,
                            txs: seq<Transaction>): (r: string)
    requires period.Some? ==> period.value.description != ""
    ensures |txs| == 0 ==> r == NoTransactionsFound
    ensures (Contains(command, "how much"))
              ==> r == FormatTransactionSummary(txs, PeriodDescription(period), category)
    ensures (!Contains(command, "how much") && (|txs| == 0 || AsksForList(command)))
              ==> r == FormatTransactionList(txs, RecentTransactionLimit)
    ensures (|txs| > 0 && !Contains(command, "how much") && !AsksForList(command)) ==> r == TransactionHelp
  {
    if |txs| == 0 then "I couldn't find any transactions matching your criteria."
    else if Contains(command, "how much") then SpokenSummary(txs, period, category)
    else if AsksForList(command) then SpokenListing(txs)
    else TransactionHelp
  }

  /** Derives the filters, asks the gateway once with them, and answers with the
      summary or the listing of exactly what the gateway returned. */
  function HandleTransactionCommand(command: string, now: Date,
                                    listTransactions: Filters -> seq<Transaction>): (r: string)
    requires ClockInRange(now)
    ensures var txs := listTransactions(TransactionFilters(command, now));
      (Contains(command, "how much"))
        ==> r == FormatTransactionSummary(txs, PeriodDescription(ExtractTimePeriod(command, now)),
                                          ExtractCategory(command))
    ensures var txs := listTransactions(TransactionFilters(command, now));
      (!Contains(command, "how much"))
        ==> r == (if |txs| == 0 || AsksForList(command) then FormatTransactionList(txs, RecentTransactionLimit)
                  else TransactionHelp)
  {
    var period := ExtractTimePeriod(command, now);
    var category := ExtractCategory(command);
    ExtractedDescriptionNonEmpty(command, now);
    TransactionReply(command, period, category, listTransactions(BuildFilters(period, category)))
  }

  /** The handler's own loop over the category names: each followed by ", ". */
  function AppendCategoryNames(response: string, categories: seq<ExpenseCategory>): (r: string)
    ensures |categories| > 0 ==> |r| >= |response| + 2 && r[|r| - 2..] == ", "
    decreases |categories|
  {
    if |categories| == 0 then response
    else AppendCategoryNames(response + categories[0].name.GetOr("Unknown") + ", ", categories[1..])
  }

  /** Lists the names when there are none or the command asks for a list: the loop's
      text with its trailing ", " cut is `format_expense_category_list`'s. Otherwise it
      explains itself. */
  function HandleExpenseCategoryCommand(command: string, categories: seq<ExpenseCategory>): (r: string)
    ensures (|categories| == 0 || AsksForList(command)) ==> r == FormatExpenseCategoryList(categories)
    ensures (|categories| > 0 && !AsksForList(command)) ==> r == ExpenseCategoryHelp
  {
    if |categories| == 0 then "You don't have any expense categories."
    else if AsksForList(command) then
      var header := "You have " + NatToString(|categories|) + " expense categories: ";
      var response := AppendCategoryNames(header, categories);
      AppendCategoryNamesIsItems(header, categories);
      AppendEachWithSeparator(header, categories, CategoryItem, CategoryName, ", ");
      var joined := header + Join(RenderEach(categories, CategoryName), ", ");
      assert response == joined + ", ";
      assert response[..|response| - 2] == joined;
      response[..|response| - 2] + "."
    else ExpenseCategoryHelp
  }

  /** Lower-cases the command and answers it through the handler of its intent. Only
      the transaction handler reads the clock. Receipt commands get a fixed
      description, as the receipt handler is a placeholder that uploads nothing. */
  function ProcessCommand(command: string, now: Date, gateway: Gateway): (r: string)
    requires Classify(Lower(command)) == TransactionIntent ==> ClockInRange(now)
    ensures var c := Lower(command); var cards := gateway.virtualCards;
      (Classify(c) == VirtualCardIntent)
        ==> r == (if |cards| == 0 || AsksForList(c) then FormatVirtualCardList(cards) else VirtualCardHelp)
    ensures var c := Lower(command);
      (Classify(c) == TransactionIntent && Contains(c, "how much"))
        ==> var txs := gateway.listTransactions(TransactionFilters(c, now));
            r == FormatTransactionSummary(txs, PeriodDescription(ExtractTimePeriod(c, now)), ExtractCategory(c))
    ensures var c := Lower(command);
      (Classify(c) == TransactionIntent && !Contains(c, "how much"))
        ==> var txs := gateway.listTransactions(TransactionFilters(c, now));
            r == (if |txs| == 0 || AsksForList(c) then FormatTransactionList(txs, RecentTransactionLimit)
                  else TransactionHelp)
    ensures var c := Lower(command); var categories := gateway.expenseCategories;
      (Classify(c) == ExpenseCategoryIntent)
        ==> r == (if |categories| == 0 || AsksForList(c) then FormatExpenseCategoryList(categories)
                  else ExpenseCategoryHelp)
    ensures Classify(Lower(command)) == ReceiptIntent ==> r == ReceiptReply
    ensures Classify(Lower(command)) == UnknownIntent ==> r == FallbackReply
  {
    var c := Lower(command);
    match Classify(c)
    case VirtualCardIntent => HandleVirtualCardCommand(c, gateway.virtualCards)
    case TransactionIntent => HandleTransactionCommand(c, now, gateway.listTransactions)
    case ExpenseCategoryIntent => HandleExpenseCategoryCommand(c, gateway.expenseCategories)
    case ReceiptIntent => ReceiptReply
    case UnknownIntent => FallbackReply
  }

  // ---------------------------------------------------------------------------
  // The handlers agree with the response formatters
  // ---------------------------------------------------------------------------

  lemma {:induction false} AppendCardLinesIsCardSentences(response: string, cards: seq<VirtualCard>)
    ensures AppendCardLines(response, cards) == AppendEach(response, cards, CardSentence)
    decreases |cards|
  {
    if |cards| > 0 {
      var card := cards[0];
      assert response + "Card ending in " + card.lastFour.GetOr("unknown") + " has a balance of "
               + FormatCents(card.balance.GetOr(0)) + ". "
             == response + CardSentence(card);
      AppendCardLinesIsCardSentences(response + CardSentence(card), cards[1..]);
    }
  }

  lemma {:induction false} AppendTransactionLinesIsSentences(response: string, txs: seq<Transaction>)
    ensures AppendTransactionLines(response, txs) == AppendEach(response, txs, TransactionSentence)
    decreases |txs|
  {
    if |txs| > 0 {
      var tx := txs[0];
      assert response + FormatCents(tx.amount.GetOr(0)) + " for " + tx.description.GetOr("Unknown")
               + " on " + tx.date.GetOr("Unknown") + ". "
             == response + TransactionSentence(tx);
      AppendTransactionLinesIsSentences(response + TransactionSentence(tx), txs[1..]);
    }
  }

  lemma {:induction false} AppendCategoryNamesIsItems(response: string, categories: seq<ExpenseCategory>)
    ensures AppendCategoryNames(response, categories) == AppendEach(response, categories, CategoryItem)
    decreases |categories|
  {
    if |categories| > 0 {
      var c := categories[0];
      assert response + c.name.GetOr("Unknown") + ", " == response + CategoryItem(c);
      AppendCategoryNamesIsItems(response + CategoryItem(c), categories[1..]);
    }
  }

  /** Every period the extractor finds has a non-empty description. */
  lemma ExtractedDescriptionNonEmpty(command: string, now: Date)
    requires ClockInRange(now)
    ensures var p := ExtractTimePeriod(command, now); p.Some? ==> p.value.description != ""
  {
    var p := ExtractTimePeriod(command, now);
    if p.Some? {
      var k := FirstOccurring(command, TimePhrases).value;
      assert p.value.description == TimePhrases[k];
    }
  }

  // ---------------------------------------------------------------------------
  // End-to-end properties of command processing
  // ---------------------------------------------------------------------------

  /** Only the lower-cased command matters: capitalisation never changes the reply. */
  lemma ProcessCommandCaseInsensitive(command: string, now: Date, gateway: Gateway)
    requires Classify(Lower(command)) == TransactionIntent ==> ClockInRange(now)
    ensures && Lower(Lower(command)) == Lower(command)
            && ProcessCommand(command, now, gateway) == ProcessCommand(Lower(command), now, gateway)
  {
    LowerIdempotent(command);
  }
}
