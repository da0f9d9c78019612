/** Worked examples: the sample records of the repository's tests and a set of sample
    commands, each stated as a fact about the model. */
module Scenarios {
  import opened Options
  import opened Text
  import opened Money
  import opened Calendar
  import opened Records
  import opened ResponseGenerator
  import opened CommandProcessor
  import opened NewsProcessor

  // ---------------------------------------------------------------------------
  // Sample records
  // ---------------------------------------------------------------------------

  const Coffee := Transaction(Some(2500), Some("Coffee Shop"), Some("2024-03-04"), Some("Food"))
  const Supplies := Transaction(Some(5000), Some("Office Supplies"), Some("2024-03-03"), Some("Office"))
  const Flight := Transaction(Some(15000), Some("Flight Ticket"), Some("2024-03-02"), Some("Travel"))

  function SampleTransactions(): seq<Transaction> {
    [Coffee, Supplies, Flight]
  }

  /** The sample cards carry neither a `lastFour` nor a `balance` field. */
  function SampleCards(): seq<VirtualCard> {
    [VirtualCard(None, None), VirtualCard(None, None)]
  }

  function SampleCategories(): seq<ExpenseCategory> {
    [ExpenseCategory(Some("Travel")), ExpenseCategory(Some("Food")), ExpenseCategory(Some("Office"))]
  }

  // ---------------------------------------------------------------------------
  // Formatters on the samples
  // ---------------------------------------------------------------------------

  /** The three sample amounts add up to $225.00. */
  lemma SampleTotal()
    ensures TotalCents(SampleTransactions()) == 22500
    ensures FormatCents(22500) == "$225.00"
  {
    var txs := SampleTransactions();
    assert txs[..2][..1] == [Coffee];
    assert txs[..2] == [Coffee, Supplies];
    assert TotalCents([Coffee]) == 2500 by {
      assert [Coffee][..0] == [];
    }
    assert NatToString(225) == "225" by {
      assert NatToString(22) == "22" by {
        assert NatToString(2) == "2";
      }
    }
    assert PadNat(0, 2) == "00";
  }

  /** With no filter shown, the summary is exactly "You spent $225.00 ."; with a time
      period or a category, it still starts with the same total. */
  lemma SampleSummary(timePeriod: Option<string>, category: Option<string>)
    ensures FormatTransactionSummary(SampleTransactions(), None, None) == "You spent $225.00 ."
    ensures StartsWith(FormatTransactionSummary(SampleTransactions(), timePeriod, category), "You spent $225.00 ")
  {
    SampleTotal();
  }

  /** The spoken summary of "how much" with the period "today" and category "food". */
  lemma SampleSummaryWithFilters()
    ensures FormatTransactionSummary(SampleTransactions(), Some("today"), Some("food"))
              == "You spent $225.00 today on food ."
  {
    SampleTotal();
    SummaryWithFiltersText("You spent " + FormatCents(TotalCents(SampleTransactions())) + " ",
                           FormatTransactionSummary(SampleTransactions(), Some("today"), Some("food")));
  }

  lemma SummaryWithFiltersText(head: string, r: string)
    requires head == "You spent $225.00 "
    requires r == head + "today " + "on food " + "."
    ensures r == "You spent $225.00 today on food ."
  {
  }

  /** Listing two of three transactions reads out the first two and counts the third. */
  lemma ListWithLimitCountsRest(txs: seq<Transaction>)
    requires |txs| == 3
    ensures FormatTransactionList(txs, 2)
              == TransactionListHeader + Concat(RenderEach(txs[..2], TransactionSentence))
                 + "And 1 more transactions. "
  {
    OneMoreTransaction();
    assert FormatTransactionList(txs, 2)
             == TransactionListHeader + Concat(RenderEach(txs[..2], TransactionSentence))
                + ("And " + NatToString(|txs| - 2) + " more transactions. ");
  }

  lemma OneMoreTransaction()
    ensures "And " + NatToString(1) + " more transactions. " == "And 1 more transactions. "
  {
    assert NatToString(1) == "1";
  }

  lemma TwoCardsHeader()
    ensures "You have " + NatToString(2) + " virtual cards. " == "You have 2 virtual cards. "
  {
    assert NatToString(2) == "2";
  }

  /** The sample cards are counted, and their missing fields read out as "unknown" and "$0.00". */
  lemma SampleCardList(cards: seq<VirtualCard>)
    requires cards == SampleCards()
    ensures StartsWith(FormatVirtualCardList(cards), "You have 2 virtual cards. ")
    ensures Contains(FormatVirtualCardList(cards), "unknown")
    ensures Contains(FormatVirtualCardList(cards), "$0.00")
  {
    var r := FormatVirtualCardList(cards);
    TwoCardsHeader();
    assert r == "You have 2 virtual cards. " + Concat(RenderEach(cards, CardSentence));
    CardListShowsEach(cards, 0);
    CardSentenceDefaults(cards[0]);
    ContainsTransitive(r, CardSentence(cards[0]), "unknown");
    ContainsTransitive(r, CardSentence(cards[0]), "$0.00");
  }

  /** Every sample category name is read out. */
  lemma SampleCategoryList(categories: seq<ExpenseCategory>)
    requires categories == SampleCategories()
    ensures forall k | 0 <= k < |categories| :: Contains(FormatExpenseCategoryList(categories), categories[k].name.value)
  {
    forall k | 0 <= k < |categories|
      ensures Contains(FormatExpenseCategoryList(categories), categories[k].name.value)
    {
      CategoryListNamesEach(categories, k);
    }
  }

  /** Every sample description is read out when the list is cut at two. */
  lemma SampleListNames(txs: seq<Transaction>)
    requires txs == SampleTransactions()
    ensures Contains(FormatTransactionList(txs, 2), "Coffee Shop")
    ensures Contains(FormatTransactionList(txs, 2), "Office Supplies")
    ensures Contains(FormatTransactionList(txs, 2), "more transactions")
  {
    TransactionListNamesEach(txs, 2, 0);
    TransactionListNamesEach(txs, 2, 1);
    TransactionListCountsRest(txs, 2);
  }

  // ---------------------------------------------------------------------------
  // Commands
  //
  // Each command is proved about in small steps, for the verifier's sake. A lemma
  // takes the command as a parameter pinned to its text (`requires c == "..."`), so
  // the text is unfolded only where that lemma needs it. A keyword is ruled out by
  // naming one of its letters that the command lacks (the `...Letters` lemmas and
  // `MissingCharNotContained`). Stated directly on the literals, these facts make the
  // verifier compare every keyword with the command character by character, all at
  // once, and it runs out of resources.
  // ---------------------------------------------------------------------------

  const Clock := Date(2024, 3, 5)

  /** None of the intent keywords occurs. */
  predicate NoIntentKeyword(c: string) {
    && !Contains(c, "virtual card") && !Contains(c, "virtual cards")
    && !Contains(c, "transaction") && !Contains(c, "transactions")
    && !Contains(c, "spent") && !Contains(c, "spending")
    && !Contains(c, "category") && !Contains(c, "categories") && !Contains(c, "expense")
    && !Contains(c, "receipt") && !Contains(c, "upload")
  }

  lemma WithoutKeywordsUnknown(c: string)
    requires NoIntentKeyword(c)
    ensures Classify(c) == UnknownIntent
  {
  }

  /** Lacking the letters v, t, p, c, r and u rules out every keyword. */
  lemma LacksKeywordLetters(c: string)
    requires 'v' !in c && 't' !in c && 'p' !in c && 'c' !in c && 'r' !in c && 'u' !in c
    ensures NoIntentKeyword(c)
  {
    MissingCharNotContained(c, "virtual card", 'v');
    MissingCharNotContained(c, "virtual cards", 'v');
    MissingCharNotContained(c, "transaction", 't');
    MissingCharNotContained(c, "transactions", 't');
    MissingCharNotContained(c, "spent", 'p');
    MissingCharNotContained(c, "spending", 'p');
    MissingCharNotContained(c, "category", 'c');
    MissingCharNotContained(c, "categories", 'c');
    MissingCharNotContained(c, "expense", 'p');
    MissingCharNotContained(c, "receipt", 'r');
    MissingCharNotContained(c, "upload", 'u');
  }

  lemma NonsenseUnknown(c: string)
    requires c == "xyz nonsense"
    ensures Lower(c) == c && Classify(c) == UnknownIntent
  {
    LowerOfLowercase(c);
    LacksKeywordLetters(c);
    WithoutKeywordsUnknown(c);
  }

  /** A command with no keyword of any intent gets the fallback reply. */
  lemma NonsenseFallsBack(c: string, gateway: Gateway)
    requires c == "xyz nonsense"
    ensures ProcessCommand(c, Clock, gateway) == FallbackReply
  {
    NonsenseUnknown(c);
  }

  lemma ShowCardsPieces(c: string)
    requires c == "show my virtual cards"
    ensures Contains(c, "virtual card") && Contains(c, "show")
  {
    ContainsAt(c, "virtual card", 8);
    ContainsAt(c, "show", 0);
  }

  lemma ShowCardsClassified(c: string)
    requires c == "show my virtual cards"
    ensures Lower(c) == c && Classify(c) == VirtualCardIntent && AsksForList(c)
  {
    LowerOfLowercase(c);
    ShowCardsPieces(c);
  }

  /** "show my virtual cards" asks for a listing. */
  lemma ShowCards(c: string, gateway: Gateway)
    requires c == "show my virtual cards"
    ensures ProcessCommand(c, Clock, gateway) == FormatVirtualCardList(gateway.virtualCards)
  {
    ShowCardsClassified(c);
  }

  /** The letters v, r, g, x and l are missing and "spent" does not occur. */
  lemma LacksSpendLetters(c: string)
    requires 'v' !in c && 'r' !in c && 'g' !in c && 'x' !in c && 'l' !in c && !Contains(c, "spent")
    ensures NoIntentKeyword(c)
  {
    MissingCharNotContained(c, "virtual card", 'v');
    MissingCharNotContained(c, "virtual cards", 'v');
    MissingCharNotContained(c, "transaction", 'r');
    MissingCharNotContained(c, "transactions", 'r');
    MissingCharNotContained(c, "spending", 'g');
    MissingCharNotContained(c, "category", 'g');
    MissingCharNotContained(c, "categories", 'g');
    MissingCharNotContained(c, "expense", 'x');
    MissingCharNotContained(c, "receipt", 'r');
    MissingCharNotContained(c, "upload", 'l');
  }

  lemma SpendLetters(c: string)
    requires c == "how much did i spend"
    ensures 'v' !in c && 'r' !in c && 'g' !in c && 'x' !in c && 'l' !in c
  {
  }

  lemma SpendNotSpent(c: string)
    requires c == "how much did i spend"
    ensures !Contains(c, "spent")
  {
    assert c[19] == 'd';
    UniqueCharNotContained(c, "spent", 1, "how much did i s", "end");
  }

  lemma SpendUnknown(c: string)
    requires c == "how much did i spend"
    ensures Lower(c) == c && Classify(c) == UnknownIntent
  {
    LowerOfLowercase(c);
    SpendLetters(c);
    SpendNotSpent(c);
    LacksSpendLetters(c);
    WithoutKeywordsUnknown(c);
  }

  /** "how much did i spend" says "spend", not "spent": no intent keyword occurs, so
      it gets the fallback reply, not a total. */
  lemma SpendIsNotAKeyword(c: string, gateway: Gateway)
    requires c == "how much did i spend"
    ensures ProcessCommand(c, Clock, gateway) == FallbackReply
  {
    SpendUnknown(c);
  }

  lemma HowMuchLetters(c: string)
    requires c == "how much spent on food today"
    ensures Lower(c) == c && 'r' !in c && 'v' !in c
  {
    LowerOfLowercase(c);
  }

  lemma HowMuchPieces(c: string)
    requires c == "how much spent on food today"
    ensures Contains(c, "how much") && Contains(c, "spent") && Contains(c, "food") && Contains(c, "today")
  {
    ContainsAt(c, "how much", 0);
    ContainsAt(c, "spent", 9);
    ContainsAt(c, "food", 18);
    ContainsAt(c, "today", 23);
  }

  lemma HowMuchClassified(c: string)
    requires c == "how much spent on food today"
    ensures Lower(c) == c && Classify(c) == TransactionIntent && Contains(c, "how much")
    ensures ExtractTimePeriod(c, Clock) == Some(TimePeriod(Clock, Clock, "today"))
    ensures ExtractCategory(c) == Some("food")
  {
    HowMuchLetters(c);
    HowMuchPieces(c);
    MissingCharNotContained(c, "virtual card", 'v');
    MissingCharNotContained(c, "virtual cards", 'v');
    MissingCharNotContained(c, "travel", 'r');
  }

  /** "how much spent on food today" totals what the gateway returns. */
  lemma HowMuchTodayOnFood(c: string, gateway: Gateway)
    requires c == "how much spent on food today"
    requires forall f :: gateway.listTransactions(f) == SampleTransactions()
    ensures ProcessCommand(c, Clock, gateway) == "You spent $225.00 today on food ."
  {
    HowMuchClassified(c);
    SampleSummaryWithFilters();
  }

  lemma SpentLastMonthLetters(c: string)
    requires c == "spent last month"
    ensures 'd' !in c && 'y' !in c && 'w' !in c && 'i' !in c
  {
  }

  lemma SpentLastMonthMoreLetters(c: string)
    requires c == "spent last month"
    ensures 'v' !in c && 'f' !in c && 'r' !in c && 'u' !in c
  {
  }

  lemma SpentLastMonthPeriod(c: string)
    requires c == "spent last month"
    ensures ExtractTimePeriod(c, Clock) == Some(LastMonth(Clock))
    ensures ExtractCategory(c) == None
  {
    SpentLastMonthLetters(c);
    SpentLastMonthMoreLetters(c);
    ContainsAt(c, "last month", 6);
    MissingCharNotContained(c, "today", 'd');
    MissingCharNotContained(c, "yesterday", 'y');
    MissingCharNotContained(c, "this week", 'w');
    MissingCharNotContained(c, "this month", 'i');
    MissingCharNotContained(c, "travel", 'v');
    MissingCharNotContained(c, "food", 'f');
    MissingCharNotContained(c, "office", 'f');
    MissingCharNotContained(c, "entertainment", 'r');
    MissingCharNotContained(c, "utilities", 'u');
  }

  lemma FebruaryDates()
    ensures FormatDate(Date(2024, 2, 1)) == "2024-02-01"
    ensures FormatDate(Date(2024, 2, 28)) == "2024-02-28"
  {
    assert NatToString(2024) == "2024" by {
      assert NatToString(202) == "202" by {
        assert NatToString(20) == "20";
      }
    }
    assert PadNat(2024, 4) == "2024";
    assert PadNat(2, 2) == "02";
    assert PadNat(1, 2) == "01";
    assert PadNat(28, 2) == "28" by {
      assert NatToString(28) == "28";
    }
  }

  /** "last month" on 2024-03-05 asks for 2024-02-01 to 2024-02-28, leaving out the
      leap day. */
  lemma SpentLastMonthFilters()
    ensures TransactionFilters("spent last month", Clock)
              == map["startDate" := "2024-02-01", "endDate" := "2024-02-28"]
  {
    SpentLastMonthPeriod("spent last month");
    LastMonthMissesLeapDay();
    FebruaryDates();
  }

  /** The category vocabulary is scanned in its own order, not the command's. */
  lemma FirstVocabularyWordWins()
    ensures ExtractCategory("food and travel") == Some("travel")
  {
    ContainsAt("food and travel", "travel", 9);
  }

  // ---------------------------------------------------------------------------
  // News
  // ---------------------------------------------------------------------------

  lemma SaidMatchesAi(title: string)
    requires title == "Company said profits rose"
    ensures IsPriority(Article(title))
  {
    var lowered := Lower(title);
    assert lowered[9..11] == "ai";
    ContainsAt(lowered, "ai", 9);
    assert PriorityKeywords[0] == "ai";
  }

  /** "ai" is matched as a substring, so a headline that merely says "said" has priority. */
  lemma SaidCountsAsAi()
    ensures IsPriority(Article("Company said profits rose"))
  {
    SaidMatchesAi("Company said profits rose");
  }

  /** The source name after " - " is dropped. */
  lemma HeadlineLosesSource()
    ensures TitleHead("AI - Wired") == "AI"
  {
    var title := "AI - Wired";
    assert !OccursAt(title, SourceSeparator, 0) by {
      assert title[0..3][0] == 'A';
    }
    assert !OccursAt(title, SourceSeparator, 1) by {
      assert title[1..4][0] == 'I';
    }
    assert title[2..5] == SourceSeparator;
    TitleHeadUnique(title, "AI");
  }
}
