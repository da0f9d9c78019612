# Voice assistant command core, modelled in Dafny

This project models the core of a voice assistant for a corporate-card backend, in Dafny.
The assistant turns a spoken command into a spoken reply.

- `CommandProcessor` lower-cases the command and picks an intent by keyword. The intents are
  virtual cards, transactions, expense categories, receipts, and everything else.
- For transaction commands, it reads a date range ("today", "yesterday", "this week",
  "this month", "last month") and a spending category out of the command.
- It asks the backend gateway for records and phrases the answer.
- `ResponseGenerator` holds the fixed messages and the four list and summary formatters.
- `NewsProcessor.create_briefing` turns a news feed into a short briefing of at most three
  headlines. Headlines about AI and technology are preferred.

Files and modules:

- `options.dfy` (`Options`): an optional value with a default, used for the record fields that
  may be missing.
- `text.dfy` (`Text`): the string facts the model relies on:
  - substring search (Python's `in`), with a proof that it agrees with "occurs at some index";
  - ASCII lower-casing;
  - concatenation and joining;
  - the `response += ...` accumulation loop;
  - decimal digits.
- `money.dfy` (`Money`): integer cents printed the way `"${:.2f}".format(cents / 100)` prints
  them, and a parser that reads the printed text back.
- `calendar.dfy` (`Calendar`): proleptic Gregorian dates.
  - Day numbering and weekday follow Python's `date.toordinal` and `date.weekday`.
  - `d - timedelta(days=n)`.
  - `%Y-%m-%d` rendering, with a parser.
- `records.dfy` (`Records`): cards, transactions and categories. Every field is optional, as in
  the dictionaries the gateway returns.
- `response_generator.dfy` (`ResponseGenerator`): the reply texts.
- `command_processor.dfy` (`CommandProcessor`):
  - classification and phrase extraction;
  - the filters sent to the gateway;
  - the card, transaction and category handlers and the dispatcher, each building its reply
    text inline; the receipt handler only returns a fixed text, so the dispatcher answers
    receipt commands with the constant `ReceiptReply`;
  - lemmas showing that each handler's text equals the matching formatter's text.
- `news_processor.dfy` (`NewsProcessor`): the briefing.
- `scenarios.dfy` (`Scenarios`): the sample records of the repository's tests and a set of
  sample commands, each stated as a fact about the model.

The clock and the backend are parameters:

- `now` is a `Date`.
- The gateway is a value holding the card list, the category list, and a function from
  filters to transactions.

Three behaviours of `CommandProcessor` are easy to misread, and the model keeps each as the
code has it:

- "spend" is not a transaction keyword, only "spent" and "spending" are. So "how much did i
  spend" gets the fallback reply, not a total (`Scenarios.SpendIsNotAKeyword`).
- The category vocabulary is scanned in its own order, not the command's. So "food and
  travel" yields "travel" (`Scenarios.FirstVocabularyWordWins`).
- "last month" always ends February on the 28th, also in leap years
  (`CommandProcessor.LastMonth`, `CommandProcessor.LastMonthMissesLeapDay`).

## Model

| member | source | states |
|---|---|---|
| CommandProcessor.Classify | src/command_processor.py:12-32 | The intent returned is the first in the order cards, transactions, categories, receipts whose keywords occur in the command. A non-fallback intent has one of its keywords present. Every intent tried earlier has none of its keywords present. |
| CommandProcessor.PluralKeywordsRedundant | src/command_processor.py:15-19 | "virtual cards" and "transactions" each contain their singular keyword, so the plural tests never change the outcome. |
| CommandProcessor.FirstOccurring | src/command_processor.py:211-217 | Scanning a word list in order returns the first word that occurs in the command. No earlier word occurs, and nothing is returned only when no word occurs. |
| CommandProcessor.LastMonth | src/command_processor.py:181-201 | The range runs from day 1 of the previous month (December of the previous year in January) to that month's last day. The one exception is a leap February, which ends on the 28th. The range is well formed and ends before `now`. |
| CommandProcessor.Yesterday | src/command_processor.py:157-158 | For any real date except 0001-01-01, the day before is a real date whose day number is one less. |
| CommandProcessor.ExtractTimePeriod | src/command_processor.py:144-203 | A period exists exactly when some phrase occurs, and it is named by the first phrase in list order. It is well formed and ends no later than `now`. "today" is today to today. "yesterday" is one day, the one before. "this week" runs from the Monday of the week. "this month" starts on day 1. "last month" is `LastMonth`. |
| CommandProcessor.LastMonthMissesLeapDay | src/command_processor.py:187-195 | On 2024-03-05, "last month" is 2024-02-01 to 2024-02-28, although February 2024 has 29 days. |
| CommandProcessor.ExtractCategory | src/command_processor.py:205-217 | No category exactly when no vocabulary word occurs. Otherwise the result is the first vocabulary word, in vocabulary order, that occurs. |
| CommandProcessor.BuildFilters | src/command_processor.py:65-73 | Both date keys are present exactly when a period was found, and they hold its `%Y-%m-%d` dates. The category key is present exactly when a non-empty category was found, and it holds that category. No other key is present. |
| CommandProcessor.TransactionFiltersKeys | src/command_processor.py:59-76 | The gateway receives date filters exactly when the command mentions a time phrase, a category filter exactly when it mentions a vocabulary word, and nothing else. |
| CommandProcessor.AppendCardLinesIsCardSentences | src/command_processor.py:46-49 | The card handler's loop appends exactly one card sentence per card, in order. |
| CommandProcessor.AppendTransactionLinesIsSentences | src/command_processor.py:102-107 | The transaction handler's loop appends exactly one transaction sentence per transaction, in order. |
| CommandProcessor.AppendCategoryNames | src/command_processor.py:128-132 | A non-empty loop ends its text with ", ", so `response[:-2]` removes exactly that separator. |
| CommandProcessor.AppendCategoryNamesIsItems | src/command_processor.py:128-130 | The category handler's loop appends "name, " per category, in order. |
| CommandProcessor.HandleVirtualCardCommand | src/command_processor.py:34-53 | With no cards, or when the command asks for a list, the reply is `format_virtual_card_list`'s text for the cards. Otherwise it is the card help text. |
| CommandProcessor.SpokenSummary | src/command_processor.py:86-97 | The handler's own "how much" text over a non-empty result is `format_transaction_summary`'s text for the period's description and the category. |
| CommandProcessor.SpokenListing | src/command_processor.py:99-110 | The handler's own listing over a non-empty result is `format_transaction_list`'s text with limit 5. |
| CommandProcessor.TransactionReply | src/command_processor.py:78-114 | An empty result gives the not-found text. A "how much" command gets the summary. Otherwise a listing command, or an empty result, gets the list with limit 5, and any other command the transaction help text. |
| CommandProcessor.HandleTransactionCommand | src/command_processor.py:55-114 | The gateway is asked once, with the filters drawn from the command. The reply is the summary or the listing of exactly what it returns, or the help text, as for `TransactionReply`. |
| CommandProcessor.HandleExpenseCategoryCommand | src/command_processor.py:116-134 | With no categories, or when the command asks for a list, the reply with its trailing ", " cut is `format_expense_category_list`'s text. Otherwise it is the category help text. |
| CommandProcessor.ProcessCommand | src/command_processor.py:8-142 | The command is lower-cased and answered by the first intent whose keywords occur in it: the card list or card help, the transaction summary or listing over what the gateway returns for the command's own filters, the category list or category help, the fixed receipt description (the receipt handler is a placeholder that uploads nothing), or else the fallback text. Only transaction commands need the clock. |
| CommandProcessor.ExtractedDescriptionNonEmpty | src/command_processor.py:89-90 | A period the extractor finds always has a non-empty description, so the summary names it. |
| CommandProcessor.ProcessCommandCaseInsensitive | src/command_processor.py:12 | Capitalisation never changes the reply: a command and its lower-cased form get the same answer. |
| ResponseGenerator.GenerateWelcomeMessage | src/response_generator.py:5-9 | The greeting contains "Hello!", "Extend voice assistant" and "How can I assist you". |
| ResponseGenerator.GenerateErrorMessage | src/response_generator.py:11-15 | The apology starts with "I encountered an error: ", quotes the error text, and contains "error". |
| ResponseGenerator.GenerateHelpMessage | src/response_generator.py:17-21 | The help text mentions help, virtual cards, transactions and expense categories. |
| ResponseGenerator.FormatTransactionSummary | src/response_generator.py:23-43 | An empty list gives the not-found text. Otherwise the reply is "You spent " and the printed total, then "<time period> " when the period is non-empty, then "on <category> " when the category is non-empty, then ".". So it starts with the total, ends with ".", and with neither filter is exactly "You spent $X .". |
| ResponseGenerator.SummaryTotalIgnoresFilters | src/response_generator.py:30-33 | The stated total does not depend on the time period or category shown. |
| ResponseGenerator.FormatTransactionList | src/response_generator.py:45-64 | An empty list gives the not-found text. Otherwise the reply is the header plus one sentence per transaction, in order, for the first `limit` transactions. When more remain, "And N more transactions. " follows, with N the number left out. This holds for a limit of 0 too. |
| ResponseGenerator.TransactionListShowsEach | src/response_generator.py:54-59 | Every transaction within the limit appears as its own sentence in the listing. |
| ResponseGenerator.TransactionSentenceNamesIt | src/response_generator.py:56-59 | A transaction's sentence names its description, or "Unknown" when it has none. |
| ResponseGenerator.TransactionListNamesEach | src/response_generator.py:54-59 | The description of every transaction within the limit is spoken. |
| ResponseGenerator.TransactionListCountsRest | src/response_generator.py:61-62 | A list longer than the limit, including any non-empty list at limit 0, mentions "more transactions". |
| ResponseGenerator.FormatVirtualCardList | src/response_generator.py:66-80 | No cards gives the no-cards text. Otherwise the reply is "You have N virtual cards. " followed by one sentence per card, in order. |
| ResponseGenerator.CardSentenceDefaults | src/response_generator.py:76-78 | A card without `lastFour` is read as "unknown", and one without `balance` as "$0.00". |
| ResponseGenerator.CardListShowsEach | src/response_generator.py:75-78 | Every card's sentence appears in the card list. |
| ResponseGenerator.FormatExpenseCategoryList | src/response_generator.py:82-95 | No categories gives the no-categories text. Otherwise the reply is "You have N expense categories: ", then the names joined by ", ", then "." (the trailing separator is removed). |
| ResponseGenerator.CategoryListNamesEach | src/response_generator.py:91-95 | Every category name (or "Unknown") is read out. |
| Money.FormatCents | src/response_generator.py:30-33 | The printed amount is "$", a minus sign exactly when the amount is negative, the whole dollars as digits without leading zeros, ".", and exactly two cent digits. |
| Money.ParseFormatCents | src/response_generator.py:33 | Reading a printed amount back gives the same number of cents, so printing loses nothing. |
| Money.FormatCentsInjective | src/response_generator.py:33 | Different amounts never print as the same text. |
| Records.TotalCents | src/command_processor.py:82 | The empty list totals 0 and a single transaction totals its own amount, a missing amount counting as 0. Negative amounts such as refunds count like any other. A list whose amounts are all missing totals 0. When no amount is negative, the total is not negative and is at least each single amount. |
| Records.TotalCentsHeadFirst | src/command_processor.py:82 | Summing from the front gives the same total: the first amount plus the total of the rest. |
| Records.TotalCentsAppend | src/response_generator.py:30 | The total of two lists joined is the sum of their totals. With the one-element case of `TotalCents`, this makes the total the sum of all amounts. |
| Records.TotalCentsSwap | src/response_generator.py:30 | Moving a transaction within the list does not change the total. |
| Calendar.PrevDay | src/command_processor.py:158 | The previous day is a real date, one day number lower, and earlier in calendar order. |
| Calendar.SubDays | src/command_processor.py:166 | Stepping back n days gives a real date exactly n day numbers lower. |
| Calendar.StartOfWeek | src/command_processor.py:166 | `today - timedelta(days=today.weekday())` is a Monday within the six days up to and including today. |
| Calendar.FormatDate | src/command_processor.py:152 | `%Y-%m-%d` gives ten characters with dashes at positions 4 and 7. |
| Calendar.ParseFormatDate | src/command_processor.py:152 | A rendered date reads back as the same date. |
| Text.ContainsIffOccurs | src/command_processor.py:15 | The substring test holds exactly when the word occurs at some index of the command. |
| Text.Lower | src/command_processor.py:12 | The lower-cased text has the same length and no capital letters. Every character that is not a capital is kept, and every capital becomes its small letter. |
| Text.LowerIdempotent | src/command_processor.py:12 | Lower-casing twice changes nothing, and no capital letter is left. |
| Text.AppendEachIsConcat | src/response_generator.py:75-78 | An accumulation loop appends exactly the rendered elements, in input order. |
| NewsProcessor.TitleHead | src/news_processor.py:42 | The kept headline is the prefix of the title before the first " - ". No separator starts inside it, and one starts right after it whenever the title is longer. |
| NewsProcessor.TitleHeadUnique | src/news_processor.py:42 | Any prefix with those three properties is the kept headline. |
| NewsProcessor.TitleWithoutSourceKept | src/news_processor.py:42 | A title without " - " is read out whole. |
| NewsProcessor.PriorityArticles | src/news_processor.py:25-29 | The filter keeps exactly the articles whose lower-cased title contains a priority keyword, and nothing else. |
| NewsProcessor.PriorityArticlesAppend | src/news_processor.py:25-29 | Filtering two feeds joined equals joining their filtered parts, so feed order is kept. |
| NewsProcessor.PriorityArticlesIdempotent | src/news_processor.py:25-29 | Filtering a second time changes nothing. |
| NewsProcessor.PriorityArticlesEmptyIff | src/news_processor.py:31-33 | The filtered list is empty exactly when no article has priority. |
| NewsProcessor.TopStories | src/news_processor.py:31-36 | At most three stories are chosen, at least one from a non-empty feed, all taken from the feed. When priority articles exist, they are the first three of them in feed order. Otherwise they are the first three articles of the feed. |
| NewsProcessor.CreateBriefing | src/news_processor.py:5-45 | An error status gives the apology with the message, or "Unknown error" when there is none. No dictionary or no articles key gives the no-news text. An articles key holding `None` or an empty list gives the no-articles text. Otherwise the reply is the header and one bullet line per chosen story. |
| NewsProcessor.BriefingListsStories | src/news_processor.py:38-45 | A briefing starts with the header and contains the bullet line of every chosen story. |
| NewsProcessor.BriefingIgnoresOtherArticles | src/news_processor.py:24-36 | Once some article has priority, dropping the others does not change the briefing. |
| NewsProcessor.ErrorStatusWins | src/news_processor.py:10-12 | An error status decides the reply, whatever articles the feed also carries. |
| Scenarios.SampleTotal | tests/conftest.py:57-86 | The three sample transactions total 22500 cents, printed "$225.00". |
| Scenarios.SampleSummary | tests/test_response_generator.py:38-60 | The sample summary is "You spent $225.00 ." and keeps that total whatever period or category is shown. |
| Scenarios.SampleSummaryWithFilters | tests/test_response_generator.py:38-60 | With the period "today" and category "food", the summary is "You spent $225.00 today on food .". |
| Scenarios.ListWithLimitCountsRest | tests/test_response_generator.py:78-83 | Listing three transactions with limit 2 reads the first two and ends "And 1 more transactions. ". |
| Scenarios.SampleListNames | tests/test_response_generator.py:78-83 | With limit 2, the sample list names "Coffee Shop" and "Office Supplies" and mentions more transactions. |
| Scenarios.SampleCardList | tests/test_response_generator.py:91-97 | The sample cards give "You have 2 virtual cards. ", with "unknown" and "$0.00" for their missing fields. |
| Scenarios.SampleCategoryList | tests/test_response_generator.py:105-111 | Every sample category name appears in the category list. |
| Scenarios.NonsenseFallsBack | src/command_processor.py:30-32 | "xyz nonsense" gets the fallback reply. |
| Scenarios.ShowCards | src/command_processor.py:14-51 | "show my virtual cards" is answered with the formatted card list. |
| Scenarios.SpendIsNotAKeyword | src/command_processor.py:19 | "how much did i spend" contains no intent keyword and gets the fallback reply. |
| Scenarios.HowMuchTodayOnFood | src/command_processor.py:86-97 | "how much spent on food today" over the sample transactions gives "You spent $225.00 today on food .". |
| Scenarios.SpentLastMonthFilters | src/command_processor.py:181-201 | "spent last month" on 2024-03-05 asks the gateway for 2024-02-01 to 2024-02-28 and no category. |
| Scenarios.FirstVocabularyWordWins | src/command_processor.py:211-215 | "food and travel" yields the category "travel". |
| Scenarios.SaidCountsAsAi | src/news_processor.py:27-28 | Keywords match as substrings, so a headline with "said" counts as being about AI. |
| Scenarios.HeadlineLosesSource | src/news_processor.py:42 | "AI - Wired" is read out as "AI". |

## Left out

- The gateway SDK (`extend_integration.py`) is not part of this model. It is replaced by a value
  that holds the card list, the category list and a function from filters to transactions.
- `news_fetcher.py`, `voice_handler.py` and `main.py` are not part of this model. Their speech
  recognition, synthesis, network access, scheduling and logging lie outside the core.
- `async`/`await` is not modelled. Each handler calls the gateway once, so a call is modelled as
  a plain function application.
- `datetime.now()` is not modelled. The clock is the parameter `now`.
- CommandProcessor.ExtractTimePeriod: requires a real date after January of year 1
  (`ClockInRange`). On every day of that January, Python raises an error for "last month",
  because `replace(year=0)` has no year 0. On 0001-01-01 it also raises for "yesterday". The
  model does not include these error paths, and so it leaves out all of that month, even for
  the phrases that would work there. Times of day are dropped, because only the date is
  rendered.
- CommandProcessor.TransactionFilters, CommandProcessor.HandleTransactionCommand and
  CommandProcessor.ProcessCommand: for the same reason, a transaction command requires the
  clock to be in that range. Other commands never read the clock and require nothing of it.
- Text.Lower: lower-cases ASCII letters only. Python's `str.lower` also maps non-ASCII capitals.
- Money.FormatCents: amounts are integer cents, and dividing by 100 is done exactly.
  From 2^52 cents on, `cents / 100` as a float can print a different last cent digit; this
  floating-point rounding is not modelled.
- Record fields that are present but hold a value of the wrong type are not modelled. A field
  here is either missing (the default applies) or holds a value of the expected type. In
  Python, such a value behaves as follows:
  - A text field holding a non-string, such as `None` or 42, is printed as `str(value)`
    ("None", "42").
  - An `amount` or `balance` holding `None` raises a `TypeError` in `/ 100` or in `sum(...)`.
- Transaction dates are opaque strings. The sample transactions in the tests carry `datetime`
  values, which Python would print with a time of day.
- NewsProcessor.CreateBriefing: an article without a `title` key (a `KeyError` in Python) or
  with a `title` of `None` (an `AttributeError` from `.lower()`) is not modelled. A `status` or `message` that is present but not a string (for example `None`) is
  not modelled.
- `max_briefing_words` (src/news_processor.py:3) is set but never read, so it has no
  counterpart.
- ResponseGenerator.FormatTransactionList: the limit is a natural number. Python would slice
  with a negative limit, but no caller passes one.
- Calendar.ParseDate and Money.ParseCents exist only to state the round trips. The assistant
  never parses dates or amounts.
