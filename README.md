# B.A.N.K FinanceManager — a verified Dafny model

This project models the personal-finance ledger of `B.A.N.K/RIP.cpp`: the
`Wallet`, `Card` and `Expense` records, the comparator `comparePairs`, and the
class `FinanceManager` with its three append-only vectors (wallets, cards,
expenses), the two balance adjusters, the per-category aggregation shared by
`generateReportByPeriod` and `generateRating`, the top-3 rating and the
layout of the file `saveReports` writes.

How the source's pieces appear in Dafny:

- `FinanceManager` is a class (`Finance.FinanceManager`) whose three vectors are
  `seq` fields. Every method that mutates them has a `modifies this` clause and
  states the whole new state.
- `addWalletBalance` and `addCardBalance` keep their front-to-back loop with its
  early return. Each is proved equal to a specification function
  (`Ledger.AdjustWallets`, `Ledger.AdjustCards`). Instead of printing, they
  return `Found(newBalance)` or `NotFound`.
- The `std::map<string, double>` that both reports fill is its in-order entry
  list: a `seq<CategoryTotal>` whose categories strictly increase under
  `std::string`'s `operator<` (`Aggregation.LexLess`).
  - `report[cat] += amount` is `Aggregation.Accumulate`. It inserts a missing
    key at its ordered place, starting from the value-initialised 0.
  - `Aggregation.Totals` is the loop over all expenses.
  - `CategorySum` and `SumAmounts` are independent reference definitions of
    what the loop computes.
- `std::sort(…, comparePairs)` sorts an array in place (`Aggregation.SortByTotal`,
  an insertion sort). Because `std::sort` leaves the order of equal totals
  unspecified, every property of the rating is stated for any order of ties.
- Console and file output become returned lines, one `string` per line
  (`Formatting`). A parser for the saved report
  (`Formatting.ParseSavedReport`) is the partner the file layout is proved
  against.

Amounts are whole numbers (`int`, e.g. cents) instead of `double`. They are
written as plain decimal integers (`Formatting.AmountToString`).

The source sorts with no tie-break of its own. The model follows the code and
does not add one: the rating's contracts hold for every order `std::sort` may
leave equal totals in. `generateReportByPeriod` prints its `period` argument as
a label and aggregates every expense whatever that label is. The model keeps
this.

## Model

| member | source | states |
|---|---|---|
| `Finance.FinanceManager.constructor` | B.A.N.K/RIP.cpp:45-47 | a new manager holds no wallets, cards or expenses |
| `Finance.FinanceManager.AddWallet` | B.A.N.K/RIP.cpp:49-52 | exactly one wallet with the given name and balance is appended at the end; every earlier wallet and the other two vectors are unchanged |
| `Finance.FinanceManager.AddCard` | B.A.N.K/RIP.cpp:54-57 | exactly one card with the given name, balance and credit flag is appended; nothing else changes |
| `Finance.FinanceManager.AddExpense` | B.A.N.K/RIP.cpp:87-90 | appends one expense whose fields are (date, category, amount) although the parameters come as (date, amount, category); nothing else changes |
| `Finance.FinanceManager.AddWalletBalance` | B.A.N.K/RIP.cpp:59-71 | the scan with early return leaves exactly the wallets and status that `AdjustWallets` describes; cards and expenses are unchanged |
| `Finance.FinanceManager.AddCardBalance` | B.A.N.K/RIP.cpp:73-85 | the card scan leaves exactly the cards and status that `AdjustCards` describes; wallets and expenses are unchanged |
| `Finance.FinanceManager.CategoryTotals` | B.A.N.K/RIP.cpp:94-98 | the accumulation loop (also lines 108-112) yields the ordered map `Totals(expenses)` |
| `Finance.FinanceManager.GenerateReportByPeriod` | B.A.N.K/RIP.cpp:92-104 | the output is the title line with the period label, then one `category: total` line per entry of the totals of ALL expenses, in map order |
| `Finance.FinanceManager.GenerateRating` | B.A.N.K/RIP.cpp:106-122 | exactly min(3, number of distinct expense categories) entries are shown; they are non-increasing by total, drawn from the category totals, and no total left out exceeds any total shown; the lines are the blank line, the heading and one line per shown entry |
| `Finance.FinanceManager.SaveReports` | B.A.N.K/RIP.cpp:124-147 | the lines written are exactly `SavedReport` of the current wallets, cards and expenses |
| `Ledger.AdjustWallets` | B.A.N.K/RIP.cpp:59-71 | NotFound exactly when no wallet has the name, and then nothing changes; otherwise only the FIRST wallet with the name gains the amount, the status carries its new balance, and the length and every other wallet are unchanged |
| `Ledger.AdjustCards` | B.A.N.K/RIP.cpp:73-85 | the same first-match-or-NotFound behaviour over cards, keeping the matched card's credit flag |
| `Ledger.ShadowedWalletUnchanged` | B.A.N.K/RIP.cpp:61-67 | a later wallet that shares its name with an earlier one is never changed by an adjustment under that name |
| `Ledger.ReplenishCash` | B.A.N.K/RIP.cpp:59-69 | adding 50 to the only wallet "Cash" at 100 reports and stores 150 |
| `Ledger.ReplenishUnknownCard` | B.A.N.K/RIP.cpp:73-84 | adjusting a card name that no card has reports NotFound and leaves the cards as they were |
| `Aggregation.LexLessIrreflexive` | B.A.N.K/RIP.cpp:94 | the map's key order never puts a key before itself |
| `Aggregation.LexLessTransitive` | B.A.N.K/RIP.cpp:94 | the map's key order is transitive |
| `Aggregation.LexLessTotal` | B.A.N.K/RIP.cpp:94 | any two different keys are ordered one way or the other |
| `Aggregation.AccumulateCategories` | B.A.N.K/RIP.cpp:97 | `report[cat] += amount` adds the key `cat` and no other key |
| `Aggregation.AccumulateTotalOf` | B.A.N.K/RIP.cpp:97 | on an ordered map, `report[cat] += amount` raises the value read for `cat` by `amount` and leaves every other key's value as it was |
| `Aggregation.AccumulateSum` | B.A.N.K/RIP.cpp:97 | one `+=` raises the sum of all values by exactly `amount` |
| `Aggregation.AccumulateKeepsOrder` | B.A.N.K/RIP.cpp:97 | one `+=` keeps the keys strictly increasing |
| `Aggregation.TotalsSorted` | B.A.N.K/RIP.cpp:94-103 | the totals are listed in strictly increasing category order, the order the report loop prints them in |
| `Aggregation.TotalsCategories` | B.A.N.K/RIP.cpp:94-98 | the map has a key exactly when some expense has that category |
| `Aggregation.TotalsValues` | B.A.N.K/RIP.cpp:108-112 | the value read for any category is the sum of the amounts of the expenses of that category (0 for a category no expense has) |
| `Aggregation.TotalsEntries` | B.A.N.K/RIP.cpp:95-98 | every listed entry holds the sum of its own category's expense amounts |
| `Aggregation.TotalsConserveAmounts` | B.A.N.K/RIP.cpp:109-112 | the values add up to the sum of all expense amounts |
| `Aggregation.TotalsSize` | B.A.N.K/RIP.cpp:108-114 | the map holds exactly one entry per distinct expense category, so the vector built from it has that many entries |
| `Aggregation.FoodAndTransport` | B.A.N.K/RIP.cpp:94-98 | expenses Food 20, Food 30, Transport 10 give exactly the entries Food 50, then Transport 10 |
| `Aggregation.ComparePairsIsStrictWeakOrder` | B.A.N.K/RIP.cpp:37-40 | comparePairs is irreflexive and transitive, and two entries are unordered by it exactly when their totals are equal |
| `Aggregation.SortByTotal` | B.A.N.K/RIP.cpp:114-115 | after sorting in place, no entry goes before an earlier one under comparePairs (totals do not increase), and the array holds the same entries as before |
| `Aggregation.TopOfSorted` | B.A.N.K/RIP.cpp:117-121 | the first k entries of a sorted permutation of the totals are themselves sorted, come from the totals, and no total left out is larger than any kept |
| `Formatting.AmountRoundTrip` | B.A.N.K/RIP.cpp:131 | every amount's written form reads back as the same amount |
| `Formatting.BalanceLineRoundTrip` | B.A.N.K/RIP.cpp:129-138 | a `name: balance` line gives back exactly its name and balance, whatever characters the name holds |
| `Formatting.ExpenseLineRoundTrip` | B.A.N.K/RIP.cpp:143 | a line of date, category and amount separated by bars gives back the expense when its category holds no bar |
| `Formatting.EntryLinesAreNotHeaders` | B.A.N.K/RIP.cpp:128-143 | every wallet, card and expense line ends in a digit, so none of them equals any of the three section headings |
| `Formatting.WalletLinesRoundTrip` | B.A.N.K/RIP.cpp:129-132 | the wallet section reads back as every wallet's name and balance, in insertion order |
| `Formatting.CardLinesRoundTrip` | B.A.N.K/RIP.cpp:135-138 | the card section reads back as every card's name and balance, in insertion order |
| `Formatting.ExpenseLinesRoundTrip` | B.A.N.K/RIP.cpp:141-144 | the expense section reads back as the expenses, in insertion order, provided no category contains a bar |
| `Formatting.SavedReportLayout` | B.A.N.K/RIP.cpp:128-144 | the saved report is "Wallets:", the wallet lines, "Cards:", the card lines, "Expenses:", the expense lines, in that order and nothing else: 3 + wallets + cards + expenses lines |
| `Formatting.SavedReportRoundTrip` | B.A.N.K/RIP.cpp:124-147 | reading the saved report back recovers every wallet's and card's name and balance and every expense, in insertion order |
| `Formatting.PeriodIsOnlyALabel` | B.A.N.K/RIP.cpp:92-103 | two reports by period over the same totals differ at most in their first line |

## Left out

- The interactive menu (`main`, `printMainMenu`, `clearScreen`) is not part of this model: it is console input and screen clearing with no ledger logic.
- The report file's name, built from the wall clock, is not modelled. Opening, writing and closing the file are not modelled either: the report is the returned list of lines.
- Console output is not modelled. The adjusters' messages become the returned `Adjustment`, and the two report methods return their lines.
- Amounts are exact whole numbers. `double` rounding and iostream's default formatting (six significant digits, exponent notation for large values) are not modelled; `AmountToString` writes plain decimal digits.
- `Card.isCredit` is carried and stored but given no meaning, since no code reads it.
- The exact order of equal totals after `std::sort` is not modelled. The insertion sort is one order the standard allows, and no contract depends on it.
- The two identical aggregation loops of `generateReportByPeriod` and `generateRating` are one method, `CategoryTotals`, called by both.
- Formatting.SavedReportRoundTrip: requires that no expense category contains '|'. With a '|' inside a category, the written line is ambiguous, so the source's file does not determine the expense.
- Formatting.ExpenseLineRoundTrip: requires that the category holds no '|', for the same reason.
- Formatting.ExpenseLinesRoundTrip: requires that no expense category contains '|', for the same reason.
- Formatting.AmountRoundTrip, Formatting.BalanceLineRoundTrip and Formatting.SavedReportRoundTrip hold for this model's exact formatter only. The program writes each `double` with six significant digits (12345.67 becomes "12345.7", and 1234567 and 1234568 are both "1.23457e+06"). So the program's own file loses amount digits beyond the sixth and cannot always be read back exactly.
