/** class FinanceManager: the in-memory ledger and the operations the menu
    calls on it. Console output and the report file become returned values. */
module Finance {
  import opened Common
  import opened Ledger
  import opened Aggregation
  import opened Formatting

  class FinanceManager {
    /** The three append-only vectors, in insertion order. */
    var wallets: seq<Wallet>
    var cards: seq<Card>
    var expenses: seq<Expense>

    constructor ()
      ensures wallets == [] && cards == [] && expenses == []
    {
      wallets, cards, expenses := [], [], [];
    }

    /** addWallet: appends one wallet; no check for a name already in use. */
    method AddWallet(name: string, balance: int)
      modifies this
      ensures wallets == old(wallets) + [Wallet(name, balance)]
      ensures cards == old(cards) && expenses == old(expenses)
    {
      wallets := wallets + [Wallet(name, balance)];
    }

    /** addCard: appends one card. */
    method AddCard(name: string, balance: int, isCredit: bool)
      modifies this
      ensures cards == old(cards) + [Card(name, balance, isCredit)]
      ensures wallets == old(wallets) && expenses == old(expenses)
    {
      cards := cards + [Card(name, balance, isCredit)];
    }

    /** addExpense(date, amount, category): appends Expense(date, category, amount). */
    method AddExpense(date: string, amount: int, category: string)
      modifies this
      ensures expenses == old(expenses) + [Expense(date, category, amount)]
      ensures wallets == old(wallets) && cards == old(cards)
    {
      expenses := expenses + [Expense(date, category, amount)];
    }

    /** addWalletBalance: scans the wallets in order, adds `amount` to the first
        one named `walletName` and stops; reports NotFound when none is. */
    method AddWalletBalance(walletName: string, amount: int) returns (status: Adjustment)
      modifies this
      ensures (wallets, status) == AdjustWallets(old(wallets), walletName, amount)
      ensures cards == old(cards) && expenses == old(expenses)
    {
      var i := 0;
      while i < |wallets|
        invariant 0 <= i <= |wallets|
        invariant wallets == old(wallets) && cards == old(cards) && expenses == old(expenses)
        invariant forall j :: 0 <= j < i ==> wallets[j].name != walletName
      {
        if wallets[i].name == walletName {
          var b := wallets[i].balance + amount;
          assert FirstIndex(Map(WalletName, wallets), walletName) == Some(i);
          wallets := wallets[i := wallets[i].(balance := b)];
          status := Found(b);
          return;
        }
        i := i + 1;
      }
      status := NotFound;
    }

    /** addCardBalance: the same scan over the cards. */
    method AddCardBalance(cardName: string, amount: int) returns (status: Adjustment)
      modifies this
      ensures (cards, status) == AdjustCards(old(cards), cardName, amount)
      ensures wallets == old(wallets) && expenses == old(expenses)
    {
      var i := 0;
      while i < |cards|
        invariant 0 <= i <= |cards|
        invariant wallets == old(wallets) && cards == old(cards) && expenses == old(expenses)
        invariant forall j :: 0 <= j < i ==> cards[j].name != cardName
      {
        if cards[i].name == cardName {
          var b := cards[i].balance + amount;
          assert FirstIndex(Map(CardName, cards), cardName) == Some(i);
          cards := cards[i := cards[i].(balance := b)];
          status := Found(b);
          return;
        }
        i := i + 1;
      }
      status := NotFound;
    }

    /** The loop `report[expense.category] += expense.amount` over all expenses,
        which generateReportByPeriod and generateRating both run. */
    method CategoryTotals() returns (totals: seq<CategoryTotal>)
      ensures totals == Totals(expenses)
    {
      totals := [];
      for i := 0 to |expenses|
        invariant totals == Totals(expenses[..i])
      {
        assert expenses[..i + 1][..i] == expenses[..i];
        totals := Accumulate(totals, expenses[i].category, expenses[i].amount);
      }
      assert expenses[..|expenses|] == expenses;
    }

    /** generateReportByPeriod: the totals of ALL expenses under the given
        label, in ascending category order; the label filters nothing. */
    method GenerateReportByPeriod(period: string) returns (lines: seq<string>)
      ensures lines == PeriodReport(period, Totals(expenses))
    {
      var totals := CategoryTotals();
      lines := ["Report by " + period + ":"];
      for i := 0 to |totals|
        invariant lines == PeriodReport(period, totals[..i])
      {
        assert totals[..i + 1] == totals[..i] + [totals[i]];
        PeriodReportSnoc(period, totals[..i], totals[i]);
        lines := lines + [TotalLine(totals[i])];
      }
      assert totals[..|totals|] == totals;
    }

    /** generateRating: sorts the totals with comparePairs and shows the first
        min(3, size) of them. */
    method GenerateRating() returns (top: seq<CategoryTotal>, lines: seq<string>)
      ensures |top| == Min(RatingSize, |ExpenseCategories(expenses)|)
      ensures SortedByTotal(top)
      ensures multiset(top) <= multiset(Totals(expenses))
      ensures forall x, y :: x in top && y in multiset(Totals(expenses)) - multiset(top) ==> y.total <= x.total
      ensures lines == RatingReport(top)
    {
      var totals := CategoryTotals();
      var sorted := new CategoryTotal[|totals|](i requires 0 <= i < |totals| => totals[i]);
      assert sorted[..] == totals;
      SortByTotal(sorted);
      var ranked := sorted[..];
      var count := Min(RatingSize, |ranked|);
      lines := ["", RatingHeader];
      for i := 0 to count
        invariant lines == RatingReport(ranked[..i])
      {
        assert ranked[..i + 1] == ranked[..i] + [ranked[i]];
        RatingReportSnoc(ranked[..i], ranked[i]);
        lines := lines + [TotalLine(ranked[i])];
      }
      top := ranked[..count];
      TopOfSorted(totals, ranked, count);
      TotalsSize(expenses);
    }

    /** saveReports: the Wallets, Cards and Expenses sections, each listing its
        entries in insertion order (the file itself is not modelled). */
    method SaveReports() returns (lines: seq<string>)
      ensures lines == SavedReport(wallets, cards, expenses)
    {
      lines := [WalletsHeader];
      for i := 0 to |wallets|
        invariant lines == [WalletsHeader] + WalletLines(wallets[..i])
      {
        assert wallets[..i + 1] == wallets[..i] + [wallets[i]];
        WalletLinesSnoc(wallets[..i], wallets[i]);
        lines := lines + [WalletLine(wallets[i])];
      }
      assert wallets[..|wallets|] == wallets;
      lines := lines + [CardsHeader];
      ghost var upToCards := lines;
      for i := 0 to |cards|
        invariant lines == upToCards + CardLines(cards[..i])
      {
        assert cards[..i + 1] == cards[..i] + [cards[i]];
        CardLinesSnoc(cards[..i], cards[i]);
        lines := lines + [CardLine(cards[i])];
      }
      assert cards[..|cards|] == cards;
      lines := lines + [ExpensesHeader];
      ghost var upToExpenses := lines;
      for i := 0 to |expenses|
        invariant lines == upToExpenses + ExpenseLines(expenses[..i])
      {
        assert expenses[..i + 1] == expenses[..i] + [expenses[i]];
        ExpenseLinesSnoc(expenses[..i], expenses[i]);
        lines := lines + [ExpenseLine(expenses[i])];
      }
      assert expenses[..|expenses|] == expenses;
    }
  }
}
