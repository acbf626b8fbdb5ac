/** The text the manager produces: the saved report's three sections, the
    console report by period and the top-3 rating, one string per line.
    Amounts are rendered as plain decimal integers (see AmountToString). */
module Formatting {
  import opened Common
  import opened Ledger
  import opened Aggregation

  const WalletsHeader: string := "Wallets:"
  const CardsHeader: string := "Cards:"
  const ExpensesHeader: string := "Expenses:"
  const RatingHeader: string := "Top 3 Categories by Total Expense:"

  // ---------------------------------------------------------------------
  // Amounts

  predicate IsDigit(ch: char)
  {
    '0' <= ch <= '9'
  }

  predicate AllDigits(s: string)
  {
    |s| != 0 && forall i :: 0 <= i < |s| ==> IsDigit(s[i])
  }

  function DigitChar(d: int): (ch: char)
    requires 0 <= d < 10
    ensures IsDigit(ch) && ch as int - '0' as int == d
  {
    ('0' as int + d) as char
  }

  /** The decimal digits of n, most significant first, without leading zeros. */
  function NatToString(n: nat): (s: string)
    ensures AllDigits(s)
  {
    if n < 10 then [DigitChar(n)] else NatToString(n / 10) + [DigitChar(n % 10)]
  }

  /** How an amount is written: an optional minus sign, then its digits. */
  function AmountToString(a: int): (s: string)
    ensures |s| != 0 && IsDigit(s[|s| - 1])
  {
    if a < 0 then "-" + NatToString(-a) else NatToString(a)
  }

  /** An amount's text holds neither separator a line uses. */
  lemma AmountHasNoSeparators(a: int)
    ensures ':' !in AmountToString(a) && '|' !in AmountToString(a)
  {
  }

  /** The value of a string of decimal digits. */
  function DigitsValue(s: string): nat
    requires AllDigits(s)
  {
    var d := s[|s| - 1] as int - '0' as int;
    if |s| == 1 then d else 10 * DigitsValue(s[..|s| - 1]) + d
  }

  /** Reads back what AmountToString writes; None for anything else. */
  function ParseAmount(s: string): Option<int>
  {
    if |s| != 0 && s[0] == '-' then
      if AllDigits(s[1..]) then Some(-(DigitsValue(s[1..]) as int)) else None
    else if AllDigits(s) then Some(DigitsValue(s))
    else None
  }

  lemma {:induction false} NatToStringValue(n: nat)
    ensures DigitsValue(NatToString(n)) == n
  {
    if n >= 10 {
      var s := NatToString(n);
      assert s[..|s| - 1] == NatToString(n / 10);
      NatToStringValue(n / 10);
    }
  }

  /** Every amount reads back as itself. */
  lemma AmountRoundTrip(a: int)
    ensures ParseAmount(AmountToString(a)) == Some(a)
  {
    var s := AmountToString(a);
    if a < 0 {
      assert s[1..] == NatToString(-a);
      NatToStringValue(-a);
    } else {
      NatToStringValue(a);
    }
  }

  // ---------------------------------------------------------------------
  // Lines

  /** `name: balance`, the line of one wallet or card. */
  function BalanceLine(name: string, balance: int): string
  {
    name + ": " + AmountToString(balance)
  }

  function WalletLine(w: Wallet): string
  {
    BalanceLine(w.name, w.balance)
  }

  function CardLine(c: Card): string
  {
    BalanceLine(c.name, c.balance)
  }

  /** `date | category | amount`, the line of one expense. */
  function ExpenseLine(e: Expense): string
  {
    e.date + " | " + e.category + " | " + AmountToString(e.amount)
  }

  /** `category: total`, one line of the report by period or of the rating. */
  function TotalLine(t: CategoryTotal): string
  {
    t.category + ": " + AmountToString(t.total)
  }

  function WalletLines(ws: seq<Wallet>): (r: seq<string>)
    ensures |r| == |ws| && forall i :: 0 <= i < |ws| ==> r[i] == WalletLine(ws[i])
  {
    Map(WalletLine, ws)
  }

  function CardLines(cs: seq<Card>): (r: seq<string>)
    ensures |r| == |cs| && forall i :: 0 <= i < |cs| ==> r[i] == CardLine(cs[i])
  {
    Map(CardLine, cs)
  }

  function ExpenseLines(es: seq<Expense>): (r: seq<string>)
    ensures |r| == |es| && forall i :: 0 <= i < |es| ==> r[i] == ExpenseLine(es[i])
  {
    Map(ExpenseLine, es)
  }

  function TotalLines(t: seq<CategoryTotal>): (r: seq<string>)
    ensures |r| == |t| && forall i :: 0 <= i < |t| ==> r[i] == TotalLine(t[i])
  {
    Map(TotalLine, t)
  }

  lemma WalletLinesSnoc(ws: seq<Wallet>, w: Wallet)
    ensures WalletLines(ws + [w]) == WalletLines(ws) + [WalletLine(w)]
  {
    MapSnoc(WalletLine, ws, w);
  }

  lemma CardLinesSnoc(cs: seq<Card>, c: Card)
    ensures CardLines(cs + [c]) == CardLines(cs) + [CardLine(c)]
  {
    MapSnoc(CardLine, cs, c);
  }

  lemma ExpenseLinesSnoc(es: seq<Expense>, e: Expense)
    ensures ExpenseLines(es + [e]) == ExpenseLines(es) + [ExpenseLine(e)]
  {
    MapSnoc(ExpenseLine, es, e);
  }

  lemma TotalLinesSnoc(t: seq<CategoryTotal>, x: CategoryTotal)
    ensures TotalLines(t + [x]) == TotalLines(t) + [TotalLine(x)]
  {
    MapSnoc(TotalLine, t, x);
  }

  /** The file saveReports writes. */
  function SavedReport(ws: seq<Wallet>, cs: seq<Card>, es: seq<Expense>): seq<string>
  {
    [WalletsHeader] + WalletLines(ws) + [CardsHeader] + CardLines(cs) + [ExpensesHeader] + ExpenseLines(es)
  }

  /** What generateReportByPeriod prints for the totals `t`. */
  function PeriodReport(period: string, t: seq<CategoryTotal>): seq<string>
  {
    ["Report by " + period + ":"] + TotalLines(t)
  }

  /** What generateRating prints for the chosen entries `top`
      (its leading "\n" is the empty first line). */
  function RatingReport(top: seq<CategoryTotal>): seq<string>
  {
    ["", RatingHeader] + TotalLines(top)
  }

  lemma PeriodReportSnoc(period: string, t: seq<CategoryTotal>, x: CategoryTotal)
    ensures PeriodReport(period, t + [x]) == PeriodReport(period, t) + [TotalLine(x)]
  {
    TotalLinesSnoc(t, x);
  }

  lemma RatingReportSnoc(top: seq<CategoryTotal>, x: CategoryTotal)
    ensures RatingReport(top + [x]) == RatingReport(top) + [TotalLine(x)]
  {
    TotalLinesSnoc(top, x);
  }

  /** The saved report's layout: its three headers in order, each followed by
      its entries in insertion order, and nothing else. */
  lemma SavedReportLayout(ws: seq<Wallet>, cs: seq<Card>, es: seq<Expense>)
    ensures var r := SavedReport(ws, cs, es);
      && |r| == 3 + |ws| + |cs| + |es|
      && r[0] == WalletsHeader && r[1..1 + |ws|] == WalletLines(ws)
      && r[1 + |ws|] == CardsHeader && r[2 + |ws|..2 + |ws| + |cs|] == CardLines(cs)
      && r[2 + |ws| + |cs|] == ExpensesHeader && r[3 + |ws| + |cs|..] == ExpenseLines(es)
  {
    ThreeSections(WalletsHeader, WalletLines(ws), CardsHeader, CardLines(cs), ExpensesHeader, ExpenseLines(es));
  }

  /** The report by period does not depend on the period beyond its first line. */
  lemma PeriodIsOnlyALabel(p: string, q: string, t: seq<CategoryTotal>)
    ensures |PeriodReport(p, t)| == |PeriodReport(q, t)| == 1 + |t|
    ensures PeriodReport(p, t)[1..] == PeriodReport(q, t)[1..] == TotalLines(t)
  {
  }

  // ---------------------------------------------------------------------
  // Reading the saved report back

  /** The position of the last `ch` in s. */
  function LastIndex(s: string, ch: char): (r: Option<nat>)
    ensures r.Some? ==> r.value < |s| && s[r.value] == ch
    ensures r.Some? ==> forall j :: r.value < j < |s| ==> s[j] != ch
    ensures r.None? <==> ch !in s
  {
    if |s| == 0 then None
    else if s[|s| - 1] == ch then Some(|s| - 1)
    else
      var r := LastIndex(s[..|s| - 1], ch);
      assert s == s[..|s| - 1] + [s[|s| - 1]];
      r
  }

  lemma LastIndexAt(s: string, ch: char, i: nat)
    requires i < |s| && s[i] == ch
    requires forall j :: i < j < |s| ==> s[j] != ch
    ensures LastIndex(s, ch) == Some(i)
  {
    var r := LastIndex(s, ch);
    assert ch in s;
    assert r.value <= i;
  }

  /** The last `ch` of p + [ch] + q, when q holds none, is the one between them. */
  lemma LastIndexOfJoin(s: string, p: string, ch: char, q: string)
    requires s == p + [ch] + q && ch !in q
    ensures LastIndex(s, ch) == Some(|p|)
  {
    forall j | |p| < j < |s|
      ensures s[j] != ch
    {
      assert s[j] == q[j - |p| - 1];
    }
    LastIndexAt(s, ch, |p|);
  }

  /** Splits a `name: balance` line at its last colon. */
  function ParseBalanceLine(line: string): Option<(string, int)>
  {
    match LastIndex(line, ':')
    case None => None
    case Some(i) =>
      if i + 1 < |line| && line[i + 1] == ' ' then
        match ParseAmount(line[i + 2..])
        case None => None
        case Some(a) => Some((line[..i], a))
      else None
  }

  /** The text before and after the last " ch " of s (the last `ch` must
      have a space on either side). */
  function SplitAtLast(s: string, ch: char): Option<(string, string)>
  {
    match LastIndex(s, ch)
    case None => None
    case Some(i) =>
      if 0 < i && i + 1 < |s| && s[i - 1] == ' ' && s[i + 1] == ' ' then Some((s[..i - 1], s[i + 2..]))
      else None
  }

  lemma SplitAtLastJoin(s: string, p: string, ch: char, q: string)
    requires s == p + [' ', ch, ' '] + q && ch !in q && ch != ' '
    ensures SplitAtLast(s, ch) == Some((p, q))
  {
    LastIndexOfJoin(s, p + [' '], ch, [' '] + q);
    assert s[..|p|] == p;
    assert s[|p| + 3..] == q;
  }

  /** Splits a `date | category | amount` line at its last two bars. */
  function ParseExpenseLine(line: string): Option<Expense>
  {
    match SplitAtLast(line, '|')
    case None => None
    case Some((head, amount)) =>
      match (SplitAtLast(head, '|'), ParseAmount(amount))
      case (Some((date, category)), Some(a)) => Some(Expense(date, category, a))
      case _ => None
  }

  /** A wallet's or card's line gives back its name and balance, whatever the name holds. */
  lemma BalanceLineRoundTrip(name: string, balance: int)
    ensures ParseBalanceLine(BalanceLine(name, balance)) == Some((name, balance))
  {
    var amount := AmountToString(balance);
    var line := BalanceLine(name, balance);
    AmountHasNoSeparators(balance);
    LastIndexOfJoin(line, name, ':', " " + amount);
    assert line[|name| + 2..] == amount;
    assert line[..|name|] == name;
    AmountRoundTrip(balance);
  }

  /** An expense's line gives back the expense when its category holds no '|'. */
  lemma ExpenseLineRoundTrip(e: Expense)
    requires '|' !in e.category
    ensures ParseExpenseLine(ExpenseLine(e)) == Some(e)
  {
    var amount := AmountToString(e.amount);
    var line := ExpenseLine(e);
    var head := e.date + " | " + e.category;
    AmountHasNoSeparators(e.amount);
    SplitAtLastJoin(line, head, '|', amount);
    SplitAtLastJoin(head, e.date, '|', e.category);
    AmountRoundTrip(e.amount);
  }

  /** An entry line ends in a digit, so it is never one of the headers. */
  lemma EntryLinesAreNotHeaders(ws: seq<Wallet>, cs: seq<Card>, es: seq<Expense>)
    ensures forall line :: line in WalletLines(ws) + CardLines(cs) + ExpenseLines(es) ==>
      |line| != 0 && IsDigit(line[|line| - 1])
    ensures forall line :: line in WalletLines(ws) + CardLines(cs) + ExpenseLines(es) ==>
      line != WalletsHeader && line != CardsHeader && line != ExpensesHeader
  {
    forall line | line in WalletLines(ws) + CardLines(cs) + ExpenseLines(es)
      ensures |line| != 0 && IsDigit(line[|line| - 1])
    {
    }
  }

  /** The name and balance of every line, or None when one is not such a line. */
  function ParseBalanceLines(lines: seq<string>): Option<seq<(string, int)>>
  {
    if |lines| == 0 then Some([])
    else match (ParseBalanceLine(lines[0]), ParseBalanceLines(lines[1..]))
      case (Some(b), Some(bs)) => Some([b] + bs)
      case _ => None
  }

  function ParseExpenseLines(lines: seq<string>): Option<seq<Expense>>
  {
    if |lines| == 0 then Some([])
    else match (ParseExpenseLine(lines[0]), ParseExpenseLines(lines[1..]))
      case (Some(e), Some(es)) => Some([e] + es)
      case _ => None
  }

  /** What a saved report can tell about the ledger: wallets and cards as
      name and balance (isCredit is not written), and the expenses. */
  datatype ReportContents = ReportContents(
    wallets: seq<(string, int)>, cards: seq<(string, int)>, expenses: seq<Expense>)

  /** Reads a saved report back: after the "Wallets:" header, the wallet lines
      run to the first "Cards:", the card lines from there to the next
      "Expenses:", and the expense lines to the end. */
  function ParseSavedReport(lines: seq<string>): Option<ReportContents>
  {
    if |lines| == 0 || lines[0] != WalletsHeader then None
    else ParseSections(lines[1..])
  }

  function ParseSections(body: seq<string>): Option<ReportContents>
  {
    match SplitSections(body)
    case None => None
    case Some((w, k, x)) =>
      var wallets := ParseBalanceLines(w);
      var cards := ParseBalanceLines(k);
      var expenses := ParseExpenseLines(x);
      if wallets.Some? && cards.Some? && expenses.Some? then
        Some(ReportContents(wallets.value, cards.value, expenses.value))
      else None
  }

  /** The lines before the first "Cards:", those between it and the next
      "Expenses:", and those after that. */
  function SplitSections(body: seq<string>): Option<(seq<string>, seq<string>, seq<string>)>
  {
    match FirstIndex(body, CardsHeader)
    case None => None
    case Some(c) =>
      var rest := body[c + 1..];
      match FirstIndex(rest, ExpensesHeader)
      case None => None
      case Some(e) => Some((body[..c], rest[..e], rest[e + 1..]))
  }

  function WalletBalance(w: Wallet): (string, int)
  {
    (w.name, w.balance)
  }

  function CardBalance(c: Card): (string, int)
  {
    (c.name, c.balance)
  }

  function Balances(ws: seq<Wallet>): (r: seq<(string, int)>)
    ensures |r| == |ws| && forall i :: 0 <= i < |ws| ==> r[i] == (ws[i].name, ws[i].balance)
  {
    Map(WalletBalance, ws)
  }

  function CardBalances(cs: seq<Card>): (r: seq<(string, int)>)
    ensures |r| == |cs| && forall i :: 0 <= i < |cs| ==> r[i] == (cs[i].name, cs[i].balance)
  {
    Map(CardBalance, cs)
  }

  lemma ParseBalanceLinesCons(lines: seq<string>, b: (string, int), bs: seq<(string, int)>)
    requires |lines| != 0 && ParseBalanceLine(lines[0]) == Some(b)
    requires ParseBalanceLines(lines[1..]) == Some(bs)
    ensures ParseBalanceLines(lines) == Some([b] + bs)
  {
  }

  lemma WalletLinesCons(ws: seq<Wallet>)
    requires |ws| != 0
    ensures WalletLines(ws) == [WalletLine(ws[0])] + WalletLines(ws[1..])
    ensures Balances(ws) == [(ws[0].name, ws[0].balance)] + Balances(ws[1..])
  {
    MapCons(WalletLine, ws);
    MapCons(WalletBalance, ws);
  }

  lemma CardLinesCons(cs: seq<Card>)
    requires |cs| != 0
    ensures CardLines(cs) == [CardLine(cs[0])] + CardLines(cs[1..])
    ensures CardBalances(cs) == [(cs[0].name, cs[0].balance)] + CardBalances(cs[1..])
  {
    MapCons(CardLine, cs);
    MapCons(CardBalance, cs);
  }

  lemma {:induction false} WalletLinesRoundTrip(ws: seq<Wallet>)
    ensures ParseBalanceLines(WalletLines(ws)) == Some(Balances(ws))
  {
    if |ws| != 0 {
      WalletLinesCons(ws);
      WalletLinesRoundTrip(ws[1..]);
      BalanceLineRoundTrip(ws[0].name, ws[0].balance);
      ParseBalanceLinesCons(WalletLines(ws), (ws[0].name, ws[0].balance), Balances(ws[1..]));
    }
  }

  lemma {:induction false} CardLinesRoundTrip(cs: seq<Card>)
    ensures ParseBalanceLines(CardLines(cs)) == Some(CardBalances(cs))
  {
    if |cs| != 0 {
      CardLinesCons(cs);
      CardLinesRoundTrip(cs[1..]);
      BalanceLineRoundTrip(cs[0].name, cs[0].balance);
      ParseBalanceLinesCons(CardLines(cs), (cs[0].name, cs[0].balance), CardBalances(cs[1..]));
    }
  }

  lemma ParseExpenseLinesCons(lines: seq<string>, e: Expense, es: seq<Expense>)
    requires |lines| != 0 && ParseExpenseLine(lines[0]) == Some(e)
    requires ParseExpenseLines(lines[1..]) == Some(es)
    ensures ParseExpenseLines(lines) == Some([e] + es)
  {
  }

  lemma ExpenseLinesCons(es: seq<Expense>)
    requires |es| != 0
    ensures ExpenseLines(es) == [ExpenseLine(es[0])] + ExpenseLines(es[1..])
  {
    MapCons(ExpenseLine, es);
  }

  lemma {:induction false} ExpenseLinesRoundTrip(es: seq<Expense>)
    requires forall i :: 0 <= i < |es| ==> '|' !in es[i].category
    ensures ParseExpenseLines(ExpenseLines(es)) == Some(es)
  {
    if |es| != 0 {
      ExpenseLinesCons(es);
      ExpenseLinesRoundTrip(es[1..]);
      ExpenseLineRoundTrip(es[0]);
      ParseExpenseLinesCons(ExpenseLines(es), es[0], es[1..]);
      assert es == [es[0]] + es[1..];
    }
  }

  /** The first x of p + [x] + q, when p holds none, is the one between them. */
  lemma FirstIndexOfJoin<T>(s: seq<T>, p: seq<T>, x: T, q: seq<T>)
    requires s == p + [x] + q && x !in p
    ensures FirstIndex(s, x) == Some(|p|)
  {
    assert s[|p|] == x;
    forall j | 0 <= j < |p|
      ensures s[j] != x
    {
      assert s[j] == p[j];
    }
  }

  /** Both sides of the single x between p and q. */
  lemma SplitAround<T>(s: seq<T>, p: seq<T>, x: T, q: seq<T>)
    requires s == p + [x] + q
    ensures s[..|p|] == p && s[|p| + 1..] == q
  {
  }

  lemma SplitSectionsAt(body: seq<string>, c: nat, rest: seq<string>, e: nat)
    requires FirstIndex(body, CardsHeader) == Some(c)
    requires rest == body[c + 1..]
    requires FirstIndex(rest, ExpensesHeader) == Some(e)
    ensures SplitSections(body) == Some((body[..c], rest[..e], rest[e + 1..]))
  {
  }

  lemma ParseSectionsOf(body: seq<string>, w: seq<string>, k: seq<string>, x: seq<string>, parsed: ReportContents)
    requires SplitSections(body) == Some((w, k, x))
    requires ParseBalanceLines(w) == Some(parsed.wallets)
    requires ParseBalanceLines(k) == Some(parsed.cards)
    requires ParseExpenseLines(x) == Some(parsed.expenses)
    ensures ParseSections(body) == Some(parsed)
  {
  }

  lemma ParseSavedReportBody(lines: seq<string>)
    requires |lines| != 0 && lines[0] == WalletsHeader
    ensures ParseSavedReport(lines) == ParseSections(lines[1..])
  {
  }

  /** Sections whose lines are not the following header split back apart. */
  lemma SplitSectionsOfJoin(wl: seq<string>, cl: seq<string>, el: seq<string>)
    requires CardsHeader !in wl && ExpensesHeader !in cl
    ensures SplitSections(wl + [CardsHeader] + cl + [ExpensesHeader] + el) == Some((wl, cl, el))
  {
    var rest := cl + [ExpensesHeader] + el;
    var body := wl + [CardsHeader] + rest;
    assert body == wl + [CardsHeader] + cl + [ExpensesHeader] + el;
    SplitAround(body, wl, CardsHeader, rest);
    FirstIndexOfJoin(body, wl, CardsHeader, rest);
    SplitAround(rest, cl, ExpensesHeader, el);
    FirstIndexOfJoin(rest, cl, ExpensesHeader, el);
    SplitSectionsAt(body, |wl|, rest, |cl|);
  }

  /** The saved report's lines after its first header split into its three sections. */
  lemma SplitSavedReport(ws: seq<Wallet>, cs: seq<Card>, es: seq<Expense>)
    ensures SplitSections(SavedReport(ws, cs, es)[1..]) == Some((WalletLines(ws), CardLines(cs), ExpenseLines(es)))
  {
    var wl, cl, el := WalletLines(ws), CardLines(cs), ExpenseLines(es);
    ThreeSectionsTail(WalletsHeader, wl, CardsHeader, cl, ExpensesHeader, el);
    EntryLinesAreNotHeaders(ws, cs, es);
    SplitSectionsOfJoin(wl, cl, el);
  }

  /** Reading the saved report back recovers every wallet's and card's name and
      balance and every expense, in insertion order, provided no category
      contains '|'. */
  lemma SavedReportRoundTrip(ws: seq<Wallet>, cs: seq<Card>, es: seq<Expense>)
    requires forall i :: 0 <= i < |es| ==> '|' !in es[i].category
    ensures ParseSavedReport(SavedReport(ws, cs, es))
         == Some(ReportContents(Balances(ws), CardBalances(cs), es))
  {
    var r := SavedReport(ws, cs, es);
    SplitSavedReport(ws, cs, es);
    WalletLinesRoundTrip(ws);
    CardLinesRoundTrip(cs);
    ExpenseLinesRoundTrip(es);
    ParseSectionsOf(r[1..], WalletLines(ws), CardLines(cs), ExpenseLines(es),
                    ReportContents(Balances(ws), CardBalances(cs), es));
    ParseSavedReportBody(r);
  }
}
