/** The ledger's records and the meaning of the two balance adjusters.
    Amounts are whole cents (int) rather than the source's double. */
module Ledger {
  import opened Common

  /** A named store of money (class Wallet). */
  datatype Wallet = Wallet(name: string, balance: int)

  /** A named card (class Card); isCredit is carried but nothing reads it. */
  datatype Card = Card(name: string, balance: int, isCredit: bool)

  /** A dated, categorised outflow (class Expense); note the field order
      date, category, amount, which differs from addExpense's parameter order. */
  datatype Expense = Expense(date: string, category: string, amount: int)

  /** What a balance adjuster reports instead of its console line: the new
      balance of the entry it changed, or that no entry has the name. */
  datatype Adjustment = Found(newBalance: int) | NotFound

  function WalletName(w: Wallet): string
  {
    w.name
  }

  function CardName(c: Card): string
  {
    c.name
  }

  /** The wallets and the status after addWalletBalance(name, amount):
      the first wallet named `name` gains `amount`, or nothing changes. */
  function AdjustWallets(ws: seq<Wallet>, name: string, amount: int): (r: (seq<Wallet>, Adjustment))
    ensures |r.0| == |ws|
    ensures r.1.NotFound? <==> forall j :: 0 <= j < |ws| ==> ws[j].name != name
    ensures r.1.NotFound? ==> r.0 == ws
    ensures r.1.Found? ==>
      exists i :: FirstAt(Map(WalletName, ws), name, i)
        && r.1.newBalance == ws[i].balance + amount
        && r.0 == ws[i := Wallet(name, ws[i].balance + amount)]
  {
    match FirstIndex(Map(WalletName, ws), name)
    case None => (ws, NotFound)
    case Some(i) =>
      var b := ws[i].balance + amount;
      (ws[i := ws[i].(balance := b)], Found(b))
  }

  /** The cards and the status after addCardBalance(name, amount). */
  function AdjustCards(cs: seq<Card>, name: string, amount: int): (r: (seq<Card>, Adjustment))
    ensures |r.0| == |cs|
    ensures r.1.NotFound? <==> forall j :: 0 <= j < |cs| ==> cs[j].name != name
    ensures r.1.NotFound? ==> r.0 == cs
    ensures r.1.Found? ==>
      exists i :: FirstAt(Map(CardName, cs), name, i)
        && r.1.newBalance == cs[i].balance + amount
        && r.0 == cs[i := Card(name, cs[i].balance + amount, cs[i].isCredit)]
  {
    match FirstIndex(Map(CardName, cs), name)
    case None => (cs, NotFound)
    case Some(i) =>
      var b := cs[i].balance + amount;
      (cs[i := cs[i].(balance := b)], Found(b))
  }

  /** A later wallet that shares its name with an earlier one is never reached:
      every adjustment by that name lands on the earlier one. */
  lemma ShadowedWalletUnchanged(ws: seq<Wallet>, name: string, amount: int, i: int, k: int)
    requires 0 <= i < k < |ws|
    requires ws[i].name == name && ws[k].name == name
    ensures AdjustWallets(ws, name, amount).0[k] == ws[k]
  {
    var r := AdjustWallets(ws, name, amount);
    var f :| FirstAt(Map(WalletName, ws), name, f) && r.0 == ws[f := Wallet(name, ws[f].balance + amount)];
    assert f <= i;
  }

  /** Scenario: wallet "Cash" at 100 replenished by 50 reports and holds 150. */
  lemma ReplenishCash()
    ensures AdjustWallets([Wallet("Cash", 100)], "Cash", 50) == ([Wallet("Cash", 150)], Found(150))
  {
    var ws := [Wallet("Cash", 100)];
    var r := AdjustWallets(ws, "Cash", 50);
    assert ws[0].name == "Cash";
    var i :| FirstAt(Map(WalletName, ws), "Cash", i) && r.1.newBalance == ws[i].balance + 50
      && r.0 == ws[i := Wallet("Cash", ws[i].balance + 50)];
    assert i == 0;
    assert r.0 == [Wallet("Cash", 150)];
    assert r.1 == Found(150);
  }

  /** Scenario: replenishing a card that was never added reports NotFound and changes nothing. */
  lemma ReplenishUnknownCard(cs: seq<Card>, amount: int)
    requires forall j :: 0 <= j < |cs| ==> cs[j].name != "Visa"
    ensures AdjustCards(cs, "Visa", amount) == (cs, NotFound)
  {
  }
}
