/** Category totals and the top-3 rating.

    The source's std::map<string, double> is modelled as its in-order entry
    list: a seq<CategoryTotal> whose categories strictly increase under
    std::string's operator< (LexLess). `report[cat] += amount` is Accumulate. */
module Aggregation {
  import opened Common
  import opened Ledger

  /** One entry of a category-total map (std::pair<string, double>). */
  datatype CategoryTotal = CategoryTotal(category: string, total: int)

  // ---------------------------------------------------------------------
  // The key order of std::map<string, ...>

  /** std::string's operator<: the first differing character decides, and a
      proper prefix comes first. */
  predicate LexLess(a: string, b: string)
  {
    if |a| == 0 then |b| != 0
    else if |b| == 0 then false
    else if a[0] != b[0] then a[0] < b[0]
    else LexLess(a[1..], b[1..])
  }

  lemma {:induction false} LexLessIrreflexive(a: string)
    ensures !LexLess(a, a)
  {
    if |a| != 0 {
      LexLessIrreflexive(a[1..]);
    }
  }

  lemma {:induction false} LexLessTransitive(a: string, b: string, c: string)
    requires LexLess(a, b) && LexLess(b, c)
    ensures LexLess(a, c)
  {
    if |a| != 0 && |b| != 0 && |c| != 0 && a[0] == b[0] && b[0] == c[0] {
      LexLessTransitive(a[1..], b[1..], c[1..]);
    }
  }

  /** Any two different strings are ordered one way or the other. */
  lemma {:induction false} LexLessTotal(a: string, b: string)
    ensures a == b || LexLess(a, b) || LexLess(b, a)
  {
    if |a| != 0 && |b| != 0 && a[0] == b[0] {
      LexLessTotal(a[1..], b[1..]);
      if a[1..] == b[1..] {
        assert a == [a[0]] + a[1..] && b == [b[0]] + b[1..];
      }
    }
  }

  // ---------------------------------------------------------------------
  // The ordered map as an entry list

  /** The entries come in strictly increasing key order, as std::map iterates. */
  predicate SortedKeys(m: seq<CategoryTotal>)
  {
    forall i, j :: 0 <= i < j < |m| ==> LexLess(m[i].category, m[j].category)
  }

  function Categories(m: seq<CategoryTotal>): set<string>
  {
    set i | 0 <= i < |m| :: m[i].category
  }

  /** The value `m[c]` would read: the entry for c, or the value-initialised 0. */
  function TotalOf(m: seq<CategoryTotal>, c: string): int
  {
    if |m| == 0 then 0
    else if m[0].category == c then m[0].total
    else TotalOf(m[1..], c)
  }

  function SumTotals(m: seq<CategoryTotal>): int
  {
    if |m| == 0 then 0 else m[0].total + SumTotals(m[1..])
  }

  /** `m[cat] += amount`: a missing key is inserted at its ordered place with
      0 + amount; a present key has its value increased. */
  function Accumulate(m: seq<CategoryTotal>, cat: string, amount: int): seq<CategoryTotal>
  {
    if |m| == 0 then [CategoryTotal(cat, amount)]
    else if m[0].category == cat then [CategoryTotal(cat, m[0].total + amount)] + m[1..]
    else if LexLess(cat, m[0].category) then [CategoryTotal(cat, amount)] + m
    else [m[0]] + Accumulate(m[1..], cat, amount)
  }

  lemma CategoriesCons(x: CategoryTotal, m: seq<CategoryTotal>)
    ensures Categories([x] + m) == {x.category} + Categories(m)
  {
    var r := [x] + m;
    forall c | c in Categories(r)
      ensures c in {x.category} + Categories(m)
    {
      var i :| 0 <= i < |r| && r[i].category == c;
      if i > 0 {
        assert r[i] == m[i - 1];
      }
    }
    assert r[0].category == x.category;
    forall c | c in Categories(m)
      ensures c in Categories(r)
    {
      var i :| 0 <= i < |m| && m[i].category == c;
      assert r[i + 1].category == c;
    }
  }

  /** A key absent from the list reads as 0. */
  lemma {:induction false} TotalOfAbsent(m: seq<CategoryTotal>, c: string)
    requires c !in Categories(m)
    ensures TotalOf(m, c) == 0
  {
    if |m| != 0 {
      CategoriesCons(m[0], m[1..]);
      assert m == [m[0]] + m[1..];
      TotalOfAbsent(m[1..], c);
    }
  }

  /** Accumulate adds `cat` to the keys and no other key. */
  lemma {:induction false} AccumulateCategories(m: seq<CategoryTotal>, cat: string, amount: int)
    ensures Categories(Accumulate(m, cat, amount)) == Categories(m) + {cat}
  {
    if |m| != 0 {
      CategoriesCons(m[0], m[1..]);
      assert m == [m[0]] + m[1..];
      if m[0].category == cat {
        CategoriesCons(CategoryTotal(cat, m[0].total + amount), m[1..]);
      } else if LexLess(cat, m[0].category) {
        CategoriesCons(CategoryTotal(cat, amount), m);
      } else {
        AccumulateCategories(m[1..], cat, amount);
        CategoriesCons(m[0], Accumulate(m[1..], cat, amount));
      }
    } else {
      CategoriesCons(CategoryTotal(cat, amount), m);
    }
  }

  /** On an ordered map, Accumulate adds `amount` to the value of `cat` and
      leaves every other key's value as it was. */
  lemma {:induction false} AccumulateTotalOf(m: seq<CategoryTotal>, cat: string, amount: int, c: string)
    requires SortedKeys(m)
    ensures TotalOf(Accumulate(m, cat, amount), c) == TotalOf(m, c) + (if c == cat then amount else 0)
  {
    var r := Accumulate(m, cat, amount);
    if |m| == 0 {
    } else if m[0].category == cat {
      assert r[1..] == m[1..];
    } else if LexLess(cat, m[0].category) {
      assert r[1..] == m;
      if c == cat {
        if cat in Categories(m) {
          var k :| 0 <= k < |m| && m[k].category == cat;
          if k > 0 {
            LexLessTransitive(cat, m[0].category, m[k].category);
          }
          LexLessIrreflexive(cat);
        }
        TotalOfAbsent(m, cat);
      }
    } else {
      assert r[1..] == Accumulate(m[1..], cat, amount);
      AccumulateTotalOf(m[1..], cat, amount, c);
    }
  }

  /** Conservation for one step: Accumulate raises the sum of the values by `amount`. */
  lemma {:induction false} AccumulateSum(m: seq<CategoryTotal>, cat: string, amount: int)
    ensures SumTotals(Accumulate(m, cat, amount)) == SumTotals(m) + amount
  {
    var r := Accumulate(m, cat, amount);
    if |m| == 0 {
    } else if m[0].category == cat {
      assert r[1..] == m[1..];
    } else if LexLess(cat, m[0].category) {
      assert r[1..] == m;
    } else {
      assert r[1..] == Accumulate(m[1..], cat, amount);
      AccumulateSum(m[1..], cat, amount);
    }
  }

  lemma SortedKeysTail(m: seq<CategoryTotal>)
    requires SortedKeys(m) && |m| != 0
    ensures SortedKeys(m[1..])
  {
    forall i, j | 0 <= i < j < |m| - 1
      ensures LexLess(m[1..][i].category, m[1..][j].category)
    {
      assert m[1..][i] == m[i + 1] && m[1..][j] == m[j + 1];
    }
  }

  /** In an ordered list the first key is below every later one. */
  lemma HeadBelowRest(m: seq<CategoryTotal>)
    requires SortedKeys(m) && |m| != 0
    ensures forall c :: c in Categories(m[1..]) ==> LexLess(m[0].category, c)
  {
    forall c | c in Categories(m[1..])
      ensures LexLess(m[0].category, c)
    {
      var k :| 0 <= k < |m| - 1 && m[1..][k].category == c;
      assert m[k + 1].category == c;
    }
  }

  /** An entry whose key is below all keys of an ordered list may go in front of it. */
  lemma PrependKeepsOrder(x: CategoryTotal, rest: seq<CategoryTotal>)
    requires SortedKeys(rest)
    requires forall c :: c in Categories(rest) ==> LexLess(x.category, c)
    ensures SortedKeys([x] + rest)
  {
    var r := [x] + rest;
    forall i, j | 0 <= i < j < |r|
      ensures LexLess(r[i].category, r[j].category)
    {
      assert r[j] == rest[j - 1];
      if i == 0 {
        assert rest[j - 1].category in Categories(rest);
      } else {
        assert r[i] == rest[i - 1];
      }
    }
  }

  /** Accumulate keeps the entry list in strictly increasing key order. */
  lemma {:induction false} AccumulateKeepsOrder(m: seq<CategoryTotal>, cat: string, amount: int)
    requires SortedKeys(m)
    ensures SortedKeys(Accumulate(m, cat, amount))
  {
    if |m| != 0 {
      SortedKeysTail(m);
      HeadBelowRest(m);
      if m[0].category == cat {
        PrependKeepsOrder(CategoryTotal(cat, m[0].total + amount), m[1..]);
      } else if LexLess(cat, m[0].category) {
        CategoriesCons(m[0], m[1..]);
        assert m == [m[0]] + m[1..];
        forall c | c in Categories(m)
          ensures LexLess(cat, c)
        {
          if c != m[0].category {
            LexLessTransitive(cat, m[0].category, c);
          }
        }
        PrependKeepsOrder(CategoryTotal(cat, amount), m);
      } else {
        var rest := Accumulate(m[1..], cat, amount);
        AccumulateKeepsOrder(m[1..], cat, amount);
        AccumulateCategories(m[1..], cat, amount);
        LexLessTotal(cat, m[0].category);
        PrependKeepsOrder(m[0], rest);
      }
    }
  }

  /** In a list with strictly increasing keys, every entry is the one its key finds. */
  lemma {:induction false} TotalOfEntry(m: seq<CategoryTotal>, i: int)
    requires SortedKeys(m) && 0 <= i < |m|
    ensures TotalOf(m, m[i].category) == m[i].total
  {
    if i > 0 {
      if m[0].category == m[i].category {
        LexLessIrreflexive(m[0].category);
      }
      TotalOfEntry(m[1..], i - 1);
    }
  }

  // ---------------------------------------------------------------------
  // The category totals of an expense list

  /** The map after the loop `report[expense.category] += expense.amount`
      has run over `es` in order. */
  function Totals(es: seq<Expense>): seq<CategoryTotal>
  {
    if |es| == 0 then []
    else
      var last := es[|es| - 1];
      Accumulate(Totals(es[..|es| - 1]), last.category, last.amount)
  }

  /** The categories that occur among the expenses. */
  function ExpenseCategories(es: seq<Expense>): set<string>
  {
    set i | 0 <= i < |es| :: es[i].category
  }

  /** Reference definition: the sum of the amounts of the expenses of category c. */
  function CategorySum(es: seq<Expense>, c: string): int
  {
    if |es| == 0 then 0
    else (if es[0].category == c then es[0].amount else 0) + CategorySum(es[1..], c)
  }

  /** Reference definition: the sum of all expense amounts. */
  function SumAmounts(es: seq<Expense>): int
  {
    if |es| == 0 then 0 else es[0].amount + SumAmounts(es[1..])
  }

  lemma {:induction false} CategorySumSnoc(es: seq<Expense>, e: Expense, c: string)
    ensures CategorySum(es + [e], c) == CategorySum(es, c) + (if e.category == c then e.amount else 0)
  {
    if |es| != 0 {
      assert (es + [e])[1..] == es[1..] + [e];
      CategorySumSnoc(es[1..], e, c);
    }
  }

  lemma {:induction false} SumAmountsSnoc(es: seq<Expense>, e: Expense)
    ensures SumAmounts(es + [e]) == SumAmounts(es) + e.amount
  {
    if |es| != 0 {
      assert (es + [e])[1..] == es[1..] + [e];
      SumAmountsSnoc(es[1..], e);
    }
  }

  /** The totals' entries come in strictly increasing category order. */
  lemma {:induction false} TotalsSorted(es: seq<Expense>)
    ensures SortedKeys(Totals(es))
  {
    if |es| != 0 {
      var last := es[|es| - 1];
      TotalsSorted(es[..|es| - 1]);
      AccumulateKeepsOrder(Totals(es[..|es| - 1]), last.category, last.amount);
    }
  }

  /** A category has an entry exactly when some expense has that category. */
  lemma {:induction false} TotalsCategories(es: seq<Expense>)
    ensures Categories(Totals(es)) == ExpenseCategories(es)
  {
    if |es| != 0 {
      var init := es[..|es| - 1];
      TotalsCategories(init);
      AccumulateCategories(Totals(init), es[|es| - 1].category, es[|es| - 1].amount);
      assert es == init + [es[|es| - 1]];
      assert ExpenseCategories(es) == ExpenseCategories(init) + {es[|es| - 1].category} by {
        forall c | c in ExpenseCategories(es)
          ensures c in ExpenseCategories(init) + {es[|es| - 1].category}
        {
          var i :| 0 <= i < |es| && es[i].category == c;
          if i < |es| - 1 {
            assert init[i].category == c;
          }
        }
        forall c | c in ExpenseCategories(init)
          ensures c in ExpenseCategories(es)
        {
          var i :| 0 <= i < |init| && init[i].category == c;
          assert es[i].category == c;
        }
      }
    }
  }

  /** Every key's value is the sum of the amounts of the expenses of that category. */
  lemma {:induction false} TotalsValues(es: seq<Expense>, c: string)
    ensures TotalOf(Totals(es), c) == CategorySum(es, c)
  {
    if |es| != 0 {
      var init := es[..|es| - 1];
      var last := es[|es| - 1];
      TotalsValues(init, c);
      TotalsSorted(init);
      AccumulateTotalOf(Totals(init), last.category, last.amount, c);
      assert es == init + [last];
      CategorySumSnoc(init, last, c);
    }
  }

  /** Conservation: the totals add up to the sum of all expense amounts. */
  lemma {:induction false} TotalsConserveAmounts(es: seq<Expense>)
    ensures SumTotals(Totals(es)) == SumAmounts(es)
  {
    if |es| != 0 {
      var init := es[..|es| - 1];
      var last := es[|es| - 1];
      TotalsConserveAmounts(init);
      AccumulateSum(Totals(init), last.category, last.amount);
      assert es == init + [last];
      SumAmountsSnoc(init, last);
    }
  }

  /** The entries of the totals, one per category, each holding its category's sum. */
  lemma TotalsEntries(es: seq<Expense>)
    ensures forall i :: 0 <= i < |Totals(es)| ==>
      Totals(es)[i].total == CategorySum(es, Totals(es)[i].category)
  {
    var t := Totals(es);
    TotalsSorted(es);
    forall i | 0 <= i < |t|
      ensures t[i].total == CategorySum(es, t[i].category)
    {
      TotalOfEntry(t, i);
      TotalsValues(es, t[i].category);
    }
  }

  /** Strictly ordered keys are distinct: the list has one entry per key. */
  lemma {:induction false} SortedKeysDistinct(m: seq<CategoryTotal>)
    requires SortedKeys(m)
    ensures |Categories(m)| == |m|
  {
    if |m| != 0 {
      SortedKeysTail(m);
      SortedKeysDistinct(m[1..]);
      HeadBelowRest(m);
      LexLessIrreflexive(m[0].category);
      CategoriesCons(m[0], m[1..]);
      assert m == [m[0]] + m[1..];
      assert m[0].category !in Categories(m[1..]);
    }
  }

  /** The map has one entry per distinct expense category. */
  lemma TotalsSize(es: seq<Expense>)
    ensures |Totals(es)| == |ExpenseCategories(es)|
  {
    TotalsSorted(es);
    TotalsCategories(es);
    SortedKeysDistinct(Totals(es));
  }

  /** Scenario: Food 20, Food 30, Transport 10 give Food 50 then Transport 10. */
  lemma FoodAndTransport()
    ensures Totals([Expense("2024-01-01", "Food", 20), Expense("2024-01-02", "Food", 30),
                    Expense("2024-01-03", "Transport", 10)])
         == [CategoryTotal("Food", 50), CategoryTotal("Transport", 10)]
  {
    var es := [Expense("2024-01-01", "Food", 20), Expense("2024-01-02", "Food", 30),
               Expense("2024-01-03", "Transport", 10)];
    assert es[..2][..1] == es[..1] && es[..1][..0] == [];
    assert Totals(es[..1]) == [CategoryTotal("Food", 20)];
    assert Totals(es[..2]) == [CategoryTotal("Food", 50)];
    assert !LexLess("Transport", "Food");
    assert Totals(es) == Accumulate([CategoryTotal("Food", 50)], "Transport", 10);
  }

  // ---------------------------------------------------------------------
  // The rating

  /** How many categories the rating shows. */
  const RatingSize: int := 3

  /** comparePairs: `a` goes before `b` when its total is larger. */
  predicate ComparePairs(a: CategoryTotal, b: CategoryTotal)
  {
    a.total > b.total
  }

  /** comparePairs is a strict weak order, as std::sort requires: irreflexive,
      transitive, and two entries are unordered exactly when their totals tie. */
  lemma ComparePairsIsStrictWeakOrder()
    ensures forall a :: !ComparePairs(a, a)
    ensures forall a, b, c :: ComparePairs(a, b) && ComparePairs(b, c) ==> ComparePairs(a, c)
    ensures forall a, b :: !ComparePairs(a, b) && !ComparePairs(b, a) <==> a.total == b.total
  {
  }

  /** No entry goes before an earlier one: what std::sort with comparePairs leaves. */
  predicate SortedByTotal(s: seq<CategoryTotal>)
  {
    forall i, j :: 0 <= i < j < |s| ==> !ComparePairs(s[j], s[i])
  }

  method Swap(a: array<CategoryTotal>, i: int, j: int)
    requires 0 <= i < j < a.Length
    modifies a
    ensures a[..] == old(a[..])[i := old(a[j])][j := old(a[i])]
    ensures multiset(a[..]) == multiset(old(a[..]))
  {
    a[i], a[j] := a[j], a[i];
  }

  /** std::sort(begin, end, comparePairs) on the totals vector, in place
      (an insertion sort; std::sort leaves the order of ties unspecified, and
      nothing below depends on it). */
  method SortByTotal(a: array<CategoryTotal>)
    modifies a
    ensures SortedByTotal(a[..])
    ensures multiset(a[..]) == multiset(old(a[..]))
  {
    var i := 0;
    while i < a.Length
      invariant 0 <= i <= a.Length
      invariant SortedByTotal(a[..i])
      invariant multiset(a[..]) == multiset(old(a[..]))
    {
      var j := i;
      while j > 0 && ComparePairs(a[j], a[j - 1])
        invariant 0 <= j <= i
        invariant forall p, q :: 0 <= p < q <= i && q != j ==> a[p].total >= a[q].total
        invariant 0 < j < i ==> a[j - 1].total >= a[j + 1].total
        invariant multiset(a[..]) == multiset(old(a[..]))
      {
        Swap(a, j - 1, j);
        j := j - 1;
      }
      i := i + 1;
    }
  }

  lemma SortedPrefix(s: seq<CategoryTotal>, k: int)
    requires SortedByTotal(s) && 0 <= k <= |s|
    ensures SortedByTotal(s[..k])
  {
    forall i, j | 0 <= i < j < k
      ensures !ComparePairs(s[..k][j], s[..k][i])
    {
      assert s[..k][i] == s[i] && s[..k][j] == s[j];
    }
  }

  /** What a sorted list leaves after its first k entries is no larger than any of them. */
  lemma PrefixDominates(s: seq<CategoryTotal>, k: int)
    requires SortedByTotal(s) && 0 <= k <= |s|
    ensures forall x, y :: x in s[..k] && y in s[k..] ==> y.total <= x.total
  {
    forall x, y | x in s[..k] && y in s[k..]
      ensures y.total <= x.total
    {
      var i :| 0 <= i < k && s[..k][i] == x;
      var j :| 0 <= j < |s| - k && s[k..][j] == y;
      assert s[i] == x && s[k + j] == y;
    }
  }

  lemma MultisetSplit(t: seq<CategoryTotal>, s: seq<CategoryTotal>, k: int)
    requires multiset(s) == multiset(t) && 0 <= k <= |s|
    ensures multiset(s[..k]) <= multiset(t)
    ensures multiset(t) - multiset(s[..k]) == multiset(s[k..])
  {
    assert s == s[..k] + s[k..];
  }

  /** The first k entries of a sorted permutation of t are sorted, come from t,
      and every entry of t left out is no larger than any entry kept. */
  lemma TopOfSorted(t: seq<CategoryTotal>, s: seq<CategoryTotal>, k: int)
    requires multiset(s) == multiset(t) && SortedByTotal(s) && 0 <= k <= |s|
    ensures SortedByTotal(s[..k])
    ensures multiset(s[..k]) <= multiset(t)
    ensures forall x, y :: x in s[..k] && y in multiset(t) - multiset(s[..k]) ==> y.total <= x.total
  {
    SortedPrefix(s, k);
    MultisetSplit(t, s, k);
    PrefixDominates(s, k);
  }

}
