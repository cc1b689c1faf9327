/** The spending summary: expenses grouped by category in the order each
    category is first met, then sorted by amount, highest first. The sort is
    stable, so categories with equal totals keep their first-seen order. */
module CategorySummary {
  import opened LedgerModel
  import opened Totals

  datatype CategoryTotal = CategoryTotal(category: string, amount: real)

  /** Categories that occur among the expenses. */
  function Categories(es: seq<Expense>): set<string> {
    set i | 0 <= i < |es| :: es[i].category
  }

  /** What was spent in category `c`. */
  function SpentIn(es: seq<Expense>, c: string): real {
    if |es| == 0 then 0.0
    else SpentIn(es[..|es| - 1], c) + (if es[|es| - 1].category == c then es[|es| - 1].amount else 0.0)
  }

  function CategoriesOf(s: seq<CategoryTotal>): set<string> {
    set i | 0 <= i < |s| :: s[i].category
  }

  predicate DistinctCategories(s: seq<CategoryTotal>) {
    forall i, j :: 0 <= i < j < |s| ==> s[i].category != s[j].category
  }

  function AmountSum(s: seq<CategoryTotal>): real {
    if |s| == 0 then 0.0 else s[0].amount + AmountSum(s[1..])
  }

  predicate SortedByAmount(s: seq<CategoryTotal>) {
    forall i, j :: 0 <= i < j < |s| ==> s[i].amount >= s[j].amount
  }

  // ---------------------------------------------------------------------
  // Grouping
  // ---------------------------------------------------------------------

  /** Position of category `c` in the running totals, or |s| when absent. */
  function FindCategory(s: seq<CategoryTotal>, c: string): (k: nat)
    ensures k <= |s|
    ensures k < |s| ==> s[k].category == c
    ensures forall j :: 0 <= j < k ==> s[j].category != c
  {
    if |s| == 0 then 0
    else if s[0].category == c then 0
    else 1 + FindCategory(s[1..], c)
  }

  /** One step of the grouping reduction: add the expense to its category's
      running total, opening a new entry at the end for a category not yet seen. */
  function Accumulate(acc: seq<CategoryTotal>, e: Expense): seq<CategoryTotal> {
    var k := FindCategory(acc, e.category);
    if k < |acc| then acc[k := acc[k].(amount := acc[k].amount + e.amount)]
    else acc + [CategoryTotal(e.category, e.amount)]
  }

  lemma AccumulateCategories(acc: seq<CategoryTotal>, e: Expense)
    requires DistinctCategories(acc)
    ensures CategoriesOf(Accumulate(acc, e)) == CategoriesOf(acc) + {e.category}
    ensures DistinctCategories(Accumulate(acc, e))
  {
    var r := Accumulate(acc, e);
    var k := FindCategory(acc, e.category);
    if k < |acc| {
      forall c | c in CategoriesOf(r)
        ensures c in CategoriesOf(acc)
      {
        var i :| 0 <= i < |r| && r[i].category == c;
        assert acc[i].category == c;
      }
      forall c | c in CategoriesOf(acc)
        ensures c in CategoriesOf(r)
      {
        var i :| 0 <= i < |acc| && acc[i].category == c;
        assert r[i].category == c;
      }
    } else {
      forall c | c in CategoriesOf(r)
        ensures c in CategoriesOf(acc) + {e.category}
      {
        var i :| 0 <= i < |r| && r[i].category == c;
        if i < |acc| {
          assert acc[i].category == c;
        }
      }
      forall c | c in CategoriesOf(acc)
        ensures c in CategoriesOf(r)
      {
        var i :| 0 <= i < |acc| && acc[i].category == c;
        assert r[i].category == c;
      }
      assert r[|acc|].category == e.category;
    }
  }

  /** The per-category totals in first-seen order. */
  function Group(es: seq<Expense>): seq<CategoryTotal> {
    if |es| == 0 then [] else Accumulate(Group(es[..|es| - 1]), es[|es| - 1])
  }

  lemma CategoriesAppend(es: seq<Expense>, e: Expense)
    ensures Categories(es + [e]) == Categories(es) + {e.category}
  {
    var t := es + [e];
    forall c | c in Categories(t)
      ensures c in Categories(es) + {e.category}
    {
      var i :| 0 <= i < |t| && t[i].category == c;
      if i < |es| {
        assert es[i].category == c;
      }
    }
    forall c | c in Categories(es)
      ensures c in Categories(t)
    {
      var i :| 0 <= i < |es| && es[i].category == c;
      assert t[i].category == c;
    }
    assert t[|es|].category == e.category;
  }

  lemma {:induction false} SpentInAbsent(es: seq<Expense>, c: string)
    requires c !in Categories(es)
    ensures SpentIn(es, c) == 0.0
    decreases |es|
  {
    if |es| > 0 {
      var es' := es[..|es| - 1];
      assert es == es' + [es[|es| - 1]];
      CategoriesAppend(es', es[|es| - 1]);
      SpentInAbsent(es', c);
    }
  }

  lemma {:induction false} AmountSumAppend(s: seq<CategoryTotal>, x: CategoryTotal)
    ensures AmountSum(s + [x]) == AmountSum(s) + x.amount
    decreases |s|
  {
    if |s| == 0 {
      assert s + [x] == [x];
    } else {
      assert (s + [x])[1..] == s[1..] + [x];
      AmountSumAppend(s[1..], x);
    }
  }

  lemma {:induction false} AmountSumUpdate(s: seq<CategoryTotal>, k: nat, x: CategoryTotal)
    requires k < |s|
    ensures AmountSum(s[k := x]) == AmountSum(s) - s[k].amount + x.amount
    decreases k
  {
    if k > 0 {
      assert s[k := x][1..] == s[1..][k - 1 := x];
      AmountSumUpdate(s[1..], k - 1, x);
    }
  }

  /** Grouping lists each category that occurs, and lists it once. */
  lemma {:induction false} GroupCategories(es: seq<Expense>)
    ensures DistinctCategories(Group(es))
    ensures CategoriesOf(Group(es)) == Categories(es)
    decreases |es|
  {
    if |es| > 0 {
      var es' := es[..|es| - 1];
      var e := es[|es| - 1];
      assert es == es' + [e];
      GroupCategories(es');
      CategoriesAppend(es', e);
      AccumulateCategories(Group(es'), e);
    }
  }

  /** Each grouped entry holds what was spent in its category. */
  lemma {:induction false} GroupAmounts(es: seq<Expense>)
    ensures forall i :: 0 <= i < |Group(es)| ==> Group(es)[i].amount == SpentIn(es, Group(es)[i].category)
    decreases |es|
  {
    if |es| > 0 {
      var es' := es[..|es| - 1];
      var e := es[|es| - 1];
      assert es == es' + [e];
      GroupAmounts(es');
      GroupCategories(es');
      var g' := Group(es');
      var g := Group(es);
      var k := FindCategory(g', e.category);
      if k < |g'| {
        forall i | 0 <= i < |g|
          ensures g[i].amount == SpentIn(es, g[i].category)
        {
          if i != k {
            assert g[i] == g'[i];
          }
        }
      } else {
        assert e.category !in Categories(es');
        SpentInAbsent(es', e.category);
        forall i | 0 <= i < |g|
          ensures g[i].amount == SpentIn(es, g[i].category)
        {
          if i < |g'| {
            assert g[i] == g'[i];
          }
        }
      }
    }
  }

  /** The grouped amounts add up to the total spending. */
  lemma {:induction false} GroupSum(es: seq<Expense>)
    ensures AmountSum(Group(es)) == ExpenseTotal(es)
    decreases |es|
  {
    if |es| > 0 {
      var es' := es[..|es| - 1];
      var e := es[|es| - 1];
      assert es == es' + [e];
      GroupSum(es');
      ExpenseTotalAppend(es', e);
      var g' := Group(es');
      var k := FindCategory(g', e.category);
      if k < |g'| {
        AmountSumUpdate(g', k, g'[k].(amount := g'[k].amount + e.amount));
      } else {
        AmountSumAppend(g', CategoryTotal(e.category, e.amount));
      }
    }
  }

  /** Index of the first expense filed under a category that occurs. */
  function FirstSeen(es: seq<Expense>, c: string): (k: nat)
    requires c in Categories(es)
    ensures k < |es| && es[k].category == c
    ensures forall j :: 0 <= j < k ==> es[j].category != c
  {
    if es[0].category == c then 0
    else
      assert c in Categories(es[1..]) by {
        var i :| 0 <= i < |es| && es[i].category == c;
        assert es[1..][i - 1].category == c;
      }
      1 + FirstSeen(es[1..], c)
  }

  lemma FirstSeenAppend(es: seq<Expense>, e: Expense, c: string)
    requires c in Categories(es + [e])
    ensures c in Categories(es) ==> FirstSeen(es + [e], c) == FirstSeen(es, c)
    ensures c !in Categories(es) ==> FirstSeen(es + [e], c) == |es|
  {
    var t := es + [e];
    var b := FirstSeen(t, c);
    if c in Categories(es) {
      var a := FirstSeen(es, c);
      assert t[a] == es[a];
      assert b <= a;
      assert es[b] == t[b];
    }
  }

  /** Every entry of `g` names a category that occurs, and the entries come in
      the order in which their categories first occur. */
  predicate InFirstSeenOrder(es: seq<Expense>, g: seq<CategoryTotal>) {
    && (forall i :: 0 <= i < |g| ==> g[i].category in Categories(es))
    && (forall i, j :: 0 <= i < j < |g| && g[i].category in Categories(es) && g[j].category in Categories(es) ==>
          FirstSeen(es, g[i].category) < FirstSeen(es, g[j].category))
  }

  /** Accumulating keeps the existing entries' categories in place and only
      ever appends. */
  lemma AccumulateShape(acc: seq<CategoryTotal>, e: Expense)
    ensures var r := Accumulate(acc, e);
      && |r| >= |acc|
      && (forall i :: 0 <= i < |acc| ==> r[i].category == acc[i].category)
      && (e.category !in CategoriesOf(acc) ==> r == acc + [CategoryTotal(e.category, e.amount)])
  {
    var k := FindCategory(acc, e.category);
    if k < |acc| {
      assert e.category in CategoriesOf(acc);
    }
  }

  /** One grouping step keeps the entries in first-seen order. */
  lemma FirstSeenOrderStep(es: seq<Expense>, e: Expense, g: seq<CategoryTotal>)
    requires InFirstSeenOrder(es, g)
    requires CategoriesOf(g) == Categories(es)
    ensures InFirstSeenOrder(es + [e], Accumulate(g, e))
  {
    var t := es + [e];
    var r := Accumulate(g, e);
    CategoriesAppend(es, e);
    AccumulateShape(g, e);
    forall i | 0 <= i < |g|
      ensures r[i].category in Categories(t)
      ensures FirstSeen(t, r[i].category) == FirstSeen(es, g[i].category)
    {
      FirstSeenAppend(es, e, g[i].category);
    }
    if |r| > |g| {
      assert r[|g|].category == e.category;
      FirstSeenAppend(es, e, e.category);
    }
    forall i, j | 0 <= i < j < |r|
      ensures FirstSeen(t, r[i].category) < FirstSeen(t, r[j].category)
    {
      if j < |g| {
        assert FirstSeen(es, g[i].category) < FirstSeen(es, g[j].category);
      } else {
        assert FirstSeen(es, g[i].category) < |es|;
      }
    }
  }

  /** The grouped entries follow the order in which categories first occur. */
  lemma {:induction false} GroupFirstSeenOrder(es: seq<Expense>)
    ensures InFirstSeenOrder(es, Group(es))
    decreases |es|
  {
    if |es| > 0 {
      var es' := es[..|es| - 1];
      var e := es[|es| - 1];
      assert es == es' + [e];
      GroupFirstSeenOrder(es');
      GroupCategories(es');
      FirstSeenOrderStep(es', e, Group(es'));
    }
  }

  // ---------------------------------------------------------------------
  // Sorting by amount, highest first
  // ---------------------------------------------------------------------

  /** Place `x` after every entry whose amount is at least its own. */
  function Insert(s: seq<CategoryTotal>, x: CategoryTotal): (r: seq<CategoryTotal>)
    ensures |r| == |s| + 1
  {
    if |s| == 0 then [x]
    else if s[0].amount >= x.amount then [s[0]] + Insert(s[1..], x)
    else [x] + s
  }

  /** Insertion sort by amount, highest first; later entries go after earlier
      entries of equal amount. */
  function SortByAmount(s: seq<CategoryTotal>): (r: seq<CategoryTotal>)
    ensures |r| == |s|
  {
    if |s| == 0 then []
    else Insert(SortByAmount(s[..|s| - 1]), s[|s| - 1])
  }

  lemma {:induction false} InsertPermutes(s: seq<CategoryTotal>, x: CategoryTotal)
    ensures multiset(Insert(s, x)) == multiset(s) + multiset{x}
    decreases |s|
  {
    if |s| > 0 && s[0].amount >= x.amount {
      InsertPermutes(s[1..], x);
      assert s == [s[0]] + s[1..];
    }
  }

  /** The last entry split off the rest, as a multiset. */
  lemma MultisetSnoc(s: seq<CategoryTotal>)
    requires |s| > 0
    ensures multiset(s) == multiset(s[..|s| - 1]) + multiset{s[|s| - 1]}
  {
    assert s == s[..|s| - 1] + [s[|s| - 1]];
  }

  /** Sorting rearranges the entries and does nothing else. */
  lemma {:induction false} SortPermutes(s: seq<CategoryTotal>)
    ensures multiset(SortByAmount(s)) == multiset(s)
    decreases |s|
  {
    if |s| > 0 {
      var s', x := s[..|s| - 1], s[|s| - 1];
      SortPermutes(s');
      InsertPermutes(SortByAmount(s'), x);
      MultisetSnoc(s);
    }
  }

  lemma InsertSorted(s: seq<CategoryTotal>, x: CategoryTotal)
    requires SortedByAmount(s)
    ensures SortedByAmount(Insert(s, x))
  {
    var k := InsertSplit(s, x);
    var r := Insert(s, x);
    forall i, j | 0 <= i < j < |r|
      ensures r[i].amount >= r[j].amount
    {
      if j < k {
        assert r[i] == s[i] && r[j] == s[j];
      } else if j == k {
        assert r[i] == s[i];
      } else if i < k {
        assert r[i] == s[i] && r[j] == s[j - 1];
      } else if i == k {
        assert r[j] == s[j - 1];
        assert s[k].amount >= s[j - 1].amount || k == j - 1;
      } else {
        assert r[i] == s[i - 1] && r[j] == s[j - 1];
      }
    }
  }

  lemma {:induction false} SortSorted(s: seq<CategoryTotal>)
    ensures SortedByAmount(SortByAmount(s))
    decreases |s|
  {
    if |s| > 0 {
      SortSorted(s[..|s| - 1]);
      InsertSorted(SortByAmount(s[..|s| - 1]), s[|s| - 1]);
    }
  }

  lemma {:induction false} InsertAmountSum(s: seq<CategoryTotal>, x: CategoryTotal)
    ensures AmountSum(Insert(s, x)) == AmountSum(s) + x.amount
    decreases |s|
  {
    if |s| > 0 && s[0].amount >= x.amount {
      InsertAmountSum(s[1..], x);
      assert ([s[0]] + Insert(s[1..], x))[1..] == Insert(s[1..], x);
    } else if |s| > 0 {
      assert ([x] + s)[1..] == s;
    }
  }

  lemma {:induction false} SortAmountSum(s: seq<CategoryTotal>)
    ensures AmountSum(SortByAmount(s)) == AmountSum(s)
    decreases |s|
  {
    if |s| > 0 {
      var s' := s[..|s| - 1];
      var x := s[|s| - 1];
      calc {
        AmountSum(SortByAmount(s));
        AmountSum(Insert(SortByAmount(s'), x));
        { InsertAmountSum(SortByAmount(s'), x); }
        AmountSum(SortByAmount(s')) + x.amount;
        { SortAmountSum(s'); }
        AmountSum(s') + x.amount;
        { AmountSumAppend(s', x); }
        AmountSum(s' + [x]);
        { assert s' + [x] == s; }
        AmountSum(s);
      }
    }
  }

  /** Entries of a given amount, in order. */
  function WithAmount(s: seq<CategoryTotal>, v: real): seq<CategoryTotal> {
    if |s| == 0 then []
    else (if s[0].amount == v then [s[0]] else []) + WithAmount(s[1..], v)
  }

  lemma {:induction false} WithAmountConcat(a: seq<CategoryTotal>, b: seq<CategoryTotal>, v: real)
    ensures WithAmount(a + b, v) == WithAmount(a, v) + WithAmount(b, v)
    decreases |a|
  {
    if |a| == 0 {
      assert a + b == b;
    } else {
      var head := if a[0].amount == v then [a[0]] else [];
      var A := WithAmount(a[1..], v);
      var B := WithAmount(b, v);
      calc {
        WithAmount(a + b, v);
        { assert a + b == [a[0]] + (a[1..] + b); WithAmountCons(a[0], a[1..] + b, v); }
        head + WithAmount(a[1..] + b, v);
        { WithAmountConcat(a[1..], b, v); }
        head + (A + B);
        { assert head + (A + B) == (head + A) + B; }
        (head + A) + B;
        WithAmount(a, v) + B;
      }
    }
  }

  lemma {:induction false} WithAmountBelow(s: seq<CategoryTotal>, v: real)
    requires forall i :: 0 <= i < |s| ==> s[i].amount < v
    ensures WithAmount(s, v) == []
    decreases |s|
  {
    if |s| > 0 {
      WithAmountBelow(s[1..], v);
    }
  }

  lemma WithAmountCons(y: CategoryTotal, t: seq<CategoryTotal>, v: real)
    ensures WithAmount([y] + t, v) == (if y.amount == v then [y] else []) + WithAmount(t, v)
  {
    assert ([y] + t)[1..] == t;
  }

  /** Inserting into a sorted list puts `x` after the entries of equal amount. */
  lemma {:induction false} InsertStable(s: seq<CategoryTotal>, x: CategoryTotal, v: real)
    requires SortedByAmount(s)
    ensures WithAmount(Insert(s, x), v) == WithAmount(s, v) + WithAmount([x], v)
    decreases |s|
  {
    if |s| == 0 {
      assert Insert(s, x) == [x];
      assert s + [x] == [x];
    } else if s[0].amount >= x.amount {
      assert SortedByAmount(s[1..]);
      InsertStable(s[1..], x, v);
      InsertStablePast(s, x, v);
    } else {
      InsertStableFront(s, x, v);
    }
  }

  /** `x` goes after a first entry at least as large. */
  lemma InsertStablePast(s: seq<CategoryTotal>, x: CategoryTotal, v: real)
    requires |s| > 0 && s[0].amount >= x.amount
    requires WithAmount(Insert(s[1..], x), v) == WithAmount(s[1..], v) + WithAmount([x], v)
    ensures WithAmount(Insert(s, x), v) == WithAmount(s, v) + WithAmount([x], v)
  {
    var t := Insert(s[1..], x);
    var head := if s[0].amount == v then [s[0]] else [];
    var A := WithAmount(s[1..], v);
    var B := WithAmount([x], v);
    calc {
      WithAmount(Insert(s, x), v);
      { assert Insert(s, x) == [s[0]] + t; }
      WithAmount([s[0]] + t, v);
      { WithAmountCons(s[0], t, v); }
      head + WithAmount(t, v);
      head + (A + B);
      { assert head + (A + B) == (head + A) + B; }
      (head + A) + B;
      WithAmount(s, v) + B;
    }
  }

  /** `x` goes in front of a sorted list whose largest entry is smaller. */
  lemma InsertStableFront(s: seq<CategoryTotal>, x: CategoryTotal, v: real)
    requires |s| > 0 && s[0].amount < x.amount
    requires SortedByAmount(s)
    ensures WithAmount(Insert(s, x), v) == WithAmount(s, v) + WithAmount([x], v)
  {
    assert Insert(s, x) == [x] + s;
    WithAmountCons(x, s, v);
    WithAmountCons(x, [], v);
    assert [x] + [] == [x];
    if v == x.amount {
      WithAmountBelow(s, v);
    }
  }

  /** Sorting keeps entries of equal amount in their original order. */
  lemma {:induction false} SortStable(s: seq<CategoryTotal>, v: real)
    ensures WithAmount(SortByAmount(s), v) == WithAmount(s, v)
    decreases |s|
  {
    if |s| > 0 {
      var s' := s[..|s| - 1];
      var x := s[|s| - 1];
      assert s == s' + [x];
      SortStable(s', v);
      SortSorted(s');
      InsertStable(SortByAmount(s'), x, v);
      WithAmountConcat(s', [x], v);
    }
  }

  /** `r` is `s` with `x` placed at position `k`. */
  predicate InsertedAt(r: seq<CategoryTotal>, s: seq<CategoryTotal>, k: nat, x: CategoryTotal) {
    && k <= |s|
    && |r| == |s| + 1
    && r[k] == x
    && (forall i :: 0 <= i < k ==> r[i] == s[i])
    && (forall i :: k < i < |r| ==> r[i] == s[i - 1])
  }

  /** Insertion puts `x` at one position, after the entries at least as
      large, and leaves the rest in order. */
  lemma {:induction false} InsertSplit(s: seq<CategoryTotal>, x: CategoryTotal) returns (k: nat)
    ensures InsertedAt(Insert(s, x), s, k, x)
    ensures forall i :: 0 <= i < k ==> s[i].amount >= x.amount
    ensures k < |s| ==> s[k].amount < x.amount
    decreases |s|
  {
    if |s| > 0 && s[0].amount >= x.amount {
      var t := Insert(s[1..], x);
      var k' := InsertSplit(s[1..], x);
      k := k' + 1;
      var r := Insert(s, x);
      assert r == [s[0]] + t;
      forall i | 0 <= i < k
        ensures r[i] == s[i] && s[i].amount >= x.amount
      {
        if i > 0 {
          assert r[i] == t[i - 1] && s[i] == s[1..][i - 1];
        }
      }
      forall i | k < i < |r|
        ensures r[i] == s[i - 1]
      {
        assert r[i] == t[i - 1] && s[i - 1] == s[1..][i - 2];
      }
      assert r[k] == t[k'];
      if k < |s| {
        assert s[k] == s[1..][k'];
      }
    } else {
      k := 0;
      if |s| > 0 {
        assert Insert(s, x) == [x] + s;
      }
    }
  }

  lemma InsertAtCategories(r: seq<CategoryTotal>, t: seq<CategoryTotal>, k: nat, x: CategoryTotal)
    requires InsertedAt(r, t, k, x)
    ensures CategoriesOf(r) == CategoriesOf(t) + {x.category}
    ensures DistinctCategories(t) && x.category !in CategoriesOf(t) ==> DistinctCategories(r)
  {
    forall c | c in CategoriesOf(r)
      ensures c in CategoriesOf(t) + {x.category}
    {
      var i :| 0 <= i < |r| && r[i].category == c;
      if i < k {
        assert t[i].category == c;
      } else if i > k {
        assert t[i - 1].category == c;
      }
    }
    forall c | c in CategoriesOf(t)
      ensures c in CategoriesOf(r)
    {
      var i :| 0 <= i < |t| && t[i].category == c;
      if i < k {
        assert r[i].category == c;
      } else {
        assert r[i + 1].category == c;
      }
    }
    if DistinctCategories(t) && x.category !in CategoriesOf(t) {
      forall i, j | 0 <= i < j < |r|
        ensures r[i].category != r[j].category
      {
        if i == k {
          assert r[j].category in CategoriesOf(t);
        } else if j == k {
          assert r[i].category in CategoriesOf(t);
        }
      }
    }
  }

  /** Sorting neither loses nor duplicates a category. */
  lemma {:induction false} SortCategories(s: seq<CategoryTotal>)
    ensures CategoriesOf(SortByAmount(s)) == CategoriesOf(s)
    ensures DistinctCategories(s) ==> DistinctCategories(SortByAmount(s))
    decreases |s|
  {
    if |s| > 0 {
      var s' := s[..|s| - 1];
      var x := s[|s| - 1];
      assert InsertedAt(s, s', |s'|, x);
      InsertAtCategories(s, s', |s'|, x);
      SortCategories(s');
      var t := SortByAmount(s');
      var k := InsertSplit(t, x);
      InsertAtCategories(Insert(t, x), t, k, x);
    }
  }

  // ---------------------------------------------------------------------
  // The summary
  // ---------------------------------------------------------------------

  /** The summary page's list: grouped, then sorted by amount, highest first. */
  function Breakdown(es: seq<Expense>): seq<CategoryTotal> {
    SortByAmount(Group(es))
  }

  /** Each category that occurs is listed exactly once with what was spent in
      it; the amounts add up to the total spending; the list runs from the
      highest amount down; and categories of equal amount appear in the order
      in which they were first met. */
  lemma BreakdownCorrect(es: seq<Expense>)
    ensures var r := Breakdown(es);
      && DistinctCategories(r)
      && CategoriesOf(r) == Categories(es)
      && (forall i :: 0 <= i < |r| ==> r[i].amount == SpentIn(es, r[i].category))
      && AmountSum(r) == ExpenseTotal(es)
      && SortedByAmount(r)
      && multiset(r) == multiset(Group(es))
      && (forall v :: WithAmount(r, v) == WithAmount(Group(es), v))
      && InFirstSeenOrder(es, Group(es))
  {
    GroupFirstSeenOrder(es);
    var g := Group(es);
    var r := Breakdown(es);
    GroupCategories(es);
    GroupAmounts(es);
    GroupSum(es);
    SortCategories(g);
    SortSorted(g);
    SortAmountSum(g);
    SortPermutes(g);
    forall i | 0 <= i < |r|
      ensures r[i].amount == SpentIn(es, r[i].category)
    {
      assert r[i] in multiset(g);
    }
    forall v
      ensures WithAmount(r, v) == WithAmount(g, v)
    {
      SortStable(g, v);
    }
  }
}
