/**
 * What the monthly report promises, proved about the pipeline: which triples take part,
 * that grouping partitions them by (name, year, month), what each row aggregates, and
 * that the rows come out strictly ordered.
 */
module MonthlyReportProperties {
  import opened Ordinal
  import opened MonthlyReport

  // ---------------------------------------------------------------- join and filter

  /**
   * A triple takes part exactly when its order, product and customer are in the inputs,
   * the ids match on both joins and the product carries every bit of the category; and it
   * takes part as many times as its order, product and customer records occur, multiplied,
   * so a repeated order record is counted twice in every total.
   */
  lemma FilteredLinesExactly(customers: seq<Customer>, products: seq<Product>, orders: seq<Order>, category: ProductCategory)
    ensures forall l :: l in FilteredLines(customers, products, orders, category) <==>
      && l.order in orders && l.product in products && l.customer in customers
      && l.product.id == l.order.productId && l.customer.id == l.order.customerId
      && HasCategory(l.product.category, category)
    ensures forall l :: multiset(FilteredLines(customers, products, orders, category))[l] ==
              if l.product.id == l.order.productId && l.customer.id == l.order.customerId
                 && HasCategory(l.product.category, category)
              then multiset(orders)[l.order] * multiset(products)[l.product] * multiset(customers)[l.customer]
              else 0
  {
  }

  /** A product filed under several categories passes the filter for each of them. */
  lemma MultiFlagProductsPass()
    ensures HasCategory(HomeAppliances | Electronics, Electronics)
    ensures HasCategory(HomeAppliances | Electronics, HomeAppliances)
    ensures !HasCategory(HomeAppliances, Electronics)
    ensures forall flags: ProductCategory :: HasCategory(flags, NoCategory)
  {
  }

  // ---------------------------------------------------------------- grouping

  lemma {:induction false} LinesWithKeyAbsent(lines: seq<Line>, k: GroupKey)
    requires k !in LineKeys(lines)
    ensures LinesWithKey(lines, k) == []
  {
    if lines != [] {
      assert LineKeys(lines) == LineKeys(DropLast(lines)) + [KeyOf(Last(lines))];
      LinesWithKeyAbsent(DropLast(lines), k);
    }
  }

  /** One grouping step: the line joins the group with its key, or opens a new one at the end. */
  lemma {:induction false} AddToGroupsSpec(groups: seq<Group>, l: Line)
    requires UniqueGroupKeys(groups)
    ensures var r := AddToGroups(groups, l);
      && |r| == |groups| + (if KeyOf(l) in GroupKeys(groups) then 0 else 1)
      && (forall i :: 0 <= i < |groups| ==>
            r[i] == Group(groups[i].key, groups[i].lines + (if groups[i].key == KeyOf(l) then [l] else [])))
      && (KeyOf(l) !in GroupKeys(groups) ==> r[|groups|] == Group(KeyOf(l), [l]))
  {
    if groups == [] {
    } else if groups[0].key == KeyOf(l) {
      assert forall i :: 1 <= i < |groups| ==> groups[i].key != KeyOf(l);
    } else {
      AddToGroupsSpec(groups[1..], l);
      assert GroupKeys(groups) == [groups[0].key] + GroupKeys(groups[1..]);
      assert AddToGroups(groups, l) == [groups[0]] + AddToGroups(groups[1..], l);
    }
  }

  /** The groups are exactly the key classes of the lines, each non-empty and in input order. */
  ghost predicate GroupsOf(groups: seq<Group>, lines: seq<Line>)
  {
    && UniqueGroupKeys(groups)
    && (forall k :: k in GroupKeys(groups) <==> k in LineKeys(lines))
    && (forall i :: 0 <= i < |groups| ==> groups[i].lines == LinesWithKey(lines, groups[i].key) && groups[i].lines != [])
  }

  lemma LinesWithKeyAppend(lines: seq<Line>, l: Line, k: GroupKey)
    ensures LinesWithKey(lines + [l], k) == LinesWithKey(lines, k) + (if KeyOf(l) == k then [l] else [])
  {
  }

  lemma LineKeysAppend(lines: seq<Line>, l: Line)
    ensures LineKeys(lines + [l]) == LineKeys(lines) + [KeyOf(l)]
  {
  }

  /** The grouping step adds the line's key at the end when it is new, and no other key. */
  lemma {:induction false} AddToGroupsKeys(groups: seq<Group>, l: Line)
    ensures GroupKeys(AddToGroups(groups, l))
            == if KeyOf(l) in GroupKeys(groups) then GroupKeys(groups) else GroupKeys(groups) + [KeyOf(l)]
  {
    if groups != [] {
      assert GroupKeys(groups) == [groups[0].key] + GroupKeys(groups[1..]);
      if groups[0].key != KeyOf(l) {
        AddToGroupsKeys(groups[1..], l);
      }
    }
  }

  /** The grouping step keeps the groups unique and in step with the keys of the lines seen so far. */
  lemma GroupStepKeys(gs: seq<Group>, lines: seq<Line>, l: Line)
    requires GroupsOf(gs, lines)
    ensures UniqueGroupKeys(AddToGroups(gs, l))
    ensures forall k :: k in GroupKeys(AddToGroups(gs, l)) <==> k in LineKeys(lines + [l])
  {
    AddToGroupsKeys(gs, l);
    LineKeysAppend(lines, l);
    var r := AddToGroups(gs, l);
    var ks, ks' := GroupKeys(gs), GroupKeys(r);
    forall i, j | 0 <= i < j < |r| ensures r[i].key != r[j].key {
      assert r[i].key == ks'[i] == ks[i] == gs[i].key;
      if j < |gs| {
        assert r[j].key == ks'[j] == ks[j] == gs[j].key;
      } else {
        assert r[j].key == KeyOf(l) && ks[i] in ks;
      }
    }
  }

  /** The grouping step keeps each group equal to the lines seen so far with its key. */
  lemma GroupStepLines(gs: seq<Group>, lines: seq<Line>, l: Line)
    requires GroupsOf(gs, lines)
    ensures var r := AddToGroups(gs, l);
      forall i :: 0 <= i < |r| ==> r[i].lines == LinesWithKey(lines + [l], r[i].key) && r[i].lines != []
  {
    AddToGroupsSpec(gs, l);
    var r := AddToGroups(gs, l);
    forall i | 0 <= i < |r|
      ensures r[i].lines == LinesWithKey(lines + [l], r[i].key) && r[i].lines != []
    {
      LinesWithKeyAppend(lines, l, r[i].key);
      if i == |gs| {
        LinesWithKeyAbsent(lines, KeyOf(l));
      }
    }
  }

  lemma {:induction false} GroupByExact(lines: seq<Line>)
    ensures GroupsOf(GroupBy(lines), lines)
  {
    if lines != [] {
      var init, l := DropLast(lines), Last(lines);
      assert lines == init + [l];
      assert GroupBy(lines) == AddToGroups(GroupBy(init), l);
      GroupByExact(init);
      GroupStepKeys(GroupBy(init), init, l);
      GroupStepLines(GroupBy(init), init, l);
    }
  }

  // ---------------------------------------------------------------- sums

  function SumGroups(groups: seq<Group>): int
  {
    if groups == [] then 0 else SumQuantity(groups[0].lines) + SumGroups(groups[1..])
  }

  function SumTotals(rows: seq<CustomerSummary>): int
  {
    if rows == [] then 0 else rows[0].totalQuantity + SumTotals(rows[1..])
  }

  /**
   * The total does not depend on where a sequence of lines is cut: summing the parts and
   * adding gives the sum of the whole, whichever end the fold starts from.
   */
  lemma {:induction false} SumQuantityConcat(a: seq<Line>, b: seq<Line>)
    ensures SumQuantity(a + b) == SumQuantity(a) + SumQuantity(b)
  {
    if b == [] {
      assert a + b == a;
    } else {
      assert a + b == (a + DropLast(b)) + [Last(b)];
      assert DropLast(a + b) == a + DropLast(b);
      SumQuantityConcat(a, DropLast(b));
    }
  }

  lemma {:induction false} AddToGroupsSum(groups: seq<Group>, l: Line)
    ensures SumGroups(AddToGroups(groups, l)) == SumGroups(groups) + l.order.quantity
  {
    if groups == [] {
      assert SumQuantity([l]) == SumQuantity([]) + l.order.quantity;
    } else if groups[0].key == KeyOf(l) {
      var ls := groups[0].lines + [l];
      assert DropLast(ls) == groups[0].lines;
    } else {
      AddToGroupsSum(groups[1..], l);
    }
  }

  /** Grouping partitions the lines: the group sums add up to the sum over all lines. */
  lemma {:induction false} GroupBySum(lines: seq<Line>)
    ensures SumGroups(GroupBy(lines)) == SumQuantity(lines)
  {
    if lines != [] {
      GroupBySum(DropLast(lines));
      AddToGroupsSum(GroupBy(DropLast(lines)), Last(lines));
    }
  }

  lemma {:induction false} SummariesSum(groups: seq<Group>, category: ProductCategory)
    ensures SumTotals(Summaries(groups, category)) == SumGroups(groups)
  {
    if groups != [] {
      SummariesSum(groups[1..], category);
      assert Summaries(groups, category)[1..] == Summaries(groups[1..], category);
    }
  }

  lemma {:induction false} InsertSum(x: CustomerSummary, s: seq<CustomerSummary>)
    ensures SumTotals(Insert(x, s)) == x.totalQuantity + SumTotals(s)
  {
    if s != [] && KeyLess(SummaryKey(s[0]), SummaryKey(x)) {
      InsertSum(x, s[1..]);
      assert Insert(x, s)[1..] == Insert(x, s[1..]);
    }
  }

  /** Sorting neither loses nor duplicates quantity. */
  lemma {:induction false} SortSum(s: seq<CustomerSummary>)
    ensures SumTotals(SortSummaries(s)) == SumTotals(s)
  {
    if s != [] {
      SortSum(s[1..]);
      InsertSum(s[0], SortSummaries(s[1..]));
    }
  }

  // ---------------------------------------------------------------- ordering

  lemma KeyLessIrreflexive(a: GroupKey)
    ensures !KeyLess(a, a)
  {
    StrLessIrreflexive(a.name);
  }

  lemma KeyLessTransitive(a: GroupKey, b: GroupKey, c: GroupKey)
    requires KeyLess(a, b) && KeyLess(b, c)
    ensures KeyLess(a, c)
  {
    if StrLess(a.name, b.name) && StrLess(b.name, c.name) {
      StrLessTransitive(a.name, b.name, c.name);
    }
  }

  lemma KeyLessTotal(a: GroupKey, b: GroupKey)
    ensures a == b || KeyLess(a, b) || KeyLess(b, a)
  {
    StrLessTotal(a.name, b.name);
  }

  /** Inserting a row whose key is new into a strictly sorted sequence keeps it strictly sorted. */
  lemma {:induction false} InsertKeepsStrict(x: CustomerSummary, s: seq<CustomerSummary>)
    requires StrictlySorted(s)
    requires forall i :: 0 <= i < |s| ==> SummaryKey(s[i]) != SummaryKey(x)
    ensures StrictlySorted(Insert(x, s))
  {
    var r := Insert(x, s);
    if s == [] {
    } else if !KeyLess(SummaryKey(s[0]), SummaryKey(x)) {
      KeyLessTotal(SummaryKey(s[0]), SummaryKey(x));
      forall j | 1 <= j < |r|
        ensures KeyLess(SummaryKey(r[0]), SummaryKey(r[j]))
      {
        if j > 1 {
          KeyLessTransitive(SummaryKey(x), SummaryKey(s[0]), SummaryKey(s[j - 1]));
        }
      }
    } else {
      InsertKeepsStrict(x, s[1..]);
      var tail := Insert(x, s[1..]);
      assert r == [s[0]] + tail;
      forall j | 0 <= j < |tail|
        ensures KeyLess(SummaryKey(s[0]), SummaryKey(tail[j]))
      {
        assert tail[j] in multiset(tail);
        if tail[j] != x {
          assert tail[j] in s[1..];
          var m :| 0 <= m < |s[1..]| && s[1..][m] == tail[j];
          assert s[m + 1] == tail[j];
        }
      }
    }
  }

  /** Sorting rows with distinct keys yields a strictly ascending sequence. */
  lemma {:induction false} SortStrict(s: seq<CustomerSummary>)
    requires UniqueSummaryKeys(s)
    ensures StrictlySorted(SortSummaries(s))
  {
    if s != [] {
      SortStrict(s[1..]);
      var sorted := SortSummaries(s[1..]);
      forall i | 0 <= i < |sorted|
        ensures SummaryKey(sorted[i]) != SummaryKey(s[0])
      {
        assert sorted[i] in multiset(s[1..]);
        var m :| 0 <= m < |s[1..]| && s[1..][m] == sorted[i];
        assert s[m + 1] == sorted[i];
      }
      InsertKeepsStrict(s[0], sorted);
    }
  }

  // ---------------------------------------------------------------- the report

  /** The row built from each group has that group's key. */
  lemma UniqueRowKeys(groups: seq<Group>, category: ProductCategory)
    requires UniqueGroupKeys(groups)
    ensures UniqueSummaryKeys(Summaries(groups, category))
  {
  }

  lemma SummarizedSorted(lines: seq<Line>, category: ProductCategory)
    ensures StrictlySorted(Summarized(lines, category))
  {
    GroupByExact(lines);
    UniqueRowKeys(GroupBy(lines), category);
    SortStrict(Summaries(GroupBy(lines), category));
  }

  lemma GroupKeyIsLineKey(groups: seq<Group>, lines: seq<Line>, j: int)
    requires GroupsOf(groups, lines) && 0 <= j < |groups|
    ensures groups[j].key in LineKeys(lines)
  {
  }

  lemma LineKeyHasGroup(groups: seq<Group>, lines: seq<Line>, k: GroupKey) returns (j: int)
    requires GroupsOf(groups, lines) && k in LineKeys(lines)
    ensures 0 <= j < |groups| && groups[j].key == k
  {
    assert k in GroupKeys(groups);
    j :| 0 <= j < |groups| && GroupKeys(groups)[j] == k;
  }

  /** A row of the sorted summaries carries the key of one of the groups it was made from. */
  lemma RowKeyIsGroupKey(groups: seq<Group>, category: ProductCategory, i: int) returns (j: int)
    requires 0 <= i < |SortSummaries(Summaries(groups, category))|
    ensures 0 <= j < |groups| && SummaryKey(SortSummaries(Summaries(groups, category))[i]) == groups[j].key
  {
    var rows := Summaries(groups, category);
    assert SortSummaries(rows)[i] in multiset(rows);
    j :| 0 <= j < |rows| && rows[j] == SortSummaries(rows)[i];
  }

  lemma SummarizedKeysFromLines(lines: seq<Line>, category: ProductCategory)
    ensures var report := Summarized(lines, category);
            forall i :: 0 <= i < |report| ==> SummaryKey(report[i]) in LineKeys(lines)
  {
    var groups := GroupBy(lines);
    GroupByExact(lines);
    forall i | 0 <= i < |Summarized(lines, category)|
      ensures SummaryKey(Summarized(lines, category)[i]) in LineKeys(lines)
    {
      var j := RowKeyIsGroupKey(groups, category, i);
      GroupKeyIsLineKey(groups, lines, j);
    }
  }

  lemma RowForKey(lines: seq<Line>, category: ProductCategory, k: GroupKey) returns (i: int)
    requires k in LineKeys(lines)
    ensures 0 <= i < |Summarized(lines, category)| && SummaryKey(Summarized(lines, category)[i]) == k
  {
    var groups := GroupBy(lines);
    GroupByExact(lines);
    var j := LineKeyHasGroup(groups, lines, k);
    var rows := Summaries(groups, category);
    var report := SortSummaries(rows);
    assert rows[j] in multiset(report);
    i :| 0 <= i < |report| && report[i] == rows[j];
  }

  lemma SummarizedKeysCovered(lines: seq<Line>, category: ProductCategory)
    ensures var report := Summarized(lines, category);
            forall k :: k in LineKeys(lines) ==> exists i :: 0 <= i < |report| && SummaryKey(report[i]) == k
  {
    var report := Summarized(lines, category);
    forall k | k in LineKeys(lines) ensures exists i :: 0 <= i < |report| && SummaryKey(report[i]) == k {
      var i := RowForKey(lines, category, k);
    }
  }

  /** One row per distinct key of the lines, rows strictly ascending. */
  lemma SummarizedOneRowPerKey(lines: seq<Line>, category: ProductCategory)
    ensures var report := Summarized(lines, category);
            && StrictlySorted(report)
            && (forall i :: 0 <= i < |report| ==> SummaryKey(report[i]) in LineKeys(lines))
            && (forall k :: k in LineKeys(lines) ==> exists i :: 0 <= i < |report| && SummaryKey(report[i]) == k)
  {
    SummarizedSorted(lines, category);
    SummarizedKeysFromLines(lines, category);
    SummarizedKeysCovered(lines, category);
  }

  /**
   * A row carries the filter category, the total quantity of the lines with its key, and
   * the number of distinct product ids among them (at least one, at most their number).
   */
  ghost predicate AggregatesOver(row: CustomerSummary, lines: seq<Line>, category: ProductCategory)
  {
    var group := LinesWithKey(lines, SummaryKey(row));
    && row.category == category
    && row.totalQuantity == SumQuantity(group)
    && row.uniqueProductsOrdered == |Distinct(ProductIds(group))|
    && 1 <= row.uniqueProductsOrdered <= |group|
  }

  lemma RowAggregates(lines: seq<Line>, category: ProductCategory, i: int)
    requires 0 <= i < |Summarized(lines, category)|
    ensures AggregatesOver(Summarized(lines, category)[i], lines, category)
  {
    var groups := GroupBy(lines);
    GroupByExact(lines);
    var rows := Summaries(groups, category);
    var report := SortSummaries(rows);
    assert report[i] in multiset(rows);
    var j :| 0 <= j < |rows| && rows[j] == report[i];
    assert groups[j].lines == LinesWithKey(lines, SummaryKey(report[i]));
  }

  /** What each row aggregates over the lines with its key. */
  lemma SummarizedRowAggregates(lines: seq<Line>, category: ProductCategory)
    ensures var report := Summarized(lines, category);
            forall i :: 0 <= i < |report| ==> AggregatesOver(report[i], lines, category)
  {
    forall i | 0 <= i < |Summarized(lines, category)|
      ensures AggregatesOver(Summarized(lines, category)[i], lines, category)
    {
      RowAggregates(lines, category, i);
    }
  }

  /**
   * One row per distinct (customer name, year, month) among the filtered triples, and the
   * rows strictly ascending by name, then year, then month.
   */
  lemma ReportOneRowPerKey(customers: seq<Customer>, products: seq<Product>, orders: seq<Order>, category: ProductCategory)
    ensures var lines := FilteredLines(customers, products, orders, category);
            var report := Report(customers, products, orders, category);
            && StrictlySorted(report)
            && (forall i :: 0 <= i < |report| ==> SummaryKey(report[i]) in LineKeys(lines))
            && (forall k :: k in LineKeys(lines) ==> exists i :: 0 <= i < |report| && SummaryKey(report[i]) == k)
  {
    SummarizedOneRowPerKey(FilteredLines(customers, products, orders, category), category);
  }

  /**
   * Each row carries the filter category, the sum of the quantities of its group's
   * triples, and the number of distinct product ids among them (at least one, at most
   * the group's size).
   */
  lemma ReportRowAggregates(customers: seq<Customer>, products: seq<Product>, orders: seq<Order>, category: ProductCategory)
    ensures var lines := FilteredLines(customers, products, orders, category);
            var report := Report(customers, products, orders, category);
            forall i :: 0 <= i < |report| ==> AggregatesOver(report[i], lines, category)
  {
    SummarizedRowAggregates(FilteredLines(customers, products, orders, category), category);
  }

  /** The row totals add up to the total quantity of all filtered triples. */
  lemma ReportTotalQuantity(customers: seq<Customer>, products: seq<Product>, orders: seq<Order>, category: ProductCategory)
    ensures SumTotals(Report(customers, products, orders, category))
            == SumQuantity(FilteredLines(customers, products, orders, category))
  {
    var lines := FilteredLines(customers, products, orders, category);
    var rows := Summaries(GroupBy(lines), category);
    SortSum(rows);
    SummariesSum(GroupBy(lines), category);
    GroupBySum(lines);
  }

  /**
   * Corollary of `KeyOf` and `LinesWithKey`, grouping is by name: two filtered triples
   * whose customers share a name and whose orders fall in the same month land in the same
   * group, whatever the customer ids.
   */
  lemma SameNameSameGroup(lines: seq<Line>, a: Line, b: Line)
    requires a in lines && b in lines
    requires a.customer.name == b.customer.name && a.order.year == b.order.year && a.order.month == b.order.month
    ensures KeyOf(a) == KeyOf(b)
    ensures a in LinesWithKey(lines, KeyOf(b)) && b in LinesWithKey(lines, KeyOf(a))
  {
  }
}
