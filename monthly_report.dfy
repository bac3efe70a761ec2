/**
 * The monthly category report: orders inner-joined to their products and customers, kept
 * when the product's category flags include the requested category, grouped by
 * (customer name, year, month), summarised (total quantity, number of distinct products)
 * and sorted by name, then year, then month.
 */
module MonthlyReport {
  import opened Ordinal

  /** The `[Flags]` category enumeration: one bit per category. */
  type ProductCategory = bv6

  const NoCategory: ProductCategory := 0
  const Electronics: ProductCategory := 1
  const HomeAppliances: ProductCategory := 2
  const Clothing: ProductCategory := 4
  const Sports: ProductCategory := 8
  const Books: ProductCategory := 16
  const Beauty: ProductCategory := 32

  datatype Customer = Customer(id: int, name: string)

  datatype Product = Product(id: int, name: string, category: ProductCategory)

  /** Only the year and the month of an order's date enter the report. */
  datatype Order = Order(id: int, customerId: int, productId: int, quantity: int, year: int, month: int)

  datatype CustomerSummary = CustomerSummary(
    customerName: string,
    category: ProductCategory,
    year: int,
    month: int,
    totalQuantity: int,
    uniqueProductsOrdered: int)

  /** An order joined with a product. */
  datatype OrderProduct = OrderProduct(order: Order, product: Product)

  /** An order joined with a product and a customer. */
  datatype Line = Line(order: Order, product: Product, customer: Customer)

  datatype GroupKey = GroupKey(name: string, year: int, month: int)

  datatype Group = Group(key: GroupKey, lines: seq<Line>)

  function Last<T>(s: seq<T>): T
    requires |s| > 0
  {
    s[|s| - 1]
  }

  function DropLast<T>(s: seq<T>): seq<T>
    requires |s| > 0
  {
    s[..|s| - 1]
  }

  // ---------------------------------------------------------------- joins

  /**
   * The products whose id equals the order's product id, each paired with the order, in
   * product order: a matching product listed twice gives two pairs.
   */
  function ProductMatches(o: Order, products: seq<Product>): (r: seq<OrderProduct>)
    ensures forall x :: x in r <==> x.order == o && x.product in products && x.product.id == o.productId
    ensures forall x :: multiset(r)[x] ==
              if x.order == o && x.product.id == o.productId then multiset(products)[x.product] else 0
  {
    if products == [] then []
    else
      assert products == [products[0]] + products[1..];
      (if products[0].id == o.productId then [OrderProduct(o, products[0])] else []) + ProductMatches(o, products[1..])
  }

  /**
   * First inner join, orders to products on `ProductId == Id`, in order-major order: one
   * pair per occurrence of the order times occurrence of a matching product.
   */
  function JoinProducts(orders: seq<Order>, products: seq<Product>): (r: seq<OrderProduct>)
    ensures forall x :: x in r <==> x.order in orders && x.product in products && x.product.id == x.order.productId
    ensures forall x :: multiset(r)[x] ==
              if x.product.id == x.order.productId then multiset(orders)[x.order] * multiset(products)[x.product] else 0
  {
    if orders == [] then []
    else
      assert orders == [orders[0]] + orders[1..];
      var head, tail := ProductMatches(orders[0], products), JoinProducts(orders[1..], products);
      assert forall x: OrderProduct :: multiset(head + tail)[x] ==
               if x.product.id == x.order.productId then multiset(orders)[x.order] * multiset(products)[x.product] else 0
      by {
        forall x: OrderProduct {
          CountStep(orders[0], orders[1..], x.order, multiset(products)[x.product],
                    x.product.id == x.order.productId, multiset(head)[x], multiset(tail)[x]);
        }
      }
      head + tail
  }

  /**
   * The counting step shared by both joins: the matches of a first element `first` plus
   * the join of the rest count, for an element `e`, its occurrences in `[first] + rest`
   * times the `n` partners it has.
   */
  lemma CountStep<T>(first: T, rest: seq<T>, e: T, n: nat, matches: bool, inHead: nat, inTail: nat)
    requires inHead == if matches && e == first then n else 0
    requires inTail == if matches then multiset(rest)[e] * n else 0
    ensures inHead + inTail == if matches then multiset([first] + rest)[e] * n else 0
  {
    if matches && e == first {
      assert multiset([first] + rest)[e] == multiset(rest)[e] + 1;
      assert (multiset(rest)[e] + 1) * n == multiset(rest)[e] * n + n;
    } else if matches {
      assert multiset([first] + rest)[e] == multiset(rest)[e];
    }
  }

  function CustomerMatches(op: OrderProduct, customers: seq<Customer>): (r: seq<Line>)
    ensures forall l :: l in r <==>
      l.order == op.order && l.product == op.product && l.customer in customers && l.customer.id == op.order.customerId
    ensures forall l :: multiset(r)[l] ==
              if l.order == op.order && l.product == op.product && l.customer.id == op.order.customerId
              then multiset(customers)[l.customer] else 0
  {
    if customers == [] then []
    else
      assert customers == [customers[0]] + customers[1..];
      (if customers[0].id == op.order.customerId then [Line(op.order, op.product, customers[0])] else [])
        + CustomerMatches(op, customers[1..])
  }

  /**
   * Second inner join, the joined pairs to customers on `CustomerId == Id`: one triple per
   * occurrence of the pair times occurrence of a matching customer.
   */
  function JoinCustomers(pairs: seq<OrderProduct>, customers: seq<Customer>): (r: seq<Line>)
    ensures forall l :: l in r <==>
      OrderProduct(l.order, l.product) in pairs && l.customer in customers && l.customer.id == l.order.customerId
    ensures forall l :: multiset(r)[l] ==
              if l.customer.id == l.order.customerId
              then multiset(pairs)[OrderProduct(l.order, l.product)] * multiset(customers)[l.customer] else 0
  {
    if pairs == [] then []
    else
      assert pairs == [pairs[0]] + pairs[1..];
      var head, tail := CustomerMatches(pairs[0], customers), JoinCustomers(pairs[1..], customers);
      JoinCustomersStep(pairs, customers, head, tail);
      head + tail
  }

  /** The recursive step of the customer join: the first pair's matches followed by the join of the rest. */
  lemma JoinCustomersStep(pairs: seq<OrderProduct>, customers: seq<Customer>, head: seq<Line>, tail: seq<Line>)
    requires pairs != []
    requires forall l :: l in head <==>
      l.order == pairs[0].order && l.product == pairs[0].product && l.customer in customers
      && l.customer.id == pairs[0].order.customerId
    requires forall l :: multiset(head)[l] ==
               if l.order == pairs[0].order && l.product == pairs[0].product && l.customer.id == pairs[0].order.customerId
               then multiset(customers)[l.customer] else 0
    requires forall l :: l in tail <==>
      OrderProduct(l.order, l.product) in pairs[1..] && l.customer in customers && l.customer.id == l.order.customerId
    requires forall l :: multiset(tail)[l] ==
               if l.customer.id == l.order.customerId
               then multiset(pairs[1..])[OrderProduct(l.order, l.product)] * multiset(customers)[l.customer] else 0
    ensures forall l :: l in head + tail <==>
      OrderProduct(l.order, l.product) in pairs && l.customer in customers && l.customer.id == l.order.customerId
    ensures forall l :: multiset(head + tail)[l] ==
              if l.customer.id == l.order.customerId
              then multiset(pairs)[OrderProduct(l.order, l.product)] * multiset(customers)[l.customer] else 0
  {
    assert pairs == [pairs[0]] + pairs[1..];
    forall l: Line
      ensures multiset(head + tail)[l] ==
                if l.customer.id == l.order.customerId
                then multiset(pairs)[OrderProduct(l.order, l.product)] * multiset(customers)[l.customer] else 0
    {
      CountStep(pairs[0], pairs[1..], OrderProduct(l.order, l.product), multiset(customers)[l.customer],
                l.customer.id == l.order.customerId, multiset(head)[l], multiset(tail)[l]);
    }
  }

  // ---------------------------------------------------------------- filter

  /** The flags test: every bit of `category` is set in `flags`. */
  predicate HasCategory(flags: ProductCategory, category: ProductCategory)
    ensures HasCategory(flags, category) <==> flags | category == flags
    ensures HasCategory(flags, NoCategory)
    ensures HasCategory(flags, category) && category != NoCategory ==> flags != NoCategory
  {
    flags & category == category
  }

  /** The `Where`: every occurrence of a passing triple is kept, in order. */
  function WithCategory(lines: seq<Line>, category: ProductCategory): (r: seq<Line>)
    ensures forall l :: l in r <==> l in lines && HasCategory(l.product.category, category)
    ensures forall l :: multiset(r)[l] == if HasCategory(l.product.category, category) then multiset(lines)[l] else 0
    ensures |r| <= |lines|
  {
    if lines == [] then []
    else
      assert lines == [lines[0]] + lines[1..];
      (if HasCategory(lines[0].product.category, category) then [lines[0]] else []) + WithCategory(lines[1..], category)
  }

  /** The joined and filtered triples the groups are formed from. */
  function FilteredLines(customers: seq<Customer>, products: seq<Product>, orders: seq<Order>, category: ProductCategory)
    : (r: seq<Line>)
    ensures forall l :: l in r ==>
              && l.order in orders && l.product in products && l.customer in customers
              && l.product.id == l.order.productId && l.customer.id == l.order.customerId
              && HasCategory(l.product.category, category)
  {
    WithCategory(JoinCustomers(JoinProducts(orders, products), customers), category)
  }

  // ---------------------------------------------------------------- grouping

  /** Grouping is by customer NAME (not id), year and month. */
  function KeyOf(l: Line): GroupKey
  {
    GroupKey(l.customer.name, l.order.year, l.order.month)
  }

  function LineKeys(lines: seq<Line>): (r: seq<GroupKey>)
    ensures |r| == |lines|
    ensures forall i :: 0 <= i < |lines| ==> r[i] == KeyOf(lines[i])
  {
    if lines == [] then [] else LineKeys(DropLast(lines)) + [KeyOf(Last(lines))]
  }

  /** The lines with key `k`, in their original order. */
  function LinesWithKey(lines: seq<Line>, k: GroupKey): (r: seq<Line>)
    ensures forall l :: l in r <==> l in lines && KeyOf(l) == k
    ensures |r| <= |lines|
  {
    if lines == [] then []
    else
      assert lines == DropLast(lines) + [Last(lines)];
      LinesWithKey(DropLast(lines), k) + (if KeyOf(Last(lines)) == k then [Last(lines)] else [])
  }

  function GroupKeys(groups: seq<Group>): (r: seq<GroupKey>)
    ensures |r| == |groups|
    ensures forall i :: 0 <= i < |groups| ==> r[i] == groups[i].key
  {
    if groups == [] then [] else [groups[0].key] + GroupKeys(groups[1..])
  }

  ghost predicate UniqueGroupKeys(groups: seq<Group>)
  {
    forall i, j :: 0 <= i < j < |groups| ==> groups[i].key != groups[j].key
  }

  /** One element of the grouping pass: append to the group with its key, or open a new group at the end. */
  function AddToGroups(groups: seq<Group>, l: Line): (r: seq<Group>)
  {
    if groups == [] then [Group(KeyOf(l), [l])]
    else if groups[0].key == KeyOf(l) then [Group(groups[0].key, groups[0].lines + [l])] + groups[1..]
    else [groups[0]] + AddToGroups(groups[1..], l)
  }

  /** Groups in order of first appearance of their key; each group's lines in input order. */
  function GroupBy(lines: seq<Line>): (r: seq<Group>)
  {
    if lines == [] then [] else AddToGroups(GroupBy(DropLast(lines)), Last(lines))
  }

  // ---------------------------------------------------------------- aggregation

  /** With non-negative quantities the total is non-negative and at least each line's quantity. */
  function SumQuantity(lines: seq<Line>): (r: int)
  {
    if lines == [] then 0 else SumQuantity(DropLast(lines)) + Last(lines).order.quantity
  }

  function ProductIds(lines: seq<Line>): (r: seq<int>)
    ensures |r| == |lines|
    ensures forall i :: 0 <= i < |lines| ==> r[i] == lines[i].product.id
  {
    if lines == [] then [] else ProductIds(DropLast(lines)) + [Last(lines).product.id]
  }

  /** First occurrences in order: every element of `xs` exactly once. */
  function Distinct(xs: seq<int>): (r: seq<int>)
    ensures forall x :: x in r <==> x in xs
    ensures forall i, j :: 0 <= i < j < |r| ==> r[i] != r[j]
    ensures |r| <= |xs|
    ensures |xs| > 0 ==> |r| > 0
  {
    if xs == [] then []
    else
      var rest := Distinct(DropLast(xs));
      assert xs == DropLast(xs) + [Last(xs)];
      if Last(xs) in rest then rest else rest + [Last(xs)]
  }

  /**
   * The row of one group: its key, the filter category, the group's total quantity and
   * the number of distinct product ids in it, at least one for a non-empty group and at
   * most the group's size.
   */
  function Summarize(g: Group, category: ProductCategory): (r: CustomerSummary)
    ensures SummaryKey(r) == g.key && r.category == category && r.totalQuantity == SumQuantity(g.lines)
    ensures r.uniqueProductsOrdered <= |g.lines|
    ensures g.lines != [] ==> 1 <= r.uniqueProductsOrdered
  {
    CustomerSummary(g.key.name, category, g.key.year, g.key.month,
                    SumQuantity(g.lines), |Distinct(ProductIds(g.lines))|)
  }

  function Summaries(groups: seq<Group>, category: ProductCategory): (r: seq<CustomerSummary>)
    ensures |r| == |groups|
    ensures forall i :: 0 <= i < |groups| ==> r[i] == Summarize(groups[i], category)
  {
    if groups == [] then [] else [Summarize(groups[0], category)] + Summaries(groups[1..], category)
  }

  // ---------------------------------------------------------------- ordering

  function SummaryKey(s: CustomerSummary): GroupKey
  {
    GroupKey(s.customerName, s.year, s.month)
  }

  /**
   * By name (ordinal), then year, then month: the name decides whenever the names differ,
   * and no key is below itself.
   */
  predicate KeyLess(a: GroupKey, b: GroupKey)
    ensures KeyLess(a, b) ==> a != b
    ensures StrLess(a.name, b.name) ==> KeyLess(a, b)
    ensures StrLess(b.name, a.name) ==> !KeyLess(a, b)
  {
    StrLessIrreflexive(a.name);
    if StrLess(b.name, a.name) then StrLessAsymmetric(b.name, a.name); false else
    StrLess(a.name, b.name) || (a.name == b.name && (a.year < b.year || (a.year == b.year && a.month < b.month)))
  }

  ghost predicate StrictlySorted(s: seq<CustomerSummary>)
  {
    forall i, j :: 0 <= i < j < |s| ==> KeyLess(SummaryKey(s[i]), SummaryKey(s[j]))
  }

  ghost predicate UniqueSummaryKeys(s: seq<CustomerSummary>)
  {
    forall i, j :: 0 <= i < j < |s| ==> SummaryKey(s[i]) != SummaryKey(s[j])
  }

  /** Places `x` before the first element whose key is not below it (so equal keys keep input order). */
  function Insert(x: CustomerSummary, s: seq<CustomerSummary>): (r: seq<CustomerSummary>)
    ensures multiset(r) == multiset(s) + multiset{x}
  {
    if s == [] || !KeyLess(SummaryKey(s[0]), SummaryKey(x)) then [x] + s
    else
      assert s == [s[0]] + s[1..];
      [s[0]] + Insert(x, s[1..])
  }

  /** The stable sort of `OrderBy(name).ThenBy(year).ThenBy(month)`, as an insertion sort. */
  function SortSummaries(s: seq<CustomerSummary>): (r: seq<CustomerSummary>)
    ensures multiset(r) == multiset(s)
  {
    if s == [] then []
    else
      assert s == [s[0]] + s[1..];
      Insert(s[0], SortSummaries(s[1..]))
  }

  // ---------------------------------------------------------------- the report

  /** Group, summarise and order the filtered triples. */
  function Summarized(lines: seq<Line>, category: ProductCategory): (r: seq<CustomerSummary>)
    ensures forall i :: 0 <= i < |r| ==> r[i].category == category
  {
    var rows := Summaries(GroupBy(lines), category);
    var r := SortSummaries(rows);
    assert forall i :: 0 <= i < |r| ==> r[i].category == category by {
      forall i | 0 <= i < |r|
        ensures r[i].category == category
      {
        assert r[i] in multiset(rows);
      }
    }
    r
  }

  /** The report: every row carries the requested category. */
  function Report(customers: seq<Customer>, products: seq<Product>, orders: seq<Order>, category: ProductCategory)
    : (r: seq<CustomerSummary>)
    ensures forall i :: 0 <= i < |r| ==> r[i].category == category
  {
    Summarized(FilteredLines(customers, products, orders, category), category)
  }
}
