/** The order held in session state: its line items, the two ways a line is
    made, the aggregates shown beside the order, and the list object itself
    (restaurant_management.py, lines 254-291, 315-317, 359-366, 413). */
module Ledger {
  import opened Wrappers
  import opened Catalog

  /** One entry of `st.session_state.orders`. `itemType` and `spicy` are the
      item's flags copied at add time. */
  datatype OrderLine = OrderLine(
    timestamp: string,
    category: string,
    item: string,
    price: int,
    quantity: int,
    total: int,
    instructions: string,
    itemType: Diet,
    spicy: bool)

  /** What every line the sidebar can create satisfies: the quantity widget's
      range 1..20 and the line total computed as price times quantity. */
  predicate WellFormed(line: OrderLine)
  {
    line.price >= 0 && 1 <= line.quantity <= 20 && line.total == line.price * line.quantity
  }

  /** The line appended by "Add to Order" for a menu item (lines 255-265). */
  function MenuLine(timestamp: string, category: string, item: MenuItem, quantity: int, instructions: string): (line: OrderLine)
    ensures 1 <= quantity <= 20 ==> WellFormed(line)
    ensures line.total == item.price * quantity
    ensures line.item == item.name && line.price == item.price
    ensures line.itemType == item.diet && line.spicy == item.spicy
  {
    OrderLine(timestamp, category, item.name, item.price, quantity, item.price * quantity,
              instructions, item.diet, item.spicy)
  }

  /** The line appended by a quick-add button (lines 281-291). */
  function QuickLine(timestamp: string, p: PopularItem): (line: OrderLine)
    ensures WellFormed(line) && line.quantity == 1 && line.total == p.price
    ensures line.item == p.name && line.instructions == "" && !line.spicy
  {
    OrderLine(timestamp, p.category, p.name, p.price, 1, p.price, "",
              if p.name != "Butter Chicken" then Veg else NonVeg, false)
  }

  /** A quick-add button appends exactly the line "Add to Order" would append
      for the same menu item with quantity 1 and no instructions. */
  lemma QuickLineIsMenuLine(timestamp: string, k: nat)
    requires k < |PopularItems()|
    ensures var p := PopularItems()[k];
            exists item :: Offers(p.category, item) && QuickLine(timestamp, p) == MenuLine(timestamp, p.category, item, 1, "")
  {
    var p := PopularItems()[k];
    PopularItemsOnMenu(k);
    var item :| Offers(p.category, item) && item.name == p.name && item.price == p.price
                && !item.spicy && (item.diet == Veg <==> p.name != "Butter Chicken");
    assert QuickLine(timestamp, p) == MenuLine(timestamp, p.category, item, 1, "");
  }

  predicate AllWellFormed(lines: seq<OrderLine>)
  {
    forall i :: 0 <= i < |lines| ==> WellFormed(lines[i])
  }

  /** `df['quantity'].sum()` */
  function TotalItems(lines: seq<OrderLine>): (r: int)
    ensures AllWellFormed(lines) ==> |lines| <= r <= 20 * |lines|
  {
    if lines == [] then 0 else lines[0].quantity + TotalItems(lines[1..])
  }

  /** `df['total'].sum()`, also `sum(order['total'] for order in orders)` */
  function Subtotal(lines: seq<OrderLine>): (r: int)
    ensures AllWellFormed(lines) ==> r >= 0
  {
    if lines == [] then 0 else lines[0].total + Subtotal(lines[1..])
  }

  /** The sum of unit prices over the lines. */
  function SumPrices(lines: seq<OrderLine>): int
  {
    if lines == [] then 0 else lines[0].price + SumPrices(lines[1..])
  }

  /** The reference value of the order: price times quantity, summed. */
  function PriceTimesQuantity(lines: seq<OrderLine>): int
  {
    if lines == [] then 0 else lines[0].price * lines[0].quantity + PriceTimesQuantity(lines[1..])
  }

  /** `df['price'].mean()`: the mean over lines, not weighted by quantity.
      None for an empty order, on which the source never evaluates the mean
      (lines 301 and 383). */
  function AveragePrice(lines: seq<OrderLine>): (r: Option<real>)
    ensures r.Some? <==> lines != []
    ensures r.Some? ==> r.value * |lines| as real == SumPrices(lines) as real
  {
    if lines == [] then None else Some(SumPrices(lines) as real / |lines| as real)
  }

  /** The quantity ordered in one category: one group of
      `df.groupby('category')['quantity'].sum()`. */
  function CategoryQuantity(lines: seq<OrderLine>, category: string): (r: int)
    ensures AllWellFormed(lines) ==> 0 <= r <= TotalItems(lines)
  {
    if lines == [] then 0
    else (if lines[0].category == category then lines[0].quantity else 0) + CategoryQuantity(lines[1..], category)
  }

  function Categories(lines: seq<OrderLine>): set<string>
  {
    set i | 0 <= i < |lines| :: lines[i].category
  }

  /** The whole group-by: one entry per category present in the order. */
  function CategoryComposition(lines: seq<OrderLine>): (m: map<string, int>)
    ensures m.Keys == Categories(lines)
  {
    map c | c in Categories(lines) :: CategoryQuantity(lines, c)
  }

  /** The subtotal is the sum of price times quantity. */
  lemma {:induction false} SubtotalIsPriceTimesQuantity(lines: seq<OrderLine>)
    requires AllWellFormed(lines)
    ensures Subtotal(lines) == PriceTimesQuantity(lines)
  {
    if lines != [] {
      SubtotalIsPriceTimesQuantity(lines[1..]);
    }
  }

  /** Appending a line adds its figures to the aggregates (and leaves the sums
      over the earlier lines as they were). */
  lemma {:induction false} AggregatesAppend(lines: seq<OrderLine>, line: OrderLine)
    ensures Subtotal(lines + [line]) == Subtotal(lines) + line.total
    ensures TotalItems(lines + [line]) == TotalItems(lines) + line.quantity
    ensures SumPrices(lines + [line]) == SumPrices(lines) + line.price
    ensures forall c :: CategoryQuantity(lines + [line], c) ==
                        CategoryQuantity(lines, c) + (if line.category == c then line.quantity else 0)
  {
    if lines != [] {
      AggregatesAppend(lines[1..], line);
      assert (lines + [line])[1..] == lines[1..] + [line];
    }
  }

  lemma {:induction false} SumPricesBounds(lines: seq<OrderLine>, lo: int, hi: int)
    requires forall i :: 0 <= i < |lines| ==> lo <= lines[i].price <= hi
    ensures |lines| * lo <= SumPrices(lines) <= |lines| * hi
  {
    if lines != [] {
      SumPricesBounds(lines[1..], lo, hi);
    }
  }

  /** The average item price lies between the cheapest and the dearest unit
      price of the order, whatever the quantities. */
  lemma AverageWithinPrices(lines: seq<OrderLine>, lo: int, hi: int)
    requires lines != []
    requires forall i :: 0 <= i < |lines| ==> lo <= lines[i].price <= hi
    ensures AveragePrice(lines).Some?
    ensures lo as real <= AveragePrice(lines).value <= hi as real
  {
    SumPricesBounds(lines, lo, hi);
    var n := |lines| as real;
    var s := SumPrices(lines) as real;
    assert n * lo as real <= s <= n * hi as real;
    MeanBetween(s, n, lo as real, hi as real);
  }

  lemma MeanBetween(s: real, n: real, lo: real, hi: real)
    requires n > 0.0 && n * lo <= s <= n * hi
    ensures lo <= s / n <= hi
  {
    var q := s / n;
    assert q * n == s;
    assert (q - lo) * n == s - lo * n >= 0.0;
    assert (hi - q) * n == hi * n - s >= 0.0;
  }

  /** The mean ignores quantities: five items at 100 and one at 10 average
      to 55, not to the weighted 510 / 6. */
  lemma AverageIsUnweighted()
    ensures var lines := [OrderLine("", "A", "x", 100, 5, 500, "", Veg, false),
                          OrderLine("", "A", "y", 10, 1, 10, "", Veg, false)];
            AveragePrice(lines) == Some(55.0) && TotalItems(lines) == 6 && Subtotal(lines) == 510
  {
  }

  /** In a well-formed order a category has a positive quantity exactly when
      it is present. */
  lemma {:induction false} CategoryQuantityBounds(lines: seq<OrderLine>, c: string)
    requires AllWellFormed(lines)
    ensures c in Categories(lines) <==> CategoryQuantity(lines, c) > 0
  {
    if lines != [] {
      CategoryQuantityBounds(lines[1..], c);
      assert Categories(lines) == {lines[0].category} + Categories(lines[1..]) by {
        forall x | x in Categories(lines) ensures x in {lines[0].category} + Categories(lines[1..]) {
          var i :| 0 <= i < |lines| && lines[i].category == x;
          if i > 0 { assert lines[1..][i - 1] == lines[i]; }
        }
        forall x | x in Categories(lines[1..]) ensures x in Categories(lines) {
          var i :| 0 <= i < |lines[1..]| && lines[1..][i].category == x;
          assert lines[i + 1] == lines[1..][i];
        }
      }
    }
  }

  /** Two A lines of 2 and 1 and a B line of 3 compose into A: 3, B: 3. */
  lemma CompositionExample()
    ensures var lines := [OrderLine("", "A", "x", 10, 2, 20, "", Veg, false),
                          OrderLine("", "A", "y", 10, 1, 10, "", Veg, false),
                          OrderLine("", "B", "z", 10, 3, 30, "", Veg, false)];
            CategoryComposition(lines) == map["A" := 3, "B" := 3]
  {
    var lines := [OrderLine("", "A", "x", 10, 2, 20, "", Veg, false),
                  OrderLine("", "A", "y", 10, 1, 10, "", Veg, false),
                  OrderLine("", "B", "z", 10, 3, 30, "", Veg, false)];
    assert Categories(lines) == {"A", "B"} by {
      assert lines[0].category == "A" && lines[2].category == "B";
    }
  }

  /** The Python list object `st.session_state.orders`. It is an object, not a
      value: a generated bill keeps a reference to it, so later appends and
      pops on the same list are seen through the bill as well. */
  class OrderLedger {
    var lines: seq<OrderLine>

    ghost predicate Valid()
      reads this
    {
      AllWellFormed(lines)
    }

    constructor ()
      ensures Valid() && lines == []
    {
      lines := [];
    }

    /** `orders.append(line)` */
    method Append(line: OrderLine)
      requires Valid() && WellFormed(line)
      modifies this
      ensures Valid()
      ensures lines == old(lines) + [line]
    {
      lines := lines + [line];
    }

    /** `orders.pop()`: removes the last line and returns it. */
    method Pop() returns (last: OrderLine)
      requires Valid() && lines != []
      modifies this
      ensures Valid()
      ensures last == old(lines)[|old(lines)| - 1]
      ensures lines == old(lines)[..|old(lines)| - 1]
    {
      last := lines[|lines| - 1];
      lines := lines[..|lines| - 1];
    }

    /** Reads the three statistics shown beside the order. */
    method Statistics() returns (totalItems: int, subtotal: int, average: Option<real>)
      requires Valid()
      ensures totalItems == TotalItems(lines) && subtotal == Subtotal(lines) && average == AveragePrice(lines)
      ensures lines != [] ==> totalItems >= |lines| && subtotal >= 0 && average.Some?
      ensures subtotal == PriceTimesQuantity(lines)
    {
      totalItems, subtotal, average := TotalItems(lines), Subtotal(lines), AveragePrice(lines);
      SubtotalIsPriceTimesQuantity(lines);
    }
  }
}
