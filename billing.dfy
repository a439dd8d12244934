/** The discount configuration chosen on the payment panel and the live bill
    computed from the order and that configuration
    (restaurant_management.py, lines 320-329 and 442-457). */
module Billing {
  import opened Catalog
  import opened Ledger

  /** `st.session_state.discounts`: percentage points and a fixed amount. */
  datatype Discounts = Discounts(percentage: int, fixed: int)

  /** The "Discount Type" select box with the value of the widget it shows. */
  datatype DiscountChoice = NoDiscount | Percentage(points: int) | FixedAmount(amount: int)

  /** The ranges the widgets allow: the slider runs from 0 to 50, the amount
      input has minimum 0. */
  predicate WithinWidgets(choice: DiscountChoice)
  {
    match choice
    case NoDiscount => true
    case Percentage(points) => 0 <= points <= 50
    case FixedAmount(amount) => amount >= 0
  }

  /** The configuration a discount type selects: a fresh dictionary with the
      other field zeroed (lines 444-451). */
  function Selected(choice: DiscountChoice): (d: Discounts)
    ensures d.percentage == 0 || d.fixed == 0
    ensures WithinWidgets(choice) ==> 0 <= d.percentage <= 50 && d.fixed >= 0
    ensures !choice.Percentage? ==> d.percentage == 0
    ensures !choice.FixedAmount? ==> d.fixed == 0
  {
    match choice
    case NoDiscount => Discounts(0, 0)
    case Percentage(points) => Discounts(points, 0)
    case FixedAmount(amount) => Discounts(0, amount)
  }

  /** The loyalty checkbox adds five percentage points (line 457). */
  function WithLoyalty(d: Discounts, isMember: bool): (r: Discounts)
    ensures r.fixed == d.fixed && r.percentage >= d.percentage
    ensures r == d <==> !isMember
  {
    if isMember then d.(percentage := d.percentage + 5) else d
  }

  /** Every configuration the panel produces is attainable, so after
      loyalty the percentage is at most 55. */
  function Configure(choice: DiscountChoice, isMember: bool): (d: Discounts)
    ensures WithinWidgets(choice) ==> Attainable(d)
  {
    WithLoyalty(Selected(choice), isMember)
  }

  /** The configurations the payment panel can produce. */
  predicate Attainable(d: Discounts)
  {
    0 <= d.percentage <= 55 && d.fixed >= 0 && (d.fixed != 0 ==> d.percentage == 0 || d.percentage == 5)
  }

  /** Loyalty adds exactly five points and never touches the fixed amount. */
  lemma LoyaltyAddsFive(choice: DiscountChoice)
    ensures Configure(choice, true).percentage == Configure(choice, false).percentage + 5
    ensures Configure(choice, true).fixed == Configure(choice, false).fixed
  {
  }

  /** Conversely every attainable configuration is produced by some choice of
      discount type, widget value and loyalty checkbox. */
  lemma AttainableIsConfigured(d: Discounts)
    requires Attainable(d)
    ensures exists choice, isMember :: WithinWidgets(choice) && Configure(choice, isMember) == d
  {
    if d.fixed != 0 {
      assert Configure(FixedAmount(d.fixed), d.percentage == 5) == d;
    } else if d.percentage > 50 {
      assert Configure(Percentage(d.percentage - 5), true) == d;
    } else {
      assert Configure(Percentage(d.percentage), false) == d;
    }
  }

  /** The live bill panel. */
  datatype Bill = Bill(subtotal: real, discount: real, tax: real, finalTotal: real)

  /** 18% GST, exact. */
  const TaxRate: real := 0.18

  /** Lines 320-324: the percentage part only when positive, the fixed part
      only when positive. For the configurations the panel produces the
      guards make no difference: the discount is pct% of the subtotal plus
      the fixed amount, both summands applying together when loyalty stacks
      onto a fixed discount. */
  function DiscountAmount(subtotal: real, d: Discounts): (r: real)
    ensures d.percentage >= 0 && d.fixed >= 0 ==> r == subtotal * d.percentage as real / 100.0 + d.fixed as real
  {
    Scale(subtotal, d.percentage as real);
    Scale(subtotal, 0.0);
    (if d.percentage > 0 then subtotal * (d.percentage as real / 100.0) else 0.0)
    + (if d.fixed > 0 then d.fixed as real else 0.0)
  }

  /** Lines 315-329. The final total is the discounted subtotal with 18%
      added; nothing is clamped, so tax, final total and the discount's
      excess over the subtotal agree in sign, and a discount larger than the
      subtotal gives negative tax and total. */
  function LiveBill(lines: seq<OrderLine>, d: Discounts): (b: Bill)
    ensures b.subtotal == Subtotal(lines) as real
    ensures b.tax == (b.subtotal - b.discount) * 18.0 / 100.0
    ensures b.finalTotal == (b.subtotal - b.discount) * 118.0 / 100.0
    ensures b.tax < 0.0 <==> b.discount > b.subtotal
    ensures b.finalTotal < 0.0 <==> b.discount > b.subtotal
    ensures b.finalTotal == 0.0 <==> b.discount == b.subtotal
  {
    var subtotal := Subtotal(lines) as real;
    var discount := DiscountAmount(subtotal, d);
    var tax := (subtotal - discount) * TaxRate;
    Bill(subtotal, discount, tax, subtotal - discount + tax)
  }

  /** The discount of an attainable configuration on a non-negative subtotal
      is non-negative and at most 55% of the subtotal plus the fixed amount. */
  lemma DiscountBounds(subtotal: real, d: Discounts)
    requires subtotal >= 0.0 && Attainable(d)
    ensures 0.0 <= DiscountAmount(subtotal, d) <= subtotal * 55.0 / 100.0 + d.fixed as real
  {
    var p := d.percentage as real;
    ScaleMonotone(subtotal, 0.0, p);
    ScaleMonotone(subtotal, p, 55.0);
    Scale(subtotal, 0.0);
    Scale(subtotal, 55.0);
  }

  /** Loyalty takes a further 5% of the subtotal off the discounted amount. */
  lemma LoyaltyDiscountsFivePercent(subtotal: real, d: Discounts)
    requires d.percentage >= 0
    ensures DiscountAmount(subtotal, WithLoyalty(d, true)) == DiscountAmount(subtotal, d) + subtotal * 5.0 / 100.0
  {
    var p := d.percentage as real;
    Scale(subtotal, p);
    Scale(subtotal, p + 5.0);
    Scale(subtotal, 5.0);
    Scale(subtotal, 0.0);
    assert subtotal * (p + 5.0) == subtotal * p + subtotal * 5.0;
  }

  /** `x * (p / 100)` as Python evaluates it is `x * p / 100`. */
  lemma Scale(x: real, p: real)
    ensures x * (p / 100.0) == x * p / 100.0
    ensures p == 0.0 ==> x * (p / 100.0) == 0.0
  {
  }

  lemma ScaleMonotone(x: real, p: real, q: real)
    requires x >= 0.0 && p <= q
    ensures x * (p / 100.0) <= x * (q / 100.0)
  {
    assert x * (q / 100.0) - x * (p / 100.0) == x * ((q - p) / 100.0);
  }

  /** With no discount the final total is the subtotal plus 18%. */
  lemma NoDiscountBill(lines: seq<OrderLine>)
    ensures var b := LiveBill(lines, Discounts(0, 0));
            b.discount == 0.0 && b.finalTotal == Subtotal(lines) as real * 118.0 / 100.0
  {
  }

  /** An empty order with no discount bills nothing. */
  lemma EmptyBill()
    ensures LiveBill([], Discounts(0, 0)) == Bill(0.0, 0.0, 0.0, 0.0)
  {
  }

  /** Two lines of 100 x 2 and 50 x 1 with a 10% discount: subtotal 250,
      discount 25, tax 40.5, final 265.5. */
  lemma TenPercentExample()
    ensures var lines := [OrderLine("", "A", "x", 100, 2, 200, "", Veg, false),
                          OrderLine("", "A", "y", 50, 1, 50, "", Veg, false)];
            LiveBill(lines, Discounts(10, 0)) == Bill(250.0, 25.0, 40.5, 265.5)
  {
  }

  /** Selecting 10% and then ticking loyalty bills at 15%. */
  lemma LoyaltyStackingExample(lines: seq<OrderLine>)
    ensures Configure(Percentage(10), true) == Discounts(15, 0)
    ensures LiveBill(lines, Configure(Percentage(10), true)).discount == Subtotal(lines) as real * 15.0 / 100.0
  {
  }
}
