/** The session state of the billing page and the user actions that change
    it (restaurant_management.py, lines 181-193 and the handlers of the
    sidebar, the order actions, the payment panel and "Generate Bill"). */
module SessionState {
  import opened Wrappers
  import opened Catalog
  import opened Ledger
  import opened Billing
  import opened Sales

  class Session {
    /** `st.session_state.orders`, the current list object. */
    var orders: OrderLedger
    var paymentMode: Option<string>
    var customer: Option<CustomerInfo>
    var discounts: Discounts
    var dailySales: seq<BillRecord>

    ghost predicate Valid()
      reads this, orders
    {
      && orders.Valid()
      && Attainable(discounts)
      && (paymentMode.Some? ==> paymentMode.value in PaymentMethods())
      && (customer.Some? ==> 1 <= customer.value.table <= 50)
      && (orders.lines == [] ==> paymentMode == None && discounts == Discounts(0, 0))
    }

    /** The initial session state (lines 182-191). */
    constructor ()
      ensures Valid() && fresh(orders)
      ensures orders.lines == [] && paymentMode == None && customer == None
      ensures discounts == Discounts(0, 0) && dailySales == []
    {
      orders := new OrderLedger();
      paymentMode := None;
      customer := None;
      discounts := Discounts(0, 0);
      dailySales := [];
    }

    /** The customer expander (lines 202-210). */
    method SetCustomer(name: string, table: int, phone: string)
      requires Valid() && 1 <= table <= 50
      modifies this`customer
      ensures Valid() && customer == Some(CustomerInfo(name, table, phone))
    {
      customer := Some(CustomerInfo(name, table, phone));
    }

    /** "Add to Order" (lines 254-265): appends one line for an item of the
        chosen category; every earlier line stays as it was. */
    method AddFromMenu(timestamp: string, category: string, item: MenuItem, quantity: int, instructions: string)
      requires Valid() && Offers(category, item) && 1 <= quantity <= 20
      modifies orders
      ensures Valid()
      ensures orders.lines == old(orders.lines) + [MenuLine(timestamp, category, item, quantity, instructions)]
      ensures orders.lines[|orders.lines| - 1].total == item.price * quantity
      ensures Subtotal(orders.lines) == old(Subtotal(orders.lines)) + item.price * quantity
      ensures TotalItems(orders.lines) == old(TotalItems(orders.lines)) + quantity
    {
      var line := MenuLine(timestamp, category, item, quantity, instructions);
      AggregatesAppend(orders.lines, line);
      orders.Append(line);
    }

    /** A quick-add button (lines 279-291): one line of quantity 1 whose
        total is the button's price. */
    method QuickAdd(timestamp: string, k: nat)
      requires Valid() && k < |PopularItems()|
      modifies orders
      ensures Valid()
      ensures orders.lines == old(orders.lines) + [QuickLine(timestamp, PopularItems()[k])]
      ensures Subtotal(orders.lines) == old(Subtotal(orders.lines)) + PopularItems()[k].price
      ensures TotalItems(orders.lines) == old(TotalItems(orders.lines)) + 1
    {
      var line := QuickLine(timestamp, PopularItems()[k]);
      AggregatesAppend(orders.lines, line);
      orders.Append(line);
    }

    /** "Clear Last Item" (lines 359-362): drops the last line when there is
        one; an empty order stays empty. When the order becomes empty, the
        rerun skips the payment and discount panels (lines 424-457), so their
        widgets lose their state and the payment mode and discounts start
        again from their defaults the next time the order has lines. */
    method ClearLastItem()
      requires Valid()
      modifies orders, this`paymentMode, this`discounts
      ensures Valid() && orders == old(orders)
      ensures old(orders.lines) == [] ==> orders.lines == []
      ensures old(orders.lines) != [] ==> orders.lines == old(orders.lines)[..|old(orders.lines)| - 1]
      ensures orders.lines == [] ==> paymentMode == None && discounts == Discounts(0, 0)
      ensures orders.lines != [] ==> paymentMode == old(paymentMode) && discounts == old(discounts)
    {
      if orders.lines != [] {
        var _ := orders.Pop();
        if orders.lines == [] {
          paymentMode := None;
          discounts := Discounts(0, 0);
        }
      }
    }

    /** "Clear All Orders" (line 366): binds a new empty list. The previous
        list object, which a generated bill may still hold, keeps its lines.
        As after the last "Clear Last Item", the payment mode and discounts
        return to their defaults. */
    method ClearAllOrders()
      requires Valid()
      modifies this`orders, this`paymentMode, this`discounts
      ensures Valid() && fresh(orders) && orders.lines == []
      ensures old(orders).lines == old(orders.lines)
      ensures paymentMode == None && discounts == Discounts(0, 0)
    {
      orders := new OrderLedger();
      paymentMode := None;
      discounts := Discounts(0, 0);
    }

    /** The payment select box (line 433), shown only while the order is
        non-empty (line 424). */
    method ChoosePaymentMode(mode: string)
      requires Valid() && orders.lines != [] && mode in PaymentMethods()
      modifies this`paymentMode
      ensures Valid() && paymentMode == Some(mode)
    {
      paymentMode := Some(mode);
    }

    /** The discount panel (lines 442-457), shown only while the order is
        non-empty (line 424): a fresh configuration for the selected type,
        then five points more for a loyalty member. */
    method ChooseDiscount(choice: DiscountChoice, isMember: bool)
      requires Valid() && orders.lines != [] && WithinWidgets(choice)
      modifies this`discounts
      ensures Valid() && discounts == Configure(choice, isMember)
    {
      match choice {
        case Percentage(points) =>
          discounts := Discounts(points, 0);
        case FixedAmount(amount) =>
          discounts := Discounts(0, amount);
        case NoDiscount =>
          discounts := Discounts(0, 0);
      }
      if isMember {
        discounts := discounts.(percentage := discounts.percentage + 5);
      }
    }

    /** The live bill panel (lines 315-329) for the current order and
        configuration. */
    method CurrentBill() returns (b: Bill)
      requires Valid()
      ensures b == LiveBill(orders.lines, discounts)
      ensures b.subtotal == PriceTimesQuantity(orders.lines) as real >= 0.0
      ensures 0.0 <= b.discount <= b.subtotal * 55.0 / 100.0 + discounts.fixed as real
      ensures b.finalTotal == (b.subtotal - b.discount) * 118.0 / 100.0
      ensures b.finalTotal < 0.0 <==> b.discount > b.subtotal
    {
      b := LiveBill(orders.lines, discounts);
      SubtotalIsPriceTimesQuantity(orders.lines);
      DiscountBounds(b.subtotal, discounts);
    }

    /** "Generate Bill" (lines 467-479): appends one record holding the
        current list object, payment mode and configuration, with the order's
        subtotal before discount and tax. The order itself is kept. The button
        exists only while the order is non-empty (line 460). By then every run
        has set the customer fields (lines 206-210) and the payment select box
        (line 433, whose untouched value is its first option). */
    method GenerateBill(date: string, time: string, notes: string)
      requires Valid() && orders.lines != [] && customer.Some? && paymentMode.Some?
      modifies this`dailySales
      ensures Valid()
      ensures dailySales == old(dailySales) + [BillRecord(date, time, customer, orders, paymentMode,
                                                          Subtotal(orders.lines), discounts, notes)]
      ensures dailySales[|dailySales| - 1].totalAmount == PriceTimesQuantity(orders.lines)
      ensures orders == old(orders) && orders.lines == old(orders.lines)
      ensures DailyTotal(dailySales, date) == old(DailyTotal(dailySales, date)) + Subtotal(orders.lines)
      ensures Revenue(dailySales) == old(Revenue(dailySales)) + Subtotal(orders.lines)
      ensures PaymentCount(dailySales, paymentMode.value) == old(PaymentCount(dailySales, paymentMode.value)) + 1
    {
      var record := BillRecord(date, time, customer, orders, paymentMode, Subtotal(orders.lines), discounts, notes);
      HistoryAppend(dailySales, record);
      SubtotalIsPriceTimesQuantity(orders.lines);
      dailySales := dailySales + [record];
    }
  }

  /** The bill record shares the list object with the session: a
      "Clear Last Item" after "Generate Bill" empties the list the record
      holds, while the recorded total stays; after "Clear All Orders" new
      lines no longer reach the record. */
  method BillSharesOrderList() returns (heldAfterPop: seq<OrderLine>, held: seq<OrderLine>, recorded: int)
    ensures heldAfterPop == [] && recorded == 80
    ensures held == [QuickLine("12:01:00", PopularItems()[1])]
  {
    var s := new Session();
    var chips := Menu()[0].items[0];
    LookupAt(0);
    assert Offers(Menu()[0].name, chips);
    s.AddFromMenu("12:00:00", Menu()[0].name, chips, 1, "");
    s.SetCustomer("", 1, "");
    s.ChoosePaymentMode(PaymentMethods()[0]);
    s.GenerateBill("2024-01-01", "12:00:05", "");
    s.ClearLastItem();
    heldAfterPop := s.dailySales[0].orders.lines;
    recorded := s.dailySales[0].totalAmount;
    s.QuickAdd("12:01:00", 1);
    s.ClearAllOrders();
    s.QuickAdd("12:02:00", 2);
    held := s.dailySales[0].orders.lines;
  }

  /** Emptying the order discards the earlier payment and discount choices: a
      bill generated after the order is refilled carries the default payment
      mode and no discount unless they are chosen again. */
  method ChoicesResetAfterEmptyOrder() returns (mode: Option<string>, discount: Discounts)
    ensures mode == Some("💵 Cash") && discount == Discounts(0, 0)
  {
    var s := new Session();
    var chips := Menu()[0].items[0];
    LookupAt(0);
    assert Offers(Menu()[0].name, chips);
    s.AddFromMenu("12:00:00", Menu()[0].name, chips, 1, "");
    s.SetCustomer("", 1, "");
    s.ChoosePaymentMode(PaymentMethods()[1]);
    s.ChooseDiscount(Percentage(10), true);
    s.ClearAllOrders();
    s.AddFromMenu("12:01:00", Menu()[0].name, chips, 1, "");
    s.ChoosePaymentMode(PaymentMethods()[0]);
    s.GenerateBill("2024-01-01", "12:01:05", "");
    mode := s.dailySales[0].paymentMode;
    discount := s.dailySales[0].discount;
  }
}
