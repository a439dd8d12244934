/** The bill records kept in `st.session_state.daily_sales` and the two
    group-by summaries of the analytics dashboard
    (restaurant_management.py, lines 202-210, 432, 469-479, 541, 549). */
module Sales {
  import opened Wrappers
  import opened Ledger
  import opened Billing

  /** The customer expander: the table input runs from 1 to 50. */
  datatype CustomerInfo = CustomerInfo(name: string, table: int, phone: string)

  /** One generated bill. `orders` is the ledger object itself, as the Python
      dictionary holds the list and not a copy of it; `totalAmount` is the
      number computed when the bill was generated. */
  datatype BillRecord = BillRecord(
    date: string,
    time: string,
    customer: Option<CustomerInfo>,
    orders: OrderLedger,
    paymentMode: Option<string>,
    totalAmount: int,
    discount: Discounts,
    notes: string)

  /** The options of the payment select box; the first is the value of an
      untouched box. */
  function PaymentMethods(): (r: seq<string>)
    ensures |r| == 4 && r[0] == "💵 Cash"
    ensures forall i, j :: 0 <= i < j < |r| ==> r[i] != r[j]
  {
    ["💵 Cash", "💳 Card", "📱 UPI", "💰 Digital Wallet"]
  }

  /** Revenue of one date: one group of `groupby('date')['total_amount'].sum()`. */
  function DailyTotal(sales: seq<BillRecord>, date: string): (r: int)
    ensures (forall i :: 0 <= i < |sales| ==> sales[i].totalAmount >= 0) ==> 0 <= r <= Revenue(sales)
  {
    if sales == [] then 0
    else (if sales[0].date == date then sales[0].totalAmount else 0) + DailyTotal(sales[1..], date)
  }

  /** Bills paid with one mode: one entry of `value_counts()`. */
  function PaymentCount(sales: seq<BillRecord>, mode: string): (r: nat)
    ensures r <= |sales|
  {
    if sales == [] then 0
    else (if sales[0].paymentMode == Some(mode) then 1 else 0) + PaymentCount(sales[1..], mode)
  }

  function Revenue(sales: seq<BillRecord>): int
  {
    if sales == [] then 0 else sales[0].totalAmount + Revenue(sales[1..])
  }

  function Dates(sales: seq<BillRecord>): set<string>
  {
    set i | 0 <= i < |sales| :: sales[i].date
  }

  /** The modes that occur; `value_counts` leaves out a missing mode. */
  function Modes(sales: seq<BillRecord>): set<string>
  {
    set i | 0 <= i < |sales| && sales[i].paymentMode.Some? :: sales[i].paymentMode.value
  }

  function DailyTotals(sales: seq<BillRecord>): (m: map<string, int>)
    ensures m.Keys == Dates(sales)
  {
    map d | d in Dates(sales) :: DailyTotal(sales, d)
  }

  function PaymentCounts(sales: seq<BillRecord>): (m: map<string, nat>)
    ensures m.Keys == Modes(sales)
  {
    map p | p in Modes(sales) :: PaymentCount(sales, p)
  }

  /** Appending a record adds its amount to its own date only, counts its
      mode once, and leaves every other group as it was. */
  lemma {:induction false} HistoryAppend(sales: seq<BillRecord>, b: BillRecord)
    ensures forall d :: DailyTotal(sales + [b], d) == DailyTotal(sales, d) + (if b.date == d then b.totalAmount else 0)
    ensures forall m :: PaymentCount(sales + [b], m) == PaymentCount(sales, m) + (if b.paymentMode == Some(m) then 1 else 0)
    ensures Revenue(sales + [b]) == Revenue(sales) + b.totalAmount
  {
    if sales != [] {
      HistoryAppend(sales[1..], b);
      assert (sales + [b])[1..] == sales[1..] + [b];
    }
  }

  /** A date with no bill has revenue 0; when every bill carries the same
      date, that date's revenue is all the revenue. */
  lemma {:induction false} DailyTotalOutsideDates(sales: seq<BillRecord>, date: string)
    ensures date !in Dates(sales) ==> DailyTotal(sales, date) == 0
    ensures (forall i :: 0 <= i < |sales| ==> sales[i].date == date) ==> DailyTotal(sales, date) == Revenue(sales)
  {
    if sales != [] {
      DailyTotalOutsideDates(sales[1..], date);
      assert forall i :: 0 <= i < |sales[1..]| ==> sales[1..][i] == sales[i + 1];
      assert sales[0].date in Dates(sales);
      assert Dates(sales[1..]) <= Dates(sales) by {
        forall x | x in Dates(sales[1..]) ensures x in Dates(sales) {
          var i :| 0 <= i < |sales[1..]| && sales[1..][i].date == x;
          assert sales[i + 1].date == x;
        }
      }
    }
  }

  /** A mode has a positive count exactly when some bill was paid with it. */
  lemma {:induction false} PaymentCountBounds(sales: seq<BillRecord>, mode: string)
    ensures PaymentCount(sales, mode) > 0 <==> mode in Modes(sales)
  {
    if sales != [] {
      PaymentCountBounds(sales[1..], mode);
      assert Modes(sales) == (if sales[0].paymentMode.Some? then {sales[0].paymentMode.value} else {}) + Modes(sales[1..]) by {
        forall x | x in Modes(sales)
          ensures x in (if sales[0].paymentMode.Some? then {sales[0].paymentMode.value} else {}) + Modes(sales[1..])
        {
          var i :| 0 <= i < |sales| && sales[i].paymentMode.Some? && sales[i].paymentMode.value == x;
          if i > 0 { assert sales[1..][i - 1] == sales[i]; }
        }
        forall x | x in Modes(sales[1..]) ensures x in Modes(sales) {
          var i :| 0 <= i < |sales[1..]| && sales[1..][i].paymentMode.Some? && sales[1..][i].paymentMode.value == x;
          assert sales[i + 1] == sales[1..][i];
        }
      }
    }
  }
}
