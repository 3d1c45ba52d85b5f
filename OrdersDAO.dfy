/** Model/DAO/OrdersDAOImpl.java: the in-memory order repository, a map from
    date to the list of that date's orders plus one counter that numbers new
    orders. The first half states each operation on values (OrderData); the
    class OrderRepository below performs it on Order objects and is proved to
    agree with those functions. */
module OrdersDAO {
  import opened Outcomes
  import opened JavaText
  import opened Decimals
  import opened Dates
  import opened Pricing
  import opened Orders

  /** The repository's contents as values. */
  type Storage = map<Date, seq<OrderData>>

  function Bucket(s: Storage, date: Date): seq<OrderData>
  {
    if date in s then s[date] else []
  }

  /** `stream().filter(number == num).findFirst()`: the position of the first
      order carrying the number. */
  function FirstIndex(bucket: seq<OrderData>, num: int): (r: Option<nat>)
    ensures r.Some? ==> r.value < |bucket| && bucket[r.value].orderNumber == num
    ensures r.Some? ==> forall j :: 0 <= j < r.value ==> bucket[j].orderNumber != num
    ensures r.None? <==> forall j :: 0 <= j < |bucket| ==> bucket[j].orderNumber != num
    decreases |bucket|
  {
    if bucket == [] then None
    else if bucket[0].orderNumber == num then Some(0)
    else match FirstIndex(bucket[1..], num)
      case None => None
      case Some(i) => Some(i + 1)
  }

  /** Every stored number was handed out by the counter, so lies below it. */
  predicate NumbersBelow(s: Storage, next: int)
  {
    forall d, i :: d in s && 0 <= i < |s[d]| ==> 1 <= s[d][i].orderNumber < next
  }

  /** No two stored orders, on any dates, share a number. */
  predicate DistinctNumbers(s: Storage)
  {
    forall d1, i, d2, j ::
      (d1 in s && d2 in s && 0 <= i < |s[d1]| && 0 <= j < |s[d2]|
       && s[d1][i].orderNumber == s[d2][j].orderNumber) ==> d1 == d2 && i == j
  }

  /** Every stored order's state and product are in the tables. */
  predicate AllResolve(s: Storage, products: Products, taxes: Taxes)
  {
    forall d, i :: d in s && 0 <= i < |s[d]| ==> Resolves(s[d][i].state, s[d][i].productType, products, taxes)
  }

  /** The repository invariant: the counter starts at 1 and only grows, the
      numbers in use are distinct and below it, and every order can be
      repriced. */
  predicate ValidStorage(s: Storage, next: int, products: Products, taxes: Taxes)
  {
    next >= 1 && NumbersBelow(s, next) && DistinctNumbers(s) && AllResolve(s, products, taxes)
  }

  // ---------------------------------------------------------------------
  // addOrder

  /** The order appended at the end of its date's list, the list created
      first when the date is new. */
  function Appended(s: Storage, date: Date, o: OrderData): (r: Storage)
    ensures r.Keys == s.Keys + {date}
    ensures r[date] == Bucket(s, date) + [o]
    ensures forall d :: d in s && d != date ==> r[d] == s[d]
  {
    s[date := Bucket(s, date) + [o]]
  }

  /** A new order numbered with the counter keeps the invariant with the
      counter one higher: the number is new because every stored number is
      below it. */
  /** Every entry of the appended storage is the new order at the end of
      its date's list, or the entry at the same place before. */
  lemma AppendedEntry(s: Storage, date: Date, o: OrderData, d: Date, i: nat)
    requires d in Appended(s, date, o) && i < |Appended(s, date, o)[d]|
    ensures if d == date && i == |Bucket(s, date)| then Appended(s, date, o)[d][i] == o
            else d in s && i < |s[d]| && Appended(s, date, o)[d][i] == s[d][i]
  {
  }

  lemma AddKeepsValid(s: Storage, next: int, date: Date, o: OrderData, products: Products, taxes: Taxes)
    requires ValidStorage(s, next, products, taxes)
    requires o.orderNumber == next && Resolves(o.state, o.productType, products, taxes)
    ensures ValidStorage(Appended(s, date, o), next + 1, products, taxes)
  {
    var s': Storage := Appended(s, date, o);
    forall d: Date, i: nat | d in s' && i < |s'[d]|
      ensures 1 <= s'[d][i].orderNumber < next + 1
      ensures Resolves(s'[d][i].state, s'[d][i].productType, products, taxes)
    {
      AppendedEntry(s, date, o, d, i);
    }
    forall d1: Date, i: nat, d2: Date, j: nat |
      d1 in s' && d2 in s' && i < |s'[d1]| && j < |s'[d2]|
      && s'[d1][i].orderNumber == s'[d2][j].orderNumber
      ensures d1 == d2 && i == j
    {
      AppendedEntry(s, date, o, d1, i);
      AppendedEntry(s, date, o, d2, j);
    }
  }

  // ---------------------------------------------------------------------
  // removeOrder

  /** removeOrder on values: the first order with the number is spliced out
      of its date's list and returned; an absent date or number changes
      nothing. The date stays a key even when its list becomes empty. */
  function Removed(s: Storage, date: Date, num: int): (Storage, Option<OrderData>)
  {
    if date !in s then (s, None)
    else match FirstIndex(s[date], num)
      case None => (s, None)
      case Some(i) => (s[date := s[date][..i] + s[date][i + 1..]], Some(s[date][i]))
  }

  /** The orders of a list whose number is not `num`, in their order. */
  function WithoutNumber(bucket: seq<OrderData>, num: int): (r: seq<OrderData>)
    ensures forall j :: 0 <= j < |r| ==> r[j].orderNumber != num
    decreases |bucket|
  {
    if bucket == [] then []
    else (if bucket[0].orderNumber == num then [] else [bucket[0]]) + WithoutNumber(bucket[1..], num)
  }

  lemma {:induction false} WithoutAbsent(bucket: seq<OrderData>, num: int)
    requires forall j :: 0 <= j < |bucket| ==> bucket[j].orderNumber != num
    ensures WithoutNumber(bucket, num) == bucket
    decreases |bucket|
  {
    if bucket != [] {
      WithoutAbsent(bucket[1..], num);
      assert [bucket[0]] + bucket[1..] == bucket;
    }
  }

  lemma {:induction false} WithoutAppend(a: seq<OrderData>, b: seq<OrderData>, num: int)
    ensures WithoutNumber(a + b, num) == WithoutNumber(a, num) + WithoutNumber(b, num)
    decreases |a|
  {
    if a == [] {
      assert a + b == b;
    } else {
      assert (a + b)[0] == a[0] && (a + b)[1..] == a[1..] + b;
      WithoutAppend(a[1..], b, num);
    }
  }

  /** With distinct numbers the splice is a filter: removing the first order
      with the number removes every order with it and keeps the others in
      their order. */
  lemma SpliceIsFilter(bucket: seq<OrderData>, i: nat, num: int)
    requires i < |bucket| && bucket[i].orderNumber == num
    requires forall j :: 0 <= j < |bucket| && j != i ==> bucket[j].orderNumber != num
    ensures bucket[..i] + bucket[i + 1..] == WithoutNumber(bucket, num)
  {
    var front, rest := bucket[..i], bucket[i..];
    assert bucket == front + rest;
    assert rest[0] == bucket[i] && rest[1..] == bucket[i + 1..];
    WithoutAppend(front, rest, num);
    WithoutAbsent(front, num);
    WithoutAbsent(bucket[i + 1..], num);
  }

  /** In a valid repository, removal leaves the date's list filtered to the
      other numbers, reports the order that had the number, and touches no
      other date. */
  lemma RemovedFilters(s: Storage, next: int, date: Date, num: int, products: Products, taxes: Taxes)
    requires ValidStorage(s, next, products, taxes)
    ensures var (s', removed) := Removed(s, date, num);
            s'.Keys == s.Keys
            && (forall d :: d in s && d != date ==> s'[d] == s[d])
            && (date in s ==> s'[date] == WithoutNumber(s[date], num))
            && (removed.Some? <==> date in s && exists j :: 0 <= j < |s[date]| && s[date][j].orderNumber == num)
            && (removed.Some? ==> removed.value in s[date] && removed.value.orderNumber == num)
  {
    if date in s {
      var b := s[date];
      match FirstIndex(b, num)
      case None =>
        WithoutAbsent(b, num);
      case Some(i) =>
        SpliceIsFilter(b, i, num);
    }
  }

  /** Removal keeps the invariant, with the counter unchanged: numbers
      are never handed out again. */
  lemma RemoveKeepsValid(s: Storage, next: int, date: Date, num: int, products: Products, taxes: Taxes)
    requires ValidStorage(s, next, products, taxes)
    ensures ValidStorage(Removed(s, date, num).0, next, products, taxes)
  {
    if date in s && FirstIndex(s[date], num).Some? {
      DeleteKeepsValid(s, next, date, FirstIndex(s[date], num).value, products, taxes);
    }
  }

  lemma SpliceAt(b: seq<OrderData>, i: nat, k: nat)
    requires i < |b| && k < |b| - 1
    ensures (b[..i] + b[i + 1..])[k] == b[if k >= i then k + 1 else k]
  {
  }

  /** Deleting one position of one list keeps the invariant: every order
      left was there before, at a position that moves by at most one. */
  lemma DeleteKeepsValid(s: Storage, next: int, date: Date, i: nat, products: Products, taxes: Taxes)
    requires ValidStorage(s, next, products, taxes) && date in s && i < |s[date]|
    ensures ValidStorage(s[date := s[date][..i] + s[date][i + 1..]], next, products, taxes)
  {
    var s': Storage := s[date := s[date][..i] + s[date][i + 1..]];
    forall d, k | d in s' && 0 <= k < |s'[d]|
      ensures 1 <= s'[d][k].orderNumber < next
      ensures Resolves(s'[d][k].state, s'[d][k].productType, products, taxes)
    {
      if d == date {
        SpliceAt(s[date], i, k);
      }
    }
    forall d1, k1, d2, k2 |
      d1 in s' && d2 in s' && 0 <= k1 < |s'[d1]| && 0 <= k2 < |s'[d2]|
      && s'[d1][k1].orderNumber == s'[d2][k2].orderNumber
      ensures d1 == d2 && k1 == k2
    {
      if d1 == date {
        SpliceAt(s[date], i, k1);
      }
      if d2 == date {
        SpliceAt(s[date], i, k2);
      }
      var o1 := if d1 == date && k1 >= i then k1 + 1 else k1;
      var o2 := if d2 == date && k2 >= i then k2 + 1 else k2;
      assert s[d1][o1].orderNumber == s[d2][o2].orderNumber;
    }
    assert NumbersBelow(s', next) && AllResolve(s', products, taxes) && DistinctNumbers(s');
  }

  // ---------------------------------------------------------------------
  // editAnOrder and update

  /** A field of the edit request replaces the current value unless it is
      the single space that means "keep". */
  function Pick(field: string, current: string): string
  {
    if field == " " then current else field
  }

  /** The state and product an edit request names are in the tables. */
  predicate EditsResolvable(fields: seq<string>, products: Products, taxes: Taxes)
  {
    (|fields| >= 2 && fields[1] != " " ==> fields[1] in taxes)
    && (|fields| >= 3 && fields[2] != " " ==> fields[2] in products)
  }

  /** The order after `update`, and the unchecked exception that cut it
      short, if any; fields already set stay set. */
  datatype Edited = Edited(order: OrderData, crash: Option<Unchecked>)

  /** The eight fields the pricing derives. */
  predicate SameDerived(a: OrderData, b: OrderData)
  {
    a.taxRate == b.taxRate && a.costPerSquareFoot == b.costPerSquareFoot
    && a.laborCostPerSquareFoot == b.laborCostPerSquareFoot && a.materialCost == b.materialCost
    && a.laborCost == b.laborCost && a.tax == b.tax && a.total == b.total
  }

  /** The area an edit writes: the whole number read through Double.valueOf
      and BigDecimal.valueOf(double), so "300" becomes 300.0. */
  function EditedArea(field: string, current: Decimal): (a: Decimal)
    requires field == " " || ParseInt(field).Some?
    ensures field == " " ==> a == current
    ensures field != " " ==> Value(a) == ParseInt(field).value as real && a.scale == 1
  {
    if field == " " then current else FromWholeDouble(ParseInt(field).value)
  }

  /** `update` on values: name, state, product and area are replaced in
      that order unless their field is " ", then the order is repriced. A
      request with fewer than four fields stops at the first missing one
      (ArrayIndexOutOfBoundsException), an unreadable area at the area
      (NumberFormatException); either way without repricing. */
  function Updated(o: OrderData, fields: seq<string>, products: Products, taxes: Taxes): (e: Edited)
    requires Resolves(o.state, o.productType, products, taxes)
    requires EditsResolvable(fields, products, taxes)
    ensures e.order.orderNumber == o.orderNumber
    ensures Resolves(e.order.state, e.order.productType, products, taxes)
    ensures e.crash.None? <==> |fields| >= 4 && (fields[3] == " " || ParseInt(fields[3]).Some?)
    ensures e.crash.None? ==>
              e.order == Priced(o.orderNumber, Pick(fields[0], o.customerName), Pick(fields[1], o.state),
                                Pick(fields[2], o.productType), EditedArea(fields[3], o.area), products, taxes)
    ensures e.crash.Some? ==> SameDerived(e.order, o) && e.order.area == o.area
    ensures e.crash.Some? ==> e.order.customerName == (if |fields| >= 1 then Pick(fields[0], o.customerName) else o.customerName)
    ensures e.crash.Some? ==> e.order.state == (if |fields| >= 2 then Pick(fields[1], o.state) else o.state)
    ensures e.crash.Some? ==> e.order.productType == (if |fields| >= 3 then Pick(fields[2], o.productType) else o.productType)
  {
    if |fields| < 1 then Edited(o, Some(IndexOutOfBounds))
    else
      var o1 := o.(customerName := Pick(fields[0], o.customerName));
      if |fields| < 2 then Edited(o1, Some(IndexOutOfBounds))
      else
        var o2 := o1.(state := Pick(fields[1], o.state));
        if |fields| < 3 then Edited(o2, Some(IndexOutOfBounds))
        else
          var o3 := o2.(productType := Pick(fields[2], o.productType));
          if |fields| < 4 then Edited(o3, Some(IndexOutOfBounds))
          else if fields[3] == " " then Edited(Repriced(o3, products, taxes), None)
          else match ParseInt(fields[3])
            case None => Edited(o3, Some(NumberFormat))
            case Some(n) => Edited(Repriced(o3.(area := FromWholeDouble(n)), products, taxes), None)
  }

  /** An edit that keeps every field leaves a consistently priced order as
      it was. */
  lemma KeepAllIsIdentity(o: OrderData, products: Products, taxes: Taxes)
    requires PricedConsistently(o, products, taxes)
    ensures Updated(o, [" ", " ", " ", " "], products, taxes) == Edited(o, None)
  {
    assert Pick(" ", o.customerName) == o.customerName;
    assert Repriced(o, products, taxes) == o;
  }

  /** The request " ,CA, ,300" splits into its four fields. */
  lemma SplitTestRequest()
    ensures JavaSplit(" ,CA, ,300") == [" ", "CA", " ", "300"]
  {
    var f := [" ", "CA", " ", "300"];
    assert JoinComma(f) == " ,CA, ,300";
    JavaSplitJoin(f);
  }

  lemma ParseThreeHundred()
    ensures ParseInt("300") == Some(300)
  {
    assert AllDigits("300");
    assert DigitsValue("300") == DigitsValue("30") * 10 + 0;
    assert DigitsValue("30") == DigitsValue("3") * 10 + 0;
  }

  /** The edit of the repository's own test: " ,CA, ,300" on John Doe's
      Carpet order in FL moves it to CA with area 300.0, keeping name and
      product. */
  lemma EditMovesStateAndArea(o: OrderData, products: Products, taxes: Taxes)
    requires o.customerName == "John Doe" && o.state == "FL" && o.productType == "Carpet"
    requires Resolves(o.state, o.productType, products, taxes) && "CA" in taxes
    ensures JavaSplit(" ,CA, ,300") == [" ", "CA", " ", "300"]
            && var e := Updated(o, JavaSplit(" ,CA, ,300"), products, taxes);
               e.crash == None && e.order.customerName == "John Doe" && e.order.state == "CA"
               && e.order.productType == "Carpet" && e.order.area == Decimal(3000, 1)
               && e.order.taxRate == taxes["CA"].taxRate
  {
    SplitTestRequest();
    ParseThreeHundred();
    var f := [" ", "CA", " ", "300"];
    var e := Updated(o, f, products, taxes);
    assert e.order.area == EditedArea("300", o.area) == FromWholeDouble(300);
  }

  /** editAnOrder on values: an unknown date throws, an unknown number
      returns null and changes nothing, otherwise the first order with the
      number is updated in place, keeping its position. */
  function EditResult(s: Storage, date: Date, num: int, fields: seq<string>, products: Products, taxes: Taxes)
    : (Storage, Outcome<Option<OrderData>, ModelError>)
    requires AllResolve(s, products, taxes) && EditsResolvable(fields, products, taxes)
  {
    if date !in s then (s, Thrown(OrderDateNotFound(num)))
    else match FirstIndex(s[date], num)
      case None => (s, Done(None))
      case Some(i) =>
        var e := Updated(s[date][i], fields, products, taxes);
        (s[date := s[date][i := e.order]],
         if e.crash.None? then Done(Some(e.order)) else Crashed(e.crash.value))
  }

  /** Editing changes only the order with the number: every other order, on
      every date, is as it was, and lists keep their length and keys. */
  lemma EditTouchesOneOrder(s: Storage, next: int, date: Date, num: int, fields: seq<string>,
                            products: Products, taxes: Taxes)
    requires ValidStorage(s, next, products, taxes) && EditsResolvable(fields, products, taxes)
    ensures var s' := EditResult(s, date, num, fields, products, taxes).0;
            s'.Keys == s.Keys
            && (forall d :: d in s ==> |s'[d]| == |s[d]|)
            && (forall d, i :: d in s && 0 <= i < |s[d]| && s[d][i].orderNumber != num ==> s'[d][i] == s[d][i])
            && (forall d, i :: d in s && 0 <= i < |s[d]| ==> s'[d][i].orderNumber == s[d][i].orderNumber)
  {
  }

  /** Editing keeps the invariant: numbers are not touched and the new state
      and product resolve, even when the update stops part way. */
  lemma EditKeepsValid(s: Storage, next: int, date: Date, num: int, fields: seq<string>,
                       products: Products, taxes: Taxes)
    requires ValidStorage(s, next, products, taxes) && EditsResolvable(fields, products, taxes)
    ensures ValidStorage(EditResult(s, date, num, fields, products, taxes).0, next, products, taxes)
  {
    var s': Storage := EditResult(s, date, num, fields, products, taxes).0;
    EditTouchesOneOrder(s, next, date, num, fields, products, taxes);
    forall d1, i, d2, j |
      d1 in s' && d2 in s' && 0 <= i < |s'[d1]| && 0 <= j < |s'[d2]|
      && s'[d1][i].orderNumber == s'[d2][j].orderNumber
      ensures d1 == d2 && i == j
    {
      assert s[d1][i].orderNumber == s[d2][j].orderNumber;
    }
  }

  // ---------------------------------------------------------------------
  // displayOrders

  /** `map(Order::toString).collect(joining())`: the renderings of the
      orders one after another. Order does not override toString, so a
      rendering depends on the object's identity only. */
  function Joined(orders: seq<Order>, render: Order -> string): string
    decreases |orders|
  {
    if orders == [] then "" else render(orders[0]) + Joined(orders[1..], render)
  }

  /** Appending an order appends its rendering to the listing. */
  lemma {:induction false} JoinedAppend(orders: seq<Order>, o: Order, render: Order -> string)
    ensures Joined(orders + [o], render) == Joined(orders, render) + render(o)
    decreases |orders|
  {
    if orders != [] {
      assert (orders + [o])[1..] == orders[1..] + [o];
      JoinedAppend(orders[1..], o, render);
    }
  }

  // ---------------------------------------------------------------------
  // The repository object

  /** The values of a list of orders. */
  function DataOf(orders: seq<Order>): (r: seq<OrderData>)
    reads set o | o in orders
    ensures |r| == |orders| && forall i :: 0 <= i < |orders| ==> r[i] == orders[i].Data()
  {
    seq(|orders|, i requires 0 <= i < |orders| reads orders => orders[i].Data())
  }

  lemma DataOfSplice(orders: seq<Order>, i: nat)
    requires i < |orders|
    ensures DataOf(orders[..i] + orders[i + 1..]) == DataOf(orders)[..i] + DataOf(orders)[i + 1..]
  {
    var r := orders[..i] + orders[i + 1..];
    assert forall k :: 0 <= k < |r| ==> r[k] == orders[if k < i then k else k + 1];
  }

  class OrderRepository {
    var storage: map<Date, seq<Order>>
    var orderAmount: int
    const products: Products
    const taxes: Taxes

    /** The order objects held. */
    ghost function Objs(): set<Order>
      reads this
    {
      set d, o | d in storage && o in storage[d] :: o
    }

    ghost function Contents(): (c: Storage)
      reads this, Objs()
      ensures c.Keys == storage.Keys
    {
      map d | d in storage :: DataOf(storage[d])
    }

    /** The values held depend on the repository and its orders alone. */
    twostate lemma ContentsFramed()
      requires unchanged(this) && forall o | o in old(Objs()) :: unchanged(o)
      ensures Contents() == old(Contents())
    {
    }

    /** The repository invariant on the values held. */
    ghost predicate Valid()
      reads this, Objs()
    {
      ValidStorage(Contents(), orderAmount, products, taxes)
    }

    constructor (products: Products, taxes: Taxes)
      ensures storage == map[] && orderAmount == 1
      ensures this.products == products && this.taxes == taxes
      ensures Valid()
    {
      storage := map[];
      orderAmount := 1;
      this.products := products;
      this.taxes := taxes;
    }

    /** Two positions holding the same object hold the same number, so in a
        valid repository they are the same position. */
    lemma ObjectsDistinct()
      requires Valid()
      ensures forall d1, i, d2, j ::
                (d1 in storage && d2 in storage && 0 <= i < |storage[d1]| && 0 <= j < |storage[d2]|
                 && storage[d1][i] == storage[d2][j]) ==> d1 == d2 && i == j
    {
      forall d1, i, d2, j |
        d1 in storage && d2 in storage && 0 <= i < |storage[d1]| && 0 <= j < |storage[d2]|
        && storage[d1][i] == storage[d2][j]
        ensures d1 == d2 && i == j
      {
        assert Contents()[d1][i].orderNumber == Contents()[d2][j].orderNumber;
      }
    }

    /** addOrder: the order is priced under the counter's number, appended
        to its date's list, and the counter moves on. */
    method AddOrder(date: Date, customerName: string, state: string, productType: string, area: Decimal)
      returns (order: Order)
      requires Valid()
      requires Resolves(state, productType, products, taxes)
      modifies this
      ensures fresh(order) && Valid()
      ensures order.Data() == Priced(old(orderAmount), customerName, state, productType, area, products, taxes)
      ensures orderAmount == old(orderAmount) + 1
      ensures storage == old(storage)[date := (if date in old(storage) then old(storage)[date] else []) + [order]]
      ensures Contents() == Appended(old(Contents()), date, order.Data())
    {
      var orderNum := orderAmount;
      order := new Order(orderNum, customerName, state, productType, area, products, taxes);
      ContentsFramed();
      Store(date, order);
      AddKeepsValid(old(Contents()), orderNum, date, order.Data(), products, taxes);
    }

    /** The bookkeeping of addOrder: the order appended to its date's list,
        the list created first when the date is new, and the counter moved on. */
    method Store(date: Date, order: Order)
      modifies this
      ensures storage == old(storage)[date := (if date in old(storage) then old(storage)[date] else []) + [order]]
      ensures orderAmount == old(orderAmount) + 1
      ensures Contents() == Appended(old(Contents()), date, order.Data())
    {
      ghost var before := Contents();
      var ordersForDate := if date in storage then storage[date] else [];
      storage := storage[date := ordersForDate + [order]];
      orderAmount := orderAmount + 1;
      ghost var after := Appended(before, date, order.Data());
      forall d | d in storage
        ensures DataOf(storage[d]) == after[d]
      {
        if d == date {
          assert DataOf(storage[d]) == DataOf(ordersForDate) + [order.Data()];
        }
      }
      assert Contents() == after;
    }

    /** editAnOrder: the first order with the number on the date is updated
        through its reference; the lists themselves are not reassigned. */
    method EditAnOrder(date: Date, orderNum: int, edits: string) returns (r: Outcome<Order?, ModelError>)
      requires Valid()
      requires EditsResolvable(JavaSplit(edits), products, taxes)
      modifies Objs()
      ensures storage == old(storage) && orderAmount == old(orderAmount) && Valid()
      ensures r.Done? && r.value != null ==> date in storage && r.value in storage[date]
      ensures (Contents(), ReportedOrder(r)) == EditResult(old(Contents()), date, orderNum, JavaSplit(edits), products, taxes)
    {
      if date in storage {
        var ordersForDate := storage[date];
        ghost var before := Contents();
        var found := FirstIndex(DataOf(ordersForDate), orderNum);
        if found.None? {
          r := Done(null);
        } else {
          assert ordersForDate[found.value] in storage[date];
          assert ordersForDate[found.value] in Objs();
          var order, crash := UpdateFound(date, found.value, edits);
          r := if crash.None? then Done(order) else Crashed(crash.value);
        }
        EditKeepsValid(before, orderAmount, date, orderNum, JavaSplit(edits), products, taxes);
        return;
      }
      r := Thrown(OrderDateNotFound(orderNum));
    }

    /** The mapping step of editAnOrder's stream: `update` applied to the
        order found at position i of the date's list, which changes that
        entry of the contents and no other. */
    method UpdateFound(date: Date, i: nat, edits: string) returns (order: Order, crash: Option<Unchecked>)
      requires Valid() && date in storage && i < |storage[date]|
      requires EditsResolvable(JavaSplit(edits), products, taxes)
      modifies storage[date][i]
      ensures order == storage[date][i]
      ensures var e := Updated(old(Contents())[date][i], JavaSplit(edits), products, taxes);
              crash == e.crash && Contents() == old(Contents())[date := old(Contents())[date][i := e.order]]
    {
      ghost var before := Contents();
      order := storage[date][i];
      assert order.Data() == before[date][i];
      ObjectsDistinct();
      crash := Update(edits, order);
      ghost var after := before[date := before[date][i := order.Data()]];
      forall d, j | d in storage && 0 <= j < |storage[d]|
        ensures storage[d][j].Data() == after[d][j]
      {
        if d != date || j != i {
          assert storage[d][j] != order;
          assert storage[d][j].Data() == old(storage[d][j].Data());
        }
      }
      forall d | d in storage
        ensures DataOf(storage[d]) == after[d]
      {
      }
    }

    /** update: the setters the request asks for, then the repricing; a
        missing field or unreadable area stops it with the earlier setters
        applied. */
    method Update(edits: string, order: Order) returns (crash: Option<Unchecked>)
      requires Resolves(order.state, order.productType, products, taxes)
      requires EditsResolvable(JavaSplit(edits), products, taxes)
      modifies order
      ensures Edited(order.Data(), crash) == Updated(old(order.Data()), JavaSplit(edits), products, taxes)
    {
      var fields := JavaSplit(edits);
      if |fields| < 1 {
        return Some(IndexOutOfBounds);
      }
      if fields[0] != " " {
        order.SetCustomerName(fields[0]);
      }
      if |fields| < 2 {
        return Some(IndexOutOfBounds);
      }
      if fields[1] != " " {
        order.SetState(fields[1]);
      }
      if |fields| < 3 {
        return Some(IndexOutOfBounds);
      }
      if fields[2] != " " {
        order.SetProductType(fields[2]);
      }
      if |fields| < 4 {
        return Some(IndexOutOfBounds);
      }
      if fields[3] != " " {
        var n := ParseInt(fields[3]);
        if n.None? {
          return Some(NumberFormat);
        }
        order.SetArea(FromWholeDouble(n.value));
      }
      order.Reprice(products, taxes);
      return None;
    }

    /** The list update of removeOrder: the order at `index` spliced out of
        its date's list. */
    method Unlink(date: Date, index: nat)
      requires date in storage && index < |storage[date]|
      modifies this
      ensures storage == old(storage)[date := old(storage[date][..index] + storage[date][index + 1..])]
      ensures orderAmount == old(orderAmount)
      ensures Contents() == old(Contents()[date := Contents()[date][..index] + Contents()[date][index + 1..]])
    {
      ghost var before := Contents();
      var ordersForDate := storage[date];
      storage := storage[date := ordersForDate[..index] + ordersForDate[index + 1..]];
      ghost var after := before[date := before[date][..index] + before[date][index + 1..]];
      forall d | d in storage
        ensures DataOf(storage[d]) == after[d]
      {
        if d == date {
          DataOfSplice(ordersForDate, index);
        }
      }
      assert Contents() == after;
    }

    /** removeOrder: a search for the first order with the number, then a
        splice of that position out of its date's list. */
    method RemoveOrder(date: Date, orderNum: int) returns (order: Order?)
      requires Valid()
      modifies this
      ensures orderAmount == old(orderAmount) && Valid()
      ensures storage.Keys == old(storage).Keys
      ensures order != null ==> date in old(storage) && order in old(storage)[date]
      ensures (Contents(), if order == null then None else Some(order.Data()))
              == Removed(old(Contents()), date, orderNum)
    {
      order := null;
      if date in storage {
        ghost var before := Contents();
        var ordersForDate := storage[date];
        var index := -1;
        var i := 0;
        while i < |ordersForDate|
          invariant 0 <= i <= |ordersForDate|
          invariant index == -1 && order == null
          invariant forall j :: 0 <= j < i ==> ordersForDate[j].orderNumber != orderNum
        {
          if ordersForDate[i].orderNumber == orderNum {
            order := ordersForDate[i];
            index := i;
            break;
          }
          i := i + 1;
        }
        assert index == -1 ==> FirstIndex(before[date], orderNum).None?;
        if index != -1 {
          assert FirstIndex(before[date], orderNum) == Some(index);
          Unlink(date, index);
        }
        RemoveKeepsValid(before, orderAmount, date, orderNum, products, taxes);
      }
    }

    /** getOrder: the first order on the date with the number, or null; a
        date with no list fails on the null list. */
    function GetOrder(date: Date, orderNum: int): (r: Checked<Order?>)
      reads this, Objs()
      ensures date !in storage <==> r == Fail(NullPointer)
      ensures r.Ok? && r.value != null ==>
                exists i :: 0 <= i < |storage[date]| && storage[date][i] == r.value
                            && r.value.orderNumber == orderNum
                            && forall j :: 0 <= j < i ==> storage[date][j].orderNumber != orderNum
      ensures r.Ok? && r.value == null ==>
                forall j :: 0 <= j < |storage[date]| ==> storage[date][j].orderNumber != orderNum
    {
      if date !in storage then Fail(NullPointer)
      else
        match FirstIndex(DataOf(storage[date]), orderNum)
        case None => Ok(null)
        case Some(i) => Ok(storage[date][i])
    }

    /** displayOrders: the renderings of the date's orders in list order; a
        date with no list fails on the null list. */
    function DisplayOrders(date: Date, render: Order -> string): (r: Checked<string>)
      reads this
      ensures date !in storage <==> r == Fail(NullPointer)
      ensures date in storage ==> r == Ok(Joined(storage[date], render))
    {
      if date !in storage then Fail(NullPointer) else Ok(Joined(storage[date], render))
    }
  }
}
