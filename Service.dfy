/** Service/FlooringMasteryServiceImpl.java: each request runs the order
    repository first and then the audit store, turning ModelExceptions into
    ServiceExceptions. The first half states the three updating requests on
    values (a World: repository contents, counter and order files) and
    proves that the order files keep mirroring the repository; the class
    FlooringService below runs the two objects and is proved to agree with
    those functions. The JSON request and its date parsing are replaced by
    already-parsed arguments. */
module Service {
  import opened Outcomes
  import opened JavaText
  import opened Decimals
  import opened Dates
  import opened Pricing
  import opened Orders
  import opened OrdersDAO
  import opened AuditDAO

  /** Everything the updating requests change, as values. */
  datatype World = World(contents: Storage, next: int, files: Files)

  /** The order files mirror the repository: a date with a list has a file
      holding one line per order, in list order; any other date's file is
      missing or empty. */
  ghost predicate Agrees(c: Storage, files: Files)
  {
    (forall d :: d in c ==> FileName(d) in files && files[FileName(d)] == SerializeAll(c[d]))
    && (forall d: Date :: d !in c ==> Lines(files, FileName(d)) == [])
  }

  /** The repository invariant, and the files agreeing with it. */
  ghost predicate Coherent(w: World, products: Products, taxes: Taxes)
  {
    ValidStorage(w.contents, w.next, products, taxes) && Agrees(w.contents, w.files)
  }

  /** The repository starts empty; with no order file holding lines the two
      agree from the start. */
  lemma EmptyCoherent(files: Files, products: Products, taxes: Taxes)
    requires forall d: Date :: Lines(files, FileName(d)) == []
    ensures Coherent(World(map[], 1, files), products, taxes)
  {
  }

  // ---------------------------------------------------------------------
  // The lines of a list of orders

  lemma SerializeAllAppend(a: seq<OrderData>, b: seq<OrderData>)
    ensures SerializeAll(a + b) == SerializeAll(a) + SerializeAll(b)
  {
    assert forall k :: 0 <= k < |a + b| ==> (a + b)[k] == if k < |a| then a[k] else b[k - |a|];
  }

  /** Writing a date's list and its file together keeps the two in
      agreement: no other date shares the file. */
  lemma AgreesAfterWrite(c: Storage, files: Files, date: Date, b: seq<OrderData>)
    requires Agrees(c, files)
    ensures Agrees(c[date := b], files[FileName(date) := SerializeAll(b)])
  {
    var c', f' := c[date := b], files[FileName(date) := SerializeAll(b)];
    forall d | d in c'
      ensures FileName(d) in f' && f'[FileName(d)] == SerializeAll(c'[d])
    {
      if d != date {
        FileNamesDiffer(d, date);
      }
    }
    forall d: Date | d !in c'
      ensures Lines(f', FileName(d)) == []
    {
      FileNamesDiffer(d, date);
    }
  }

  /** The file of a date holds the lines of its list, none when it has no
      list. */
  lemma LinesOfBucket(c: Storage, files: Files, date: Date)
    requires Agrees(c, files)
    ensures Lines(files, FileName(date)) == SerializeAll(Bucket(c, date))
  {
    if date !in c {
      var none: seq<OrderData> := [];
      assert Bucket(c, date) == none;
    }
  }

  /** The orders of a list that removal keeps, when the list is one
      order. */
  function KeptOf(o: OrderData, num: int): seq<OrderData>
  {
    if o.orderNumber == num then [] else [o]
  }

  lemma WithoutSnoc(front: seq<OrderData>, last: OrderData, num: int)
    ensures WithoutNumber(front + [last], num) == WithoutNumber(front, num) + KeptOf(last, num)
  {
    WithoutAppend(front, [last], num);
    assert [last][1..] == [];
  }

  /** Removal's step on an order's line keeps it exactly when its number
      is not the one removed. */
  lemma RemoveStepOnLine(o: OrderData, num: int)
    ensures Step(Remove(num), Serialize(o)) == Ok(SerializeAll(KeptOf(o, num)))
  {
    LeadingNumberOfLine(o);
    if o.orderNumber == num {
      var none: seq<string> := [];
      assert SerializeAll(KeptOf(o, num)) == none;
    } else {
      assert SerializeAll(KeptOf(o, num)) == [Serialize(o)];
    }
  }

  /** Removing a number from a file of order lines leaves the lines of the
      orders without that number. */
  lemma {:induction false} RemoveSerialized(b: seq<OrderData>, num: int)
    ensures Rewritten(SerializeAll(b), Remove(num)) == Ok(SerializeAll(WithoutNumber(b, num)))
    decreases |b|
  {
    var lines := SerializeAll(b);
    if b == [] {
      var none: seq<string> := [];
      assert lines == none;
    } else {
      var n := |b| - 1;
      var front, last := b[..n], b[n];
      assert b == front + [last];
      WithoutSnoc(front, last, num);
      RemoveSerialized(front, num);
      assert lines[..n] == SerializeAll(front);
      RemoveStepOnLine(last, num);
      assert Rewritten(lines, Remove(num)) == Then(Rewritten(lines[..n], Remove(num)), Step(Remove(num), lines[n]));
      SerializeAllAppend(WithoutNumber(front, num), KeptOf(last, num));
    }
  }

  /** Each line of a list of orders leads with its order's number. */
  lemma SerializedNumbers(b: seq<OrderData>)
    ensures forall k :: 0 <= k < |b| ==> LeadingNumber(SerializeAll(b)[k]) == Ok(b[k].orderNumber)
  {
    forall k | 0 <= k < |b|
      ensures LeadingNumber(SerializeAll(b)[k]) == Ok(b[k].orderNumber)
    {
      LeadingNumberOfLine(b[k]);
    }
  }

  /** Editing a file of order lines with an order whose number only the
      i-th order carries puts its line in the i-th place. */
  lemma EditSerialized(b: seq<OrderData>, i: nat, o: OrderData)
    requires i < |b| && b[i].orderNumber == o.orderNumber
    requires forall j :: 0 <= j < |b| && j != i ==> b[j].orderNumber != o.orderNumber
    ensures Rewritten(SerializeAll(b), Edit(Some(o))) == Ok(SerializeAll(b[i := o]))
  {
    var lines := SerializeAll(b);
    SerializedNumbers(b);
    EditOneLine(lines, i, o);
    assert lines[i := Serialize(o)] == SerializeAll(b[i := o]);
  }

  /** Editing with no order (null) fails on a file with order lines and
      leaves an empty one as it is. */
  lemma NullEditSerialized(b: seq<OrderData>)
    ensures Rewritten(SerializeAll(b), Edit(None)) == if b == [] then Ok([]) else Fail(NullPointer)
  {
    if b != [] {
      LeadingNumberOfLine(b[0]);
      NullEditFails(SerializeAll(b));
    } else {
      var none: seq<string> := [];
      assert SerializeAll(b) == none;
    }
  }

  // ---------------------------------------------------------------------
  // addOrder

  /** addOrder on values: Long.parseLong of the area, then the repository's
      add and the audit's append of the new order's line. */
  function AddService(w: World, date: Date, name: string, state: string, productType: string, area: string,
                      products: Products, taxes: Taxes): (World, Outcome<OrderData, ServiceError>)
    requires Resolves(state, productType, products, taxes)
  {
    match ParseInt(area)
    case None => (w, Crashed(NumberFormat))
    case Some(n) =>
      var o := Priced(w.next, name, state, productType, FromLong(n), products, taxes);
      (World(Appended(w.contents, date, o), w.next + 1, AppendedFile(w.files, date, Serialize(o))), Done(o))
  }

  /** addOrder keeps the repository invariant and the files mirroring it;
      it fails exactly when the area is not a whole number. */
  lemma AddKeepsCoherent(w: World, date: Date, name: string, state: string, productType: string, area: string,
                         products: Products, taxes: Taxes)
    requires Coherent(w, products, taxes) && Resolves(state, productType, products, taxes)
    ensures var (w', r) := AddService(w, date, name, state, productType, area, products, taxes);
            Coherent(w', products, taxes)
            && (r.Done? <==> ParseInt(area).Some?)
            && (r.Done? ==> r.value.orderNumber == w.next && w'.next == w.next + 1)
  {
    if ParseInt(area).Some? {
      var o := Priced(w.next, name, state, productType, FromLong(ParseInt(area).value), products, taxes);
      var b := Bucket(w.contents, date) + [o];
      AddKeepsValid(w.contents, w.next, date, o, products, taxes);
      SerializeAllAppend(Bucket(w.contents, date), [o]);
      LinesOfBucket(w.contents, w.files, date);
      assert SerializeAll([o]) == [Serialize(o)];
      assert AppendedFile(w.files, date, Serialize(o)) == w.files[FileName(date) := SerializeAll(b)];
      AgreesAfterWrite(w.contents, w.files, date, b);
    }
  }

  // ---------------------------------------------------------------------
  // editAnOrder

  /** The request string the service builds from the four edit fields. */
  function EditRequest(name: string, state: string, productType: string, area: string): string
  {
    name + "," + state + "," + productType + "," + area
  }

  /** The repository reads the request back as the four fields when none
      holds a comma and the area is not empty; an empty area is dropped as
      a trailing empty field, leaving three. */
  lemma EditRequestFields(name: string, state: string, productType: string, area: string)
    requires ',' !in name && ',' !in state && ',' !in productType && ',' !in area
    ensures area != "" ==> JavaSplit(EditRequest(name, state, productType, area)) == [name, state, productType, area]
    ensures area == "" && productType != "" ==> JavaSplit(EditRequest(name, state, productType, area)) == [name, state, productType]
  {
    var f := [name, state, productType, area];
    assert JoinComma(f) == EditRequest(name, state, productType, area) by {
      assert JoinComma(f[3..]) == area;
      assert JoinComma(f[2..]) == productType + "," + area;
      assert JoinComma(f[1..]) == state + "," + (productType + "," + area);
    }
    if area != "" {
      JavaSplitJoin(f);
    } else if productType != "" {
      var g := [name, state, productType];
      assert JoinComma(g) == name + "," + (state + "," + productType) by {
        assert JoinComma(g[2..]) == productType;
        assert JoinComma(g[1..]) == state + "," + productType;
      }
      assert EditRequest(name, state, productType, area) == JoinComma(g) + ",";
      assert ',' in JoinComma(g) + ",";
      SplitAllJoin(g);
      SplitAllTrailingComma(JoinComma(g));
      assert SplitAll(JoinComma(g) + ",") == g + [""];
      assert DropTrailingEmpty(g + [""]) == DropTrailingEmpty(g) by {
        assert (g + [""])[..3] == g;
      }
    }
  }

  /** editAnOrder on values: the repository's edit; on a return, the audit
      rewrites the date's file with the returned order (null when no order
      had the number). */
  function EditService(w: World, date: Date, num: int, edits: string, products: Products, taxes: Taxes)
    : (World, Outcome<Option<OrderData>, ServiceError>)
    requires AllResolve(w.contents, products, taxes) && EditsResolvable(JavaSplit(edits), products, taxes)
  {
    var (c', res) := EditResult(w.contents, date, num, JavaSplit(edits), products, taxes);
    match res
    case Thrown(e) => (w.(contents := c'), Thrown(ServiceExceptions(e)))
    case Crashed(k) => (w.(contents := c'), Crashed(k))
    case Done(o) =>
      match RewriteFile(w.files, date, Edit(o))
      case Done(f) => (World(c', w.next, f), Done(o))
      case Thrown(e) => (w.(contents := c'), Thrown(ServiceExceptions(e)))
      case Crashed(k) => (w.(contents := c'), Crashed(k))
  }

  /** An edit keeps the repository valid and the next number as it was;
      an unknown date, and only that, throws before any file is read. */
  lemma EditKeepsValidWorld(w: World, date: Date, num: int, edits: string, products: Products, taxes: Taxes)
    requires Coherent(w, products, taxes) && EditsResolvable(JavaSplit(edits), products, taxes)
    ensures var (w', r) := EditService(w, date, num, edits, products, taxes);
            ValidStorage(w'.contents, w'.next, products, taxes) && w'.next == w.next
            && (date !in w.contents <==> r == Thrown(ServiceExceptions(OrderDateNotFound(num))))
  {
    EditKeepsValid(w.contents, w.next, date, num, JavaSplit(edits), products, taxes);
  }

  /** An edit that ends without an unchecked exception keeps the files
      mirroring the repository. */
  lemma EditKeepsCoherent(w: World, date: Date, num: int, edits: string, products: Products, taxes: Taxes)
    requires Coherent(w, products, taxes) && EditsResolvable(JavaSplit(edits), products, taxes)
    ensures var (w', r) := EditService(w, date, num, edits, products, taxes);
            !r.Crashed? ==> Coherent(w', products, taxes)
  {
    if date in w.contents {
      match FirstIndex(w.contents[date], num) {
        case None => EditAbsentService(w, date, num, edits, products, taxes);
        case Some(i) => EditFoundService(w, date, num, edits, i, products, taxes);
      }
    }
  }

  /** The edit of a number the date's list lacks: the repository hands the
      audit a null order; an empty file is left as it is, and on any other
      the audit's comparison with the null order throws a
      NullPointerException. Nothing changes either way. */
  lemma EditAbsentService(w: World, date: Date, num: int, edits: string, products: Products, taxes: Taxes)
    requires Coherent(w, products, taxes) && EditsResolvable(JavaSplit(edits), products, taxes)
    requires date in w.contents && FirstIndex(w.contents[date], num).None?
    ensures var (w', r) := EditService(w, date, num, edits, products, taxes);
            w' == w && r == (if w.contents[date] == [] then Done(None) else Crashed(NullPointer))
  {
    assert EditResult(w.contents, date, num, JavaSplit(edits), products, taxes) == (w.contents, Done(None));
    EditAbsentRewrite(w, date, num, products, taxes);
  }

  /** The edit of the i-th order of a date: when repricing does not crash,
      the files still mirror the repository. */
  lemma EditFoundService(w: World, date: Date, num: int, edits: string, i: nat, products: Products, taxes: Taxes)
    requires Coherent(w, products, taxes) && EditsResolvable(JavaSplit(edits), products, taxes)
    requires date in w.contents && FirstIndex(w.contents[date], num) == Some(i)
    ensures var (w', r) := EditService(w, date, num, edits, products, taxes);
            !r.Crashed? ==> Coherent(w', products, taxes)
  {
    var fields := JavaSplit(edits);
    var b := w.contents[date];
    var e := Updated(b[i], fields, products, taxes);
    if e.crash.None? {
      EditKeepsValid(w.contents, w.next, date, num, fields, products, taxes);
      assert EditResult(w.contents, date, num, fields, products, taxes)
             == (w.contents[date := b[i := e.order]], Done(Some(e.order)));
      EditFoundAgrees(w, date, i, e.order, products, taxes);
    }
  }

  /** The audit's rewrite with the null order the repository returns for an
      unknown number: an empty file is left as it is, any other crashes. */
  lemma EditAbsentRewrite(w: World, date: Date, num: int, products: Products, taxes: Taxes)
    requires Coherent(w, products, taxes) && date in w.contents
    ensures w.contents[date] == [] ==> RewriteFile(w.files, date, Edit(None)) == Done(w.files)
    ensures w.contents[date] != [] ==> RewriteFile(w.files, date, Edit(None)) == Crashed(NullPointer)
  {
    var b := w.contents[date];
    ScannedSerialized(b);
    NullEditSerialized(b);
    if b == [] {
      RewriteEmptyFile(w.files, date, Edit(None));
    }
  }

  /** The audit's rewrite after a completed edit of the i-th order of a
      date keeps the files mirroring the repository. */
  lemma EditFoundAgrees(w: World, date: Date, i: nat, o: OrderData, products: Products, taxes: Taxes)
    requires Coherent(w, products, taxes) && date in w.contents && i < |w.contents[date]|
    requires o.orderNumber == w.contents[date][i].orderNumber
    ensures RewriteFile(w.files, date, Edit(Some(o))) == Done(w.files[FileName(date) := SerializeAll(w.contents[date][i := o])])
    ensures Agrees(w.contents[date := w.contents[date][i := o]], w.files[FileName(date) := SerializeAll(w.contents[date][i := o])])
  {
    var b := w.contents[date];
    forall j | 0 <= j < |b| && j != i
      ensures b[j].orderNumber != o.orderNumber
    {
      assert b[j].orderNumber != b[i].orderNumber;
    }
    ScannedSerialized(b);
    EditSerialized(b, i, o);
    AgreesAfterWrite(w.contents, w.files, date, b[i := o]);
  }

  /** The completed repository edit followed by the audit's rewrite, step
      by step: the world after both and the service's outcome. */
  lemma EditServiceDone(w: World, date: Date, num: int, edits: string, products: Products, taxes: Taxes,
                        c: Storage, o: Option<OrderData>, files: Files, audited: Outcome<(), ModelError>)
    requires AllResolve(w.contents, products, taxes) && EditsResolvable(JavaSplit(edits), products, taxes)
    requires EditResult(w.contents, date, num, JavaSplit(edits), products, taxes) == (c, Done(o))
    requires Reflects(audited, RewriteFile(w.files, date, Edit(o)), files, w.files)
    ensures EditService(w, date, num, edits, products, taxes) == (World(c, w.next, files), Rethrow(audited, o))
  {
  }

  // ---------------------------------------------------------------------
  // removeOrder

  /** removeOrder on values: the repository's removal, whose result the
      service ignores, then the audit's removal of the number's line. */
  function RemoveService(w: World, date: Date, num: int): (World, Outcome<(), ServiceError>)
  {
    var c' := Removed(w.contents, date, num).0;
    match RewriteFile(w.files, date, Remove(num))
    case Done(f) => (World(c', w.next, f), Done(()))
    case Thrown(e) => (w.(contents := c'), Thrown(ServiceExceptions(e)))
    case Crashed(k) => (w.(contents := c'), Crashed(k))
  }

  /** The repository's removal followed by the audit's rewrite, step by
      step: the world after both and the service's outcome. */
  lemma RemoveServiceSteps(w: World, date: Date, num: int, c: Storage, files: Files, audited: Outcome<(), ModelError>)
    requires c == Removed(w.contents, date, num).0
    requires Reflects(audited, RewriteFile(w.files, date, Remove(num)), files, w.files)
    ensures RemoveService(w, date, num) == (World(c, w.next, files), Rethrow(audited, ()))
  {
  }

  /** removeOrder keeps the files mirroring the repository. It never ends
      in an unchecked exception; it throws only when the date has no list
      and no file, and an unknown number still rewrites the file. */
  lemma RemoveKeepsCoherent(w: World, date: Date, num: int, products: Products, taxes: Taxes)
    requires Coherent(w, products, taxes)
    ensures var (w', r) := RemoveService(w, date, num);
            Coherent(w', products, taxes) && w'.next == w.next
            && (r.Done? || r == Thrown(ServiceExceptions(OrderFileMissing(FileName(date)))))
            && (r.Thrown? ==> date !in w.contents && w' == w)
  {
    RemoveKeepsValid(w.contents, w.next, date, num, products, taxes);
    var name := FileName(date);
    if date in w.contents {
      var b := w.contents[date];
      var b' := WithoutNumber(b, num);
      RemovedFilters(w.contents, w.next, date, num, products, taxes);
      assert Removed(w.contents, date, num).0 == w.contents[date := b'];
      ScannedSerialized(b);
      RemoveSerialized(b, num);
      assert RewriteFile(w.files, date, Remove(num)) == Done(w.files[name := SerializeAll(b')]);
      AgreesAfterWrite(w.contents, w.files, date, b');
    } else if name in w.files {
      assert Lines(w.files, name) == [];
      RewriteEmptyFile(w.files, date, Remove(num));
    }
  }

  // ---------------------------------------------------------------------
  // The service object

  class FlooringService {
    const orders: OrderRepository
    const audit: AuditStore

    constructor (orders: OrderRepository, audit: AuditStore)
      ensures this.orders == orders && this.audit == audit
    {
      this.orders := orders;
      this.audit := audit;
    }

    /** The state of both objects as values. */
    ghost function Now(): World
      reads orders, orders.Objs(), audit
    {
      World(orders.Contents(), orders.orderAmount, audit.files)
    }

    /** displayOrders: the repository's listing of the date. */
    function DisplayOrders(date: Date, render: Order -> string): (r: Checked<string>)
      reads orders
      ensures r.Ok? <==> date in orders.storage
      ensures r.Ok? ==> r.value == Joined(orders.storage[date], render)
    {
      orders.DisplayOrders(date, render)
    }

    /** addOrder: Long.parseLong of the area, the repository's add, then the
        audit's append; the returned order is the new one. */
    method AddOrder(date: Date, name: string, state: string, productType: string, area: string)
      returns (r: Outcome<Order, ServiceError>)
      requires orders.Valid() && Resolves(state, productType, orders.products, orders.taxes)
      modifies orders, audit
      ensures orders.Valid()
      ensures r.Done? ==> fresh(r.value)
      ensures var (w', res) := AddService(old(Now()), date, name, state, productType, area, orders.products, orders.taxes);
              Now() == w' && ReportedOrder(r) == match res
                                                 case Done(o) => Done(Some(o))
                                                 case Thrown(e) => Thrown(e)
                                                 case Crashed(k) => Crashed(k)
    {
      ghost var w := Now();
      var parsed := ParseInt(area);
      if parsed.None? {
        return Crashed(NumberFormat);
      }
      var order := orders.AddOrder(date, name, state, productType, FromLong(parsed.value));
      ghost var o := order.Data();
      AuditAdd(date, order);
      r := Done(order);
      assert Now() == World(Appended(w.contents, date, o), w.next + 1, AppendedFile(w.files, date, Serialize(o)));
    }

    /** The audit's half of addOrder, which leaves the repository and the
        new order as they were. */
    method AuditAdd(date: Date, order: Order)
      modifies audit
      ensures orders.Contents() == old(orders.Contents()) && unchanged(orders)
      ensures order.Data() == old(order.Data())
      ensures audit.files == AppendedFile(old(audit.files), date, Serialize(order.Data()))
    {
      ghost var objs: set<object> := orders.Objs();
      assert audit !in objs;
      audit.AddOrder(date, order);
      orders.ContentsFramed();
    }

    /** editAnOrder: the four fields joined into one request for the
        repository, then the audit's rewrite with the order it returned;
        an unchecked exception from either passes through. */
    method EditAnOrder(date: Date, orderNum: int, name: string, state: string, productType: string, area: string)
      returns (r: Outcome<Order?, ServiceError>)
      requires orders.Valid()
      requires EditsResolvable(JavaSplit(EditRequest(name, state, productType, area)), orders.products, orders.taxes)
      modifies orders.Objs(), audit
      ensures orders.Valid() && orders.storage == old(orders.storage)
      ensures (Now(), ReportedOrder(r))
              == EditService(old(Now()), date, orderNum, EditRequest(name, state, productType, area),
                             orders.products, orders.taxes)
    {
      ghost var w := Now();
      var edits := EditRequest(name, state, productType, area);
      var edited := orders.EditAnOrder(date, orderNum, edits);
      if edited.Done? {
        var order := edited.value;
        ghost var c := orders.Contents();
        ghost var reported := DataOrNull(order);
        var audited := AuditEdit(date, order);
        EditServiceDone(w, date, orderNum, edits, orders.products, orders.taxes, c, reported, audit.files, audited);
        assert Now() == World(c, w.next, audit.files);
        r := match audited
             case Done(_) => Done(order)
             case Thrown(e) => Thrown(ServiceExceptions(e))
             case Crashed(k) => Crashed(k);
      } else {
        r := if edited.Thrown? then Thrown(ServiceExceptions(edited.error)) else Crashed(edited.kind);
      }
    }

    /** The audit's half of editAnOrder: the rewrite with the order the
        repository returned, which leaves the repository and the order as
        they were. */
    method AuditEdit(date: Date, order: Order?) returns (r: Outcome<(), ModelError>)
      modifies audit
      ensures orders.Contents() == old(orders.Contents()) && unchanged(orders)
      ensures DataOrNull(order) == old(DataOrNull(order))
      ensures Reflects(r, RewriteFile(old(audit.files), date, Edit(DataOrNull(order))), audit.files, old(audit.files))
    {
      ghost var objs: set<object> := orders.Objs();
      assert audit !in objs;
      r := audit.EditAnOrder(date, order);
      orders.ContentsFramed();
    }

    /** The audit's half of removeOrder, which leaves the repository as it was. */
    method AuditRemove(date: Date, orderNum: int) returns (r: Outcome<(), ModelError>)
      modifies audit
      ensures orders.Contents() == old(orders.Contents()) && unchanged(orders)
      ensures Reflects(r, RewriteFile(old(audit.files), date, Remove(orderNum)), audit.files, old(audit.files))
    {
      ghost var objs: set<object> := orders.Objs();
      assert audit !in objs;
      r := audit.RemoveOrder(date, orderNum);
      orders.ContentsFramed();
    }

    /** removeOrder: the repository's removal, then the audit's, whatever the
        repository found. */
    method RemoveOrder(date: Date, orderNum: int) returns (r: Outcome<(), ServiceError>)
      requires orders.Valid()
      modifies orders, audit
      ensures orders.Valid()
      ensures (Now(), r) == RemoveService(old(Now()), date, orderNum)
    {
      ghost var w := Now();
      var _ := orders.RemoveOrder(date, orderNum);
      ghost var c := orders.Contents();
      assert c == Removed(w.contents, date, orderNum).0;
      var audited := AuditRemove(date, orderNum);
      RemoveServiceSteps(w, date, orderNum, c, audit.files, audited);
      assert Now() == World(c, w.next, audit.files);
      r := Rethrow(audited, ());
    }

    /** getOrder: the repository's lookup; the order found is the first on
        the date with the number. */
    function GetOrder(date: Date, orderNum: int): (r: Checked<Order?>)
      reads orders, orders.Objs()
      ensures r.Ok? <==> date in orders.storage
      ensures r.Ok? ==> DataOrNull(r.value) == match FirstIndex(orders.Contents()[date], orderNum)
                                               case None => None
                                               case Some(i) => Some(orders.Contents()[date][i])
    {
      orders.GetOrder(date, orderNum)
    }

    /** exportAllData: the audit's export. */
    method ExportAllData(listing: seq<string>) returns (r: Outcome<(), ServiceError>)
      modifies audit
      ensures audit.files == old(audit.files)
      ensures r.Done? <==> ExportOf(audit.files, listing).Ok?
      ensures r.Done? ==> audit.exportFile == ExportOf(audit.files, listing).value
      ensures r.Crashed? ==> r.kind == ExportOf(audit.files, listing).kind
    {
      var exported := audit.Export(listing);
      r := if exported.Ok? then Done(()) else Crashed(exported.kind);
    }
  }
}
