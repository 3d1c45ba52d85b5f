/** Model/DAO/AuditDAOImpl.java: one text file of order lines per date, kept
    in the orders folder, and an export of every such file into one backup
    file. The file system is a map from file name to the file's lines; the
    folder listing export walks is a given sequence of names. */
module AuditDAO {
  import opened Outcomes
  import opened JavaText
  import opened Decimals
  import opened Dates
  import opened Pricing
  import opened Orders

  /** The files of the orders folder: name to lines. A name that is not a key
      is no file (a missing file, or a sub-folder such as Data or Backup). */
  type Files = map<string, seq<string>>

  /** The orders folder every name lives in. */
  const OrdersFolder: string := "src\\main\\java\\Files\\"

  function Path(name: string): string
  {
    OrdersFolder + name
  }

  /** The file of a date's orders: "Orders_" + MMddyyyy + ".txt". */
  function FileName(d: Date): (name: string)
    ensures |name| == 19 && name[7..15] == CompactDate(d)
  {
    "Orders_" + CompactDate(d) + ".txt"
  }

  /** The date can be read back from its file's name. */
  lemma FileNameRoundTrip(d: Date)
    ensures ParseCompact(FileName(d)[7..15]) == d
  {
    CompactRoundTrip(d);
  }

  /** Distinct dates have distinct files. */
  lemma FileNameInjective(d1: Date, d2: Date)
    requires FileName(d1) == FileName(d2)
    ensures d1 == d2
  {
    FileNameRoundTrip(d1);
    FileNameRoundTrip(d2);
  }

  /** Distinct dates have distinct files. */
  lemma FileNamesDiffer(d1: Date, d2: Date)
    requires d1 != d2
    ensures FileName(d1) != FileName(d2)
  {
    FileNameRoundTrip(d1);
    FileNameRoundTrip(d2);
  }

  /** The lines of a file, a missing file read as empty. */
  function Lines(files: Files, name: string): seq<string>
  {
    if name in files then files[name] else []
  }

  /** addOrder on the file system: the line appended to the date's file,
      which is created empty first when missing. */
  function AppendedFile(files: Files, date: Date, line: string): (r: Files)
    ensures r.Keys == files.Keys + {FileName(date)}
    ensures r[FileName(date)] == Lines(files, FileName(date)) + [line]
    ensures forall name :: name in files && name != FileName(date) ==> r[name] == files[name]
  {
    files[FileName(date) := Lines(files, FileName(date)) + [line]]
  }

  // ---------------------------------------------------------------------
  // The order line

  /** BigDecimal.toString of each amount. */
  function Texts(amounts: seq<Decimal>): (t: seq<string>)
    ensures |t| == |amounts|
  {
    seq(|amounts|, k requires 0 <= k < |amounts| => DecimalText(amounts[k]))
  }

  /** The twelve fields of an order line, as Java's string concatenation
      prints them: Integer.toString for the number, BigDecimal.toString for
      the amounts. */
  function Fields(o: OrderData): (f: seq<string>)
    ensures |f| == 12
  {
    [IntText(o.orderNumber), o.customerName, o.state]
    + Texts([o.taxRate]) + [o.productType]
    + Texts([o.area, o.costPerSquareFoot, o.laborCostPerSquareFoot, o.materialCost, o.laborCost, o.tax, o.total])
  }

  /** The line written for an order: its fields joined by commas. */
  function Serialize(o: OrderData): string
  {
    JoinComma(Fields(o))
  }

  /** The lines of a list of orders, one per order, in order. */
  function SerializeAll(orders: seq<OrderData>): (lines: seq<string>)
    ensures |lines| == |orders|
    ensures forall i :: 0 <= i < |orders| ==> lines[i] == Serialize(orders[i])
  {
    seq(|orders|, i requires 0 <= i < |orders| => Serialize(orders[i]))
  }

  /** What edit and remove read first on each line: Integer.valueOf of the
      first comma-separated field. A line of commas only has no field
      (ArrayIndexOutOfBoundsException); a first field that is no number is a
      NumberFormatException. */
  function LeadingNumber(line: string): Checked<int>
  {
    var fields := JavaSplit(line);
    if |fields| == 0 then Fail(IndexOutOfBounds)
    else match ParseInt(fields[0])
      case None => Fail(NumberFormat)
      case Some(n) => Ok(n)
  }

  /** Splitting an order line gives back its twelve fields, and the first
      reads as the order number, when name, state and product hold no
      comma. */
  lemma SplitSerialized(o: OrderData)
    requires ',' !in o.customerName && ',' !in o.state && ',' !in o.productType
    ensures JavaSplit(Serialize(o)) == Fields(o)
    ensures ParseInt(Fields(o)[0]) == Some(o.orderNumber)
  {
    var f := Fields(o);
    assert forall i :: 0 <= i < 12 ==> ',' !in f[i];
    JavaSplitJoin(f);
    ParseIntText(o.orderNumber);
  }

  /** The leading field of an order line is the order number, even when
      the name holds commas. */
  lemma LeadingNumberOfLine(o: OrderData)
    ensures LeadingNumber(Serialize(o)) == Ok(o.orderNumber)
  {
    var f := Fields(o);
    assert Serialize(o) == f[0] + "," + JoinComma(f[1..]);
    JavaSplitHead(f[0], JoinComma(f[1..]));
    ParseIntText(o.orderNumber);
  }

  /** An order line is never blank, so a scan of order lines visits them
      all. */
  lemma ScannedSerialized(orders: seq<OrderData>)
    ensures ScannedLines(SerializeAll(orders)) == SerializeAll(orders)
  {
    var lines := SerializeAll(orders);
    forall i | 0 <= i < |lines|
      ensures !IsBlank(lines[i])
    {
      var f := Fields(orders[i]);
      assert lines[i] == f[0] + ("," + JoinComma(f[1..]));
      assert lines[i][0] == f[0][0];
      assert f[0][0] == '-' || IsDigit(f[0][0]);
    }
    ScannedNonBlank(lines);
  }

  // ---------------------------------------------------------------------
  // editAnOrder and removeOrder: a rewrite of the scanned lines

  /** What a rewrite does with each line: edit puts the order's line in
      place of the line with its number (and needs an order to compare
      with); remove drops the line with the number. */
  datatype Rewrite = Edit(order: Option<OrderData>) | Remove(orderNum: int)

  /** One line of the loop: the leading number is read first, then compared
      with the order's number; a null order fails at that comparison. */
  function Step(rw: Rewrite, line: string): Checked<seq<string>>
  {
    match LeadingNumber(line)
    case Fail(k) => Fail(k)
    case Ok(n) =>
      match rw
      case Edit(o) =>
        if o.None? then Fail(NullPointer)
        else Ok([if n == o.value.orderNumber then Serialize(o.value) else line])
      case Remove(num) => Ok(if n != num then [line] else [])
  }

  /** A line's outcome added to those of the lines before it: the first
      failure stops the loop. */
  function Then(done: Checked<seq<string>>, out: Checked<seq<string>>): Checked<seq<string>>
  {
    if done.Fail? then done
    else if out.Fail? then Fail(out.kind)
    else Ok(done.value + out.value)
  }

  /** The lines collected in `remainingLines`, line by line, or the first
      line's failure. */
  function Rewritten(lines: seq<string>, rw: Rewrite): Checked<seq<string>>
    decreases |lines|
  {
    if lines == [] then Ok([])
    else Then(Rewritten(lines[..|lines| - 1], rw), Step(rw, lines[|lines| - 1]))
  }

  /** The loop's step: the rewrite of one more line. */
  lemma RewrittenSnoc(lines: seq<string>, i: nat, rw: Rewrite)
    requires i < |lines|
    ensures Rewritten(lines[..i + 1], rw) == Then(Rewritten(lines[..i], rw), Step(rw, lines[i]))
  {
    assert lines[..i + 1][..i] == lines[..i];
  }

  /** A failure on some line is the failure of the whole file. */
  lemma {:induction false} RewrittenFailPrefix(a: seq<string>, b: seq<string>, rw: Rewrite)
    requires Rewritten(a, rw).Fail?
    ensures Rewritten(a + b, rw) == Rewritten(a, rw)
    decreases |b|
  {
    if b == [] {
      assert a + b == a;
    } else {
      var b' := b[..|b| - 1];
      RewrittenFailPrefix(a, b', rw);
      assert (a + b)[..|a + b| - 1] == a + b';
    }
  }

  /** What editing makes of one line that has a leading number. */
  function EditedLine(line: string, o: OrderData): string
  {
    if LeadingNumber(line) == Ok(o.orderNumber) then Serialize(o) else line
  }

  /** Every line has a leading number. */
  predicate AllNumbered(lines: seq<string>)
  {
    forall k :: 0 <= k < |lines| ==> LeadingNumber(lines[k]).Ok?
  }

  lemma AllNumberedSnoc(lines: seq<string>)
    requires lines != []
    ensures AllNumbered(lines) <==> AllNumbered(lines[..|lines| - 1]) && LeadingNumber(lines[|lines| - 1]).Ok?
  {
    var n := |lines| - 1;
    var front := lines[..n];
    if AllNumbered(front) && LeadingNumber(lines[n]).Ok? {
      forall k | 0 <= k < |lines|
        ensures LeadingNumber(lines[k]).Ok?
      {
        if k < n {
          assert lines[k] == front[k];
        }
      }
    }
    if AllNumbered(lines) {
      forall k | 0 <= k < n
        ensures LeadingNumber(front[k]).Ok?
      {
        assert front[k] == lines[k];
      }
    }
  }

  /** A rewrite fails exactly when some line has no leading number, and
      the first such line is the one it fails on. */
  lemma {:induction false} RewrittenOk(lines: seq<string>, rw: Rewrite)
    requires rw.Remove? || rw.order.Some?
    ensures Rewritten(lines, rw).Ok? <==> AllNumbered(lines)
    decreases |lines|
  {
    if lines != [] {
      var n := |lines| - 1;
      var front, last := lines[..n], lines[n];
      RewrittenOk(front, rw);
      AllNumberedSnoc(lines);
      assert Rewritten(lines, rw) == Then(Rewritten(front, rw), Step(rw, last));
      assert Step(rw, last).Ok? <==> LeadingNumber(last).Ok?;
    }
  }

  /** Editing keeps the line count: every line whose leading number is the
      order's becomes the order's line, every other line stays in place. */
  lemma {:induction false} EditedLinesAt(lines: seq<string>, o: OrderData)
    requires Rewritten(lines, Edit(Some(o))).Ok?
    ensures |Rewritten(lines, Edit(Some(o))).value| == |lines|
    ensures forall k :: 0 <= k < |lines| ==> Rewritten(lines, Edit(Some(o))).value[k] == EditedLine(lines[k], o)
    decreases |lines|
  {
    if lines != [] {
      var rw := Edit(Some(o));
      var n := |lines| - 1;
      var front, last := lines[..n], lines[n];
      var rf, st := Rewritten(front, rw), Step(rw, last);
      assert Rewritten(lines, rw) == Then(rf, st);
      EditedLinesAt(front, o);
      assert st.value == [EditedLine(last, o)];
      var r := rf.value + st.value;
      forall k | 0 <= k < |lines|
        ensures r[k] == EditedLine(lines[k], o)
      {
        if k < n {
          assert r[k] == rf.value[k] && front[k] == lines[k];
        } else {
          assert r[k] == st.value[0];
        }
      }
    }
  }

  /** When exactly one line leads with the order's number, editing puts
      the order's line in its place and keeps every other line. */
  lemma EditOneLine(lines: seq<string>, i: nat, o: OrderData)
    requires i < |lines| && LeadingNumber(lines[i]) == Ok(o.orderNumber)
    requires forall j :: 0 <= j < |lines| && j != i ==> LeadingNumber(lines[j]).Ok? && LeadingNumber(lines[j]) != Ok(o.orderNumber)
    ensures Rewritten(lines, Edit(Some(o))) == Ok(lines[i := Serialize(o)])
  {
    RewrittenOk(lines, Edit(Some(o)));
    EditedLinesAt(lines, o);
    var r := Rewritten(lines, Edit(Some(o))).value;
    var want := lines[i := Serialize(o)];
    assert |r| == |want|;
    forall k | 0 <= k < |lines|
      ensures r[k] == want[k]
    {
      assert r[k] == EditedLine(lines[k], o);
    }
    assert r == want;
  }

  /** Editing with no order (null) fails on the first line with a number,
      and succeeds only on a file without lines to scan. */
  lemma NullEditFails(lines: seq<string>)
    requires |lines| >= 1 && LeadingNumber(lines[0]).Ok?
    ensures Rewritten(lines, Edit(None)) == Fail(NullPointer)
  {
    assert Rewritten([lines[0]], Edit(None)) == Fail(NullPointer) by {
      assert [lines[0]][..0] == [];
    }
    RewrittenFailPrefix([lines[0]], lines[1..], Edit(None));
    assert [lines[0]] + lines[1..] == lines;
  }

  /** Removing a number no line carries leaves the lines as they were. */
  lemma {:induction false} RemoveAbsent(lines: seq<string>, num: int)
    requires forall k :: 0 <= k < |lines| ==> LeadingNumber(lines[k]).Ok? && LeadingNumber(lines[k]) != Ok(num)
    ensures Rewritten(lines, Remove(num)) == Ok(lines)
    decreases |lines|
  {
    if lines != [] {
      var n := |lines| - 1;
      assert lines[..n] + [lines[n]] == lines;
      RemoveAbsent(lines[..n], num);
      assert Step(Remove(num), lines[n]) == Ok([lines[n]]);
    }
  }

  /** Removing the number of a file's only line leaves an empty file. */
  lemma RemoveOnlyLine(line: string, num: int)
    requires LeadingNumber(line) == Ok(num)
    ensures Rewritten([line], Remove(num)) == Ok([])
  {
    var none: seq<string> := [];
    assert [line][..0] == none;
    assert Step(Remove(num), line) == Ok(none);
    assert Rewritten([line], Remove(num)) == Then(Ok(none), Ok(none));
    assert none + none == none;
  }

  /** The lines whose leading number is not `num`, in their order, read
      from the front of the file. */
  function KeptLines(lines: seq<string>, num: int): (r: seq<string>)
    ensures |r| <= |lines|
    decreases |lines|
  {
    if lines == [] then []
    else (if LeadingNumber(lines[0]) == Ok(num) then [] else [lines[0]]) + KeptLines(lines[1..], num)
  }

  /** Keeping lines from a file with one more line at its end. */
  lemma {:induction false} KeptLinesSnoc(lines: seq<string>, last: string, num: int)
    ensures KeptLines(lines + [last], num)
            == KeptLines(lines, num) + (if LeadingNumber(last) == Ok(num) then [] else [last])
    decreases |lines|
  {
    if lines == [] {
      assert lines + [last] == [last] && [last][1..] == [];
    } else {
      var head := if LeadingNumber(lines[0]) == Ok(num) then [] else [lines[0]];
      assert KeptLines(lines + [last], num) == head + KeptLines(lines[1..] + [last], num) by {
        assert (lines + [last])[0] == lines[0] && (lines + [last])[1..] == lines[1..] + [last];
      }
      KeptLinesSnoc(lines[1..], last, num);
      assert KeptLines(lines, num) == head + KeptLines(lines[1..], num);
    }
  }

  /** When every line has a leading number, removal writes back exactly the
      lines without the given number, in their order and multiplicity. */
  lemma {:induction false} RemovedKeptLines(lines: seq<string>, num: int)
    requires AllNumbered(lines)
    ensures Rewritten(lines, Remove(num)) == Ok(KeptLines(lines, num))
    decreases |lines|
  {
    if lines != [] {
      var n := |lines| - 1;
      var front, last := lines[..n], lines[n];
      assert lines == front + [last];
      assert AllNumbered(front) by {
        forall k | 0 <= k < |front| ensures LeadingNumber(front[k]).Ok? {
          assert front[k] == lines[k];
        }
      }
      RemovedKeptLines(front, num);
      KeptLinesSnoc(front, last, num);
      assert LeadingNumber(last).Ok?;
    }
  }

  /** Removal keeps exactly the lines whose leading number is not the
      given one. */
  lemma {:induction false} RemovedLines(lines: seq<string>, num: int)
    requires Rewritten(lines, Remove(num)).Ok?
    ensures |Rewritten(lines, Remove(num)).value| <= |lines|
    ensures forall x :: x in Rewritten(lines, Remove(num)).value ==> x in lines && LeadingNumber(x) != Ok(num)
    ensures forall k :: 0 <= k < |lines| && LeadingNumber(lines[k]) != Ok(num) ==> lines[k] in Rewritten(lines, Remove(num)).value
    decreases |lines|
  {
    if lines != [] {
      var rw := Remove(num);
      var n := |lines| - 1;
      var front, last := lines[..n], lines[n];
      assert lines == front + [last];
      var rf, st := Rewritten(front, rw), Step(rw, last);
      assert Rewritten(lines, rw) == Then(rf, st);
      RemovedLines(front, num);
      assert st.value == if LeadingNumber(last) == Ok(num) then [] else [last];
      var r := rf.value + st.value;
      forall x | x in r
        ensures x in lines && LeadingNumber(x) != Ok(num)
      {
        if x in rf.value {
          assert x in front;
        }
      }
      forall k | 0 <= k < |lines| && LeadingNumber(lines[k]) != Ok(num)
        ensures lines[k] in r
      {
        if k < n {
          assert lines[k] == front[k];
        }
      }
    }
  }

  /** editAnOrder and removeOrder on the file system: a missing file is a
      ModelExceptions; otherwise the scanned lines are rewritten and the
      file replaced by the result, or nothing is written if a line fails. */
  function RewriteFile(files: Files, date: Date, rw: Rewrite): (r: Outcome<Files, ModelError>)
    ensures r.Thrown? <==> FileName(date) !in files
    ensures r.Done? ==> r.value.Keys == files.Keys
    ensures r.Done? ==> forall name :: name in files && name != FileName(date) ==> r.value[name] == files[name]
  {
    var name := FileName(date);
    if name !in files then Thrown(OrderFileMissing(name))
    else match Rewritten(ScannedLines(files[name]), rw)
      case Fail(k) => Crashed(k)
      case Ok(lines) => Done(files[name := lines])
  }

  /** Rewriting an empty file leaves the files as they were, whatever the
      rewrite. */
  lemma RewriteEmptyFile(files: Files, date: Date, rw: Rewrite)
    requires FileName(date) in files && files[FileName(date)] == []
    ensures RewriteFile(files, date, rw) == Done(files)
  {
    var none: seq<string> := [];
    assert ScannedLines(none) == none;
    assert Rewritten(none, rw) == Ok(none);
    assert files[FileName(date) := none] == files;
  }

  // ---------------------------------------------------------------------
  // export

  /** Each line followed by "," and the date. */
  function Stamped(lines: seq<string>, date: string): (r: seq<string>)
    ensures |r| == |lines| && forall i :: 0 <= i < |lines| ==> r[i] == lines[i] + "," + date
  {
    seq(|lines|, i requires 0 <= i < |lines| => lines[i] + "," + date)
  }

  /** The lines export writes, file by file in listing order: every scanned
      line of a listed file followed by the first eight digits of the file's
      path as MM-dd-yyyy. Names that are not files are skipped; a path with
      fewer than eight digits fails (StringIndexOutOfBoundsException). */
  function ExportOf(files: Files, listing: seq<string>): Checked<seq<string>>
    decreases |listing|
  {
    if listing == [] then Ok([])
    else match ExportOf(files, listing[..|listing| - 1])
      case Fail(k) => Fail(k)
      case Ok(done) =>
        var name := listing[|listing| - 1];
        if name !in files then Ok(done)
        else
          var digits := DigitsOf(Path(name));
          if |digits| < 8 then Fail(IndexOutOfBounds)
          else Ok(done + Stamped(ScannedLines(files[name]), RegroupDigits(digits[..8])))
  }

  lemma ExportSnoc(files: Files, listing: seq<string>, k: nat)
    requires k < |listing|
    ensures ExportOf(files, listing[..k + 1])
            == match ExportOf(files, listing[..k])
               case Fail(e) => Fail(e)
               case Ok(done) =>
                 var name := listing[k];
                 if name !in files then Ok(done)
                 else
                   var digits := DigitsOf(Path(name));
                   if |digits| < 8 then Fail(IndexOutOfBounds)
                   else Ok(done + Stamped(ScannedLines(files[name]), RegroupDigits(digits[..8])))
  {
    assert listing[..k + 1][..k] == listing[..k];
  }

  /** The digits of an order file's path are the date's eight digits. */
  lemma PathDigits(d: Date)
    ensures DigitsOf(Path(FileName(d))) == CompactDate(d)
  {
    var c := CompactDate(d);
    var front, back := OrdersFolder + "Orders_", c + ".txt";
    assert Path(FileName(d)) == front + back;
    assert DigitsOf(front) == "" by { DigitsOfNone(front); }
    assert DigitsOf(".txt") == "" by { DigitsOfNone(".txt"); }
    assert DigitsOf(c) == c by { DigitsOfDigits(c); }
    DigitsOfAppend(c, ".txt");
    DigitsOfAppend(front, back);
  }

  /** Export stamps each line of an order file with the date the file is
      named after, as MM-dd-yyyy. */
  lemma ExportOrderFile(files: Files, done: seq<string>, d: Date)
    requires FileName(d) in files
    ensures var digits := DigitsOf(Path(FileName(d)));
            |digits| >= 8
            && Stamped(ScannedLines(files[FileName(d)]), RegroupDigits(digits[..8]))
               == Stamped(ScannedLines(files[FileName(d)]), DisplayDate(d))
  {
    PathDigits(d);
    assert CompactDate(d)[..8] == CompactDate(d);
    RegroupCompact(d);
  }

  /** Exporting two order files gives the first file's lines stamped with
      its date, then the second's with its own. */
  lemma ExportTwoFiles(files: Files, d1: Date, d2: Date)
    requires FileName(d1) in files && FileName(d2) in files
    ensures ExportOf(files, [FileName(d1), FileName(d2)])
            == Ok(Stamped(ScannedLines(files[FileName(d1)]), DisplayDate(d1))
                  + Stamped(ScannedLines(files[FileName(d2)]), DisplayDate(d2)))
  {
    var listing := [FileName(d1), FileName(d2)];
    ExportOrderFile(files, [], d1);
    ExportOrderFile(files, [], d2);
    var s1 := Stamped(ScannedLines(files[FileName(d1)]), DisplayDate(d1));
    var s2 := Stamped(ScannedLines(files[FileName(d2)]), DisplayDate(d2));
    var none: seq<string> := [];
    assert listing[..0] == [];
    ExportSnoc(files, listing, 0);
    assert ExportOf(files, listing[..1]) == Ok(none + s1);
    assert none + s1 == s1;
    ExportSnoc(files, listing, 1);
    assert ExportOf(files, listing[..2]) == Ok(s1 + s2);
    assert listing[..2] == listing;
  }

  /** The two dates of the repository's export test render as the test
      expects. */
  lemma ExportTestDates()
    ensures DisplayDate(LocalDate(2025, 9, 30)) == "09-30-2025"
    ensures DisplayDate(LocalDate(2024, 10, 30)) == "10-30-2024"
  {
  }

  // ---------------------------------------------------------------------
  // The audit object

  /** A method's outcome and new files are what the file-level function
      gives; files stay as they were when it does not complete. */
  ghost predicate Reflects(r: Outcome<(), ModelError>, spec: Outcome<Files, ModelError>, now: Files, before: Files)
  {
    match spec
    case Done(f) => r == Done(()) && now == f
    case Thrown(e) => r == Thrown(e) && now == before
    case Crashed(k) => r == Crashed(k) && now == before
  }

  class AuditStore {
    var files: Files
    var exportFile: seq<string>

    /** The store over the folder's current files. Reading the product and
        tax tables is not part of this model. */
    constructor (files: Files)
      ensures this.files == files && exportFile == []
    {
      this.files := files;
      exportFile := [];
    }

    /** addOrder: the order's line appended to its date's file, which is
        created empty first when missing. */
    method AddOrder(date: Date, order: Order)
      modifies this
      ensures files == AppendedFile(old(files), date, Serialize(order.Data()))
      ensures exportFile == old(exportFile)
    {
      var name := FileName(date);
      if name !in files {
        files := files[name := []];
      }
      var formatted := Serialize(order.Data());
      files := files[name := files[name] + [formatted]];
    }

    /** editAnOrder: the scanned lines of the date's file rewritten, the
        line with the order's number replaced by the order's line. */
    method EditAnOrder(date: Date, order: Order?) returns (r: Outcome<(), ModelError>)
      modifies this
      ensures exportFile == old(exportFile)
      ensures Reflects(r, RewriteFile(old(files), date, Edit(DataOrNull(order))), files, old(files))
    {
      r := RewriteLines(date, Edit(DataOrNull(order)));
    }

    /** removeOrder: the scanned lines of the date's file rewritten without
        the line with the number. */
    method RemoveOrder(date: Date, orderNum: int) returns (r: Outcome<(), ModelError>)
      modifies this
      ensures exportFile == old(exportFile)
      ensures Reflects(r, RewriteFile(old(files), date, Remove(orderNum)), files, old(files))
    {
      r := RewriteLines(date, Remove(orderNum));
    }

    /** What editAnOrder and removeOrder share: the date's file rewritten
        by the scan, or left alone when a line fails. */
    method RewriteLines(date: Date, rw: Rewrite) returns (r: Outcome<(), ModelError>)
      modifies this
      ensures exportFile == old(exportFile)
      ensures Reflects(r, RewriteFile(old(files), date, rw), files, old(files))
    {
      var name := FileName(date);
      if name !in files {
        return Thrown(OrderFileMissing(name));
      }
      var remainingLines := ScanRewrite(files[name], rw);
      if remainingLines.Fail? {
        return Crashed(remainingLines.kind);
      }
      files := files[name := remainingLines.value];
      r := Done(());
    }

    /** export: the export file overwritten with every listed order file's
        scanned lines, each followed by the file's date. The order files are
        only read. */
    method Export(listing: seq<string>) returns (r: Checked<()>)
      modifies this
      ensures files == old(files)
      ensures r.Ok? <==> ExportOf(files, listing).Ok?
      ensures r.Ok? ==> exportFile == ExportOf(files, listing).value
      ensures r.Fail? ==> r.kind == ExportOf(files, listing).kind
    {
      exportFile := [];
      var k := 0;
      while k < |listing|
        invariant 0 <= k <= |listing| && files == old(files)
        invariant ExportOf(files, listing[..k]) == Ok(exportFile)
      {
        ExportSnoc(files, listing, k);
        var name := listing[k];
        if name in files {
          var digits := DigitsOf(Path(name));
          if |digits| < 8 {
            ExportFails(files, listing, k + 1);
            return Fail(IndexOutOfBounds);
          }
          var formattedDate := RegroupDigits(digits[..8]);
          var stamped := StampScanned(files[name], formattedDate);
          exportFile := exportFile + stamped;
        }
        k := k + 1;
      }
      assert listing[..k] == listing;
      r := Ok(());
    }
  }

  /** The loop editAnOrder and removeOrder share: while a token remains,
      read the next line and collect what it becomes, stopping at the first
      line that fails. */
  method ScanRewrite(lines: seq<string>, rw: Rewrite) returns (r: Checked<seq<string>>)
    ensures r == Rewritten(ScannedLines(lines), rw)
  {
    var remainingLines: seq<string> := [];
    var i := 0;
    while HasToken(lines[i..])
      invariant 0 <= i <= |lines|
      invariant ScannedLines(lines) == lines[..i] + ScannedLines(lines[i..])
      invariant Rewritten(lines[..i], rw) == Ok(remainingLines)
      decreases |lines| - i
    {
      ScannedStep(lines, i);
      RewrittenSnoc(lines, i, rw);
      var out := Step(rw, lines[i]);
      if out.Fail? {
        RewrittenFailPrefix(lines[..i + 1], ScannedLines(lines[i + 1..]), rw);
        return Fail(out.kind);
      }
      remainingLines := remainingLines + out.value;
      i := i + 1;
    }
    assert ScannedLines(lines[i..]) == [];
    assert ScannedLines(lines) == lines[..i];
    r := Ok(remainingLines);
  }

  /** export's inner loop: while a token remains, the next line followed by
      "," and the file's date. */
  method StampScanned(lines: seq<string>, date: string) returns (out: seq<string>)
    ensures out == Stamped(ScannedLines(lines), date)
  {
    out := [];
    var i := 0;
    while HasToken(lines[i..])
      invariant 0 <= i <= |lines|
      invariant ScannedLines(lines) == lines[..i] + ScannedLines(lines[i..])
      invariant out == Stamped(lines[..i], date)
      decreases |lines| - i
    {
      ScannedStep(lines, i);
      out := out + [lines[i] + "," + date];
      i := i + 1;
    }
    assert ScannedLines(lines[i..]) == [];
    assert ScannedLines(lines) == lines[..i];
  }

  /** Once a prefix of the listing fails, the whole export fails. */
  lemma {:induction false} ExportFails(files: Files, listing: seq<string>, k: nat)
    requires k <= |listing| && ExportOf(files, listing[..k]).Fail?
    ensures ExportOf(files, listing) == ExportOf(files, listing[..k])
    decreases |listing| - k
  {
    if k < |listing| {
      ExportSnoc(files, listing, k);
      ExportFails(files, listing, k + 1);
    } else {
      assert listing[..k] == listing;
    }
  }
}
