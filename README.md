# Flooring Mastery order layer, modelled in Dafny

This project models the order bookkeeping of Flooring Mastery. The model has four parts:

- **Pricing.** The `Order` constructor prices an order. The setters overwrite one field each and do not reprice.
- **Order repository.** `OrdersDAOImpl` keeps an in-memory map from date to that date's list of orders, plus one counter that numbers new orders. Orders are added, edited in place, spliced out, looked up and listed.
- **Audit store.** `AuditDAOImpl` keeps one text file of order lines per date, named `Orders_MMddyyyy.txt`. It appends a line on add and rewrites the file on edit and remove. An export stamps every line with its file's date.
- **Service.** `FlooringMasteryServiceImpl` runs the repository step and then the audit step for each request. It turns a `ModelExceptions` into a `ServiceExceptions`.

Modules follow the source:

- `Orders` models `Order`, a class whose setters update fields.
- `OrdersDAO` holds the repository. The `OrderRepository` class stores `Order` references, so edits act through references.
- `AuditDAO` holds the `AuditStore` class. It owns a map from file name to lines and the export file's lines.
- `Service` holds the `FlooringService` class over the two stores.
- Three small modules model the Java library behaviour the code relies on:
  - `Decimals`: `BigDecimal` add, multiply and `toString`, all exact.
  - `JavaText`: `Integer.toString` and `Integer.valueOf`, `String.split(",")`, `replaceAll("\\D", "")`, and `Scanner.hasNext`.
  - `Dates`: the `MMddyyyy` and `MM-dd-yyyy` renderings of a date.

Each imperative operation is proved against a function on values:

- the `Order` constructor against `Priced`;
- repository methods against `Appended`, `EditResult`, `Removed` and `Updated`;
- audit methods against `AppendedFile`, `RewriteFile`, `Rewritten` and `ExportOf`;
- service methods against `AddService`, `EditService` and `RemoveService`, over a `World`. A `World` holds the repository contents, the counter and the order files.

The central invariant is `Coherent`. It requires distinct order numbers below the counter. It also requires that every date's file holds exactly the serialized lines of that date's list, in list order. The model proves that add keeps `Coherent`, that remove keeps it, and that edit keeps it whenever no unchecked exception occurs.

Behaviour the code has and the model keeps:

- Labour is priced at the product's material rate (`Order.java` line 29).
- The tax rate is a percentage that multiplies without division by 100.
- No amount is rounded to a fixed number of decimal places.
- The repository does not check the area against any minimum.
- Editing or removing a number the date's list lacks does not report "not found". The repository returns null, and the service still runs the audit step.
- After an edit of such a number, the audit step dereferences the null order while reading a non-empty file.
- A failing audit step does not undo the repository step.

`update` calls `order.set()`, which `Order.java` does not define. The model takes it to re-run the constructor's pricing (lines 28-34) on the current number, name, state, product and area. This is `Orders.Order.Reprice`.

Unchecked exceptions (`NullPointerException`, `NumberFormatException`, index out of bounds) are results of kind `Crashed`. Checked exceptions are results of kind `Thrown`.

## Model

| member | source | states |
|---|---|---|
| Outcomes.Rethrow | src/main/java/Service/FlooringMasteryServiceImpl.java:80-82 | a ModelExceptions is rethrown as a ServiceExceptions wrapping it, a normal return stays a return, an unchecked exception passes through |
| Pricing.Priced | src/main/java/Model/Order.java:22-35 | number, name, state, product and area stored as passed; both per-area costs are the product's material cost; rate is the state's; materialCost = area·cost and laborCost = area·labour rate exactly; tax = (material + labour)·rate with no division by 100; total = material + labour + tax |
| Pricing.Repriced | src/main/java/Model/DAO/OrdersDAOImpl.java:120 | the reading of `order.set()`: the constructor's pricing applied to an order's current number, name, state, product and area |
| Pricing.LaborCostIsMaterialCost | src/main/java/Model/Order.java:28-31 | labour rate equals material rate and laborCost equals materialCost, whatever the product's labour rate |
| Pricing.RepricedIsStable | src/main/java/Model/Order.java:28-34 | repricing is idempotent: an order repriced once is already consistently priced, so repricing it again gives it back |
| Pricing.PricingNonNegative | src/main/java/Model/Order.java:28-34 | with non-negative area, cost and rate every derived amount is non-negative and total ≥ material + labour |
| Decimals.Multiply | src/main/java/Model/Order.java:30-31 | BigDecimal.multiply: scales add and the value is the exact product |
| Decimals.Add | src/main/java/Model/Order.java:33-34 | BigDecimal.add: the larger scale and the exact sum |
| Decimals.FromLong | src/main/java/Service/FlooringMasteryServiceImpl.java:74 | BigDecimal.valueOf(long) has the number's value |
| Decimals.FromWholeDouble | src/main/java/Model/DAO/OrdersDAOImpl.java:117 | BigDecimal.valueOf(Double.valueOf("n")) of a whole number has its value at scale 1 |
| Decimals.DecimalText | src/main/java/Model/DAO/AuditDAOImpl.java:68-73 | BigDecimal.toString of an amount is non-empty and holds no comma |
| Orders.Order.constructor | src/main/java/Model/Order.java:22-35 | the new order's fields are Priced of the arguments and tables |
| Orders.Order.Reprice | src/main/java/Model/DAO/OrdersDAOImpl.java:120 | the derived fields become the constructor's pricing of the current number, name, state, product and area |
| Orders.Order.SetOrderNumber | src/main/java/Model/Order.java:42-44 | only orderNumber changes |
| Orders.Order.SetCustomerName | src/main/java/Model/Order.java:51-53 | only customerName changes; nothing is repriced |
| Orders.Order.SetState | src/main/java/Model/Order.java:60-62 | only state changes; taxRate, tax and total stay |
| Orders.Order.SetTaxRate | src/main/java/Model/Order.java:69-71 | only taxRate changes |
| Orders.Order.SetProductType | src/main/java/Model/Order.java:78-80 | only productType changes; costs stay |
| Orders.Order.SetArea | src/main/java/Model/Order.java:87-89 | only area changes; costs stay |
| Orders.Order.SetCostPerSquareFoot | src/main/java/Model/Order.java:96-98 | only costPerSquareFoot changes |
| Orders.Order.SetLaborCostPerSquareFoot | src/main/java/Model/Order.java:105-107 | only laborCostPerSquareFoot changes |
| Orders.Order.SetMaterialCost | src/main/java/Model/Order.java:114-116 | only materialCost changes |
| Orders.Order.SetLaborCost | src/main/java/Model/Order.java:123-125 | only laborCost changes |
| Orders.Order.SetTax | src/main/java/Model/Order.java:132-134 | only tax changes |
| Orders.Order.SetTotal | src/main/java/Model/Order.java:141-143 | only total changes |
| JavaText.ParseInt | src/main/java/Model/DAO/AuditDAOImpl.java:101 | Integer.valueOf of a run of digits is its decimal value; anything accepted is non-empty |
| JavaText.IntText | src/main/java/Model/DAO/AuditDAOImpl.java:68 | the text of an int is non-empty and comma-free: its digits, after a '-' when negative |
| JavaText.NatText | src/main/java/Model/DAO/AuditDAOImpl.java:68 | the decimal digits of a natural number, non-empty, with a leading zero exactly for zero |
| JavaText.ParseIntText | src/main/java/Model/DAO/AuditDAOImpl.java:68-101 | Integer.valueOf reads back every number Integer.toString wrote, negative ones included |
| JavaText.JavaSplit | src/main/java/Model/DAO/OrdersDAOImpl.java:103 | no field of split(",") holds a comma |
| JavaText.JavaSplitJoin | src/main/java/Model/DAO/OrdersDAOImpl.java:103 | split(",") gives back comma-joined fields when none holds a comma and the last is not empty |
| JavaText.JavaSplitHead | src/main/java/Model/DAO/AuditDAOImpl.java:99-101 | the first split field of "a,…" is a, whatever follows, so commas later in a line do not move it |
| JavaText.SplitAllJoin | src/main/java/Model/DAO/OrdersDAOImpl.java:103 | splitting comma-joined comma-free fields, empty ones kept, gives them back |
| JavaText.ScannedNonBlank | src/main/java/Model/DAO/AuditDAOImpl.java:97-98 | a hasNext/nextLine loop visits every line of a file with no blank line |
| JavaText.ScannedLines | src/main/java/Model/DAO/AuditDAOImpl.java:97-98 | the lines a hasNext/nextLine loop visits: line after line while some later line holds a token, so trailing blank lines are never read; never more lines than the file has |
| JavaText.ScannedStep | src/main/java/Model/DAO/AuditDAOImpl.java:97-98 | one more turn of the hasNext/nextLine loop visits the next line |
| JavaText.DigitsOf | src/main/java/Model/DAO/AuditDAOImpl.java:180 | replaceAll("\\D", "") keeps only digits and never lengthens the text |
| JavaText.DigitsOfAppend | src/main/java/Model/DAO/AuditDAOImpl.java:180 | the digits of a concatenation are the digits of each part, in order |
| Dates.CompactDate | src/main/java/Model/DAO/AuditDAOImpl.java:253-256 | dateToString gives exactly eight digits |
| Dates.DisplayDate | src/main/java/Model/DAO/AuditDAOImpl.java:182-184 | the MM-dd-yyyy text of a date, two-digit month and day and four-digit year |
| Dates.CompactRoundTrip | src/main/java/Model/DAO/AuditDAOImpl.java:253-256 | the date reads back from its MMddyyyy text |
| Dates.CompactInjective | src/main/java/Model/DAO/AuditDAOImpl.java:253-256 | distinct dates have distinct MMddyyyy texts |
| Dates.RegroupCompact | src/main/java/Model/DAO/AuditDAOImpl.java:180-184 | regrouping the MMddyyyy digits gives the MM-dd-yyyy rendering of the same date |
| OrdersDAO.FirstIndex | src/main/java/Model/DAO/OrdersDAOImpl.java:86-88 | filter(number).findFirst(): the position found carries the number and no earlier one does; none found exactly when no order carries it |
| OrdersDAO.Appended | src/main/java/Model/DAO/OrdersDAOImpl.java:59-67 | addOrder on values: the date becomes a key, its list (empty when new) gains the order at the end, other dates unchanged |
| OrdersDAO.AddKeepsValid | src/main/java/Model/DAO/OrdersDAOImpl.java:56-70 | an order numbered with the counter, appended, keeps numbers distinct and below the counter moved on by one |
| OrdersDAO.Removed | src/main/java/Model/DAO/OrdersDAOImpl.java:132-152 | removeOrder on values: an unknown date or number changes nothing and gives none; otherwise the first order with the number is spliced out and returned, the date staying a key |
| OrdersDAO.RemovedFilters | src/main/java/Model/DAO/OrdersDAOImpl.java:132-152 | removal keeps every date key, leaves other dates alone, filters the date's list to the other numbers in order, and returns an order exactly when one had the number |
| OrdersDAO.RemoveKeepsValid | src/main/java/Model/DAO/OrdersDAOImpl.java:132-152 | removal keeps the invariant with the counter unchanged, so numbers are never reused |
| OrdersDAO.DeleteKeepsValid | src/main/java/Model/DAO/OrdersDAOImpl.java:146-149 | splicing out one position keeps the invariant |
| OrdersDAO.SpliceIsFilter | src/main/java/Model/DAO/OrdersDAOImpl.java:138-149 | with distinct numbers, splicing out the first match equals filtering out the number |
| OrdersDAO.Pick | src/main/java/Model/DAO/OrdersDAOImpl.java:105-115 | a request field replaces the current value unless it is the single space " " |
| OrdersDAO.EditedArea | src/main/java/Model/DAO/OrdersDAOImpl.java:116-118 | " " keeps the current area; a whole number n becomes n at scale 1, as BigDecimal.valueOf(Double.valueOf(n)) |
| OrdersDAO.Updated | src/main/java/Model/DAO/OrdersDAOImpl.java:102-122 | update keeps the number; with four fields and a readable area the order is the pricing of the picked name, state, product and area (" " keeps the current value); otherwise it stops with the name, state and product the setters before the failure wrote, the derived fields and area untouched, and it fails exactly in those cases |
| OrdersDAO.KeepAllIsIdentity | src/main/java/Model/DAO/OrdersDAOImpl.java:102-122 | an all-" " request leaves a consistently priced order as it was |
| OrdersDAO.SplitTestRequest | src/main/java/Model/DAO/OrdersDAOImpl.java:103 | the request " ,CA, ,300" splits into its four fields |
| OrdersDAO.EditMovesStateAndArea | src/main/java/Model/DAO/OrdersDAOImpl.java:102-122 | " ,CA, ,300" on John Doe's FL Carpet order moves it to CA at area 300.0 and CA's rate, keeping name and product |
| OrdersDAO.EditResult | src/main/java/Model/DAO/OrdersDAOImpl.java:82-93 | editAnOrder on values: an unknown date throws ModelExceptions, an unknown number returns null and changes nothing, otherwise the first order with the number becomes Updated's order in its place, with Updated's exception if any |
| OrdersDAO.EditTouchesOneOrder | src/main/java/Model/DAO/OrdersDAOImpl.java:82-93 | editing keeps keys, list lengths and every number, and every order without the number is unchanged |
| OrdersDAO.EditKeepsValid | src/main/java/Model/DAO/OrdersDAOImpl.java:82-93 | editing keeps the invariant, even when update stops part way |
| OrdersDAO.Joined | src/main/java/Model/DAO/OrdersDAOImpl.java:38-40 | map(toString) then joining(): the renderings of the orders one after another, no separator |
| OrdersDAO.JoinedAppend | src/main/java/Model/DAO/OrdersDAOImpl.java:38-40 | appending an order appends its rendering to the listing |
| OrdersDAO.DataOfSplice | src/main/java/Model/DAO/OrdersDAOImpl.java:147 | the values of a spliced list are the spliced values |
| OrdersDAO.OrderRepository.constructor | src/main/java/Model/DAO/OrdersDAOImpl.java:25-26 | empty storage, counter 1, invariant holds |
| OrdersDAO.OrderRepository.ObjectsDistinct | src/main/java/Model/DAO/OrdersDAOImpl.java:25 | in a valid repository no order object sits at two positions, so an edit through one reference changes one entry |
| OrdersDAO.OrderRepository.AddOrder | src/main/java/Model/DAO/OrdersDAOImpl.java:56-70 | a fresh order priced under the old counter, appended to the date's list (created when absent), counter + 1, contents = Appended, invariant kept |
| OrdersDAO.OrderRepository.Store | src/main/java/Model/DAO/OrdersDAOImpl.java:59-67 | the list update and counter step of addOrder, with contents = Appended of the old contents |
| OrdersDAO.OrderRepository.EditAnOrder | src/main/java/Model/DAO/OrdersDAOImpl.java:82-93 | the lists are not reassigned; new contents and the returned order (or null, or the exception) are EditResult of the old contents; a returned order is in the date's list; invariant kept |
| OrdersDAO.OrderRepository.UpdateFound | src/main/java/Model/DAO/OrdersDAOImpl.java:86-90 | update through the found reference changes exactly that entry of the contents, to what Updated gives |
| OrdersDAO.OrderRepository.Update | src/main/java/Model/DAO/OrdersDAOImpl.java:102-122 | the setters and repricing leave the order as Updated says, with the same exception |
| OrdersDAO.OrderRepository.Unlink | src/main/java/Model/DAO/OrdersDAOImpl.java:146-149 | the list with the position spliced out, its values spliced the same way, other dates unchanged |
| OrdersDAO.OrderRepository.RemoveOrder | src/main/java/Model/DAO/OrdersDAOImpl.java:132-152 | the loop finds the first order with the number; new contents and the returned order are Removed of the old contents; keys and counter kept; invariant kept |
| OrdersDAO.OrderRepository.GetOrder | src/main/java/Model/DAO/OrdersDAOImpl.java:162-169 | a date without a list fails on null; otherwise the first order with the number, or null exactly when none has it |
| OrdersDAO.OrderRepository.DisplayOrders | src/main/java/Model/DAO/OrdersDAOImpl.java:35-43 | a date without a list fails on null; otherwise the renderings of its orders in list order |
| AuditDAO.FileName | src/main/java/Model/DAO/AuditDAOImpl.java:60 | "Orders_" + MMddyyyy + ".txt", the date's eight digits at positions 7-14 |
| AuditDAO.FileNameRoundTrip | src/main/java/Model/DAO/AuditDAOImpl.java:60 | the date reads back from its file name |
| AuditDAO.FileNameInjective | src/main/java/Model/DAO/AuditDAOImpl.java:60 | one file name, one date |
| AuditDAO.FileNamesDiffer | src/main/java/Model/DAO/AuditDAOImpl.java:60 | distinct dates never share a file |
| AuditDAO.AppendedFile | src/main/java/Model/DAO/AuditDAOImpl.java:58-80 | the date's file (empty when missing) gains the line at the end; every other file unchanged |
| AuditDAO.Fields | src/main/java/Model/DAO/AuditDAOImpl.java:68-73 | an order line has twelve fields |
| AuditDAO.Serialize | src/main/java/Model/DAO/AuditDAOImpl.java:68-73 | the order line: the twelve fields joined by commas |
| AuditDAO.SerializeAll | src/main/java/Model/DAO/AuditDAOImpl.java:68-75 | one line per order, in order |
| AuditDAO.SplitSerialized | src/main/java/Model/DAO/AuditDAOImpl.java:68-101 | with comma-free name, state and product, splitting a line gives back the twelve fields and the first reads as the number |
| AuditDAO.LeadingNumber | src/main/java/Model/DAO/AuditDAOImpl.java:99-101 | Integer.valueOf of the first split field: an index exception when the split has no field, a NumberFormatException when it is no number |
| AuditDAO.LeadingNumberOfLine | src/main/java/Model/DAO/AuditDAOImpl.java:99-101 | the leading field of an order line reads as its number, even when the name holds commas |
| AuditDAO.ScannedSerialized | src/main/java/Model/DAO/AuditDAOImpl.java:97-98 | a scan of order lines visits them all |
| AuditDAO.Step | src/main/java/Model/DAO/AuditDAOImpl.java:99-111 | one loop turn: the leading number is read first; edit then compares it with the order (a NullPointerException for null) and puts the order's line in place of a match; remove drops a match |
| AuditDAO.Rewritten | src/main/java/Model/DAO/AuditDAOImpl.java:97-112 | the collected remaining lines, line by line in file order, or the first line's exception |
| AuditDAO.RewrittenSnoc | src/main/java/Model/DAO/AuditDAOImpl.java:97-112 | the loop's step: the rewrite of one more line |
| AuditDAO.RewrittenFailPrefix | src/main/java/Model/DAO/AuditDAOImpl.java:97-112 | an exception on a line is the outcome of the whole file |
| AuditDAO.AllNumberedSnoc | src/main/java/Model/DAO/AuditDAOImpl.java:99-101 | all lines have a leading number exactly when the front lines and the last do |
| AuditDAO.RewrittenOk | src/main/java/Model/DAO/AuditDAOImpl.java:97-112 | with an order (or for removal) the rewrite succeeds exactly when every line has a leading number |
| AuditDAO.EditedLinesAt | src/main/java/Model/DAO/AuditDAOImpl.java:97-112 | edit keeps the line count and puts at each position the order's line when the leading number matches, the old line otherwise |
| AuditDAO.EditOneLine | src/main/java/Model/DAO/AuditDAOImpl.java:101-111 | when only line i carries the number, edit replaces line i and keeps the rest |
| AuditDAO.NullEditFails | src/main/java/Model/DAO/AuditDAOImpl.java:101 | editing with a null order throws a NullPointerException on the first numbered line |
| AuditDAO.RemoveAbsent | src/main/java/Model/DAO/AuditDAOImpl.java:142-149 | removing a number no line carries leaves the lines unchanged |
| AuditDAO.RemoveOnlyLine | src/main/java/Model/DAO/AuditDAOImpl.java:142-149 | removing the number of the only line leaves no lines |
| AuditDAO.KeptLines | src/main/java/Model/DAO/AuditDAOImpl.java:142-149 | an independent front-to-back filter: the lines whose leading number is not the given one, in order; never more lines than before |
| AuditDAO.KeptLinesSnoc | src/main/java/Model/DAO/AuditDAOImpl.java:142-149 | filtering a file with one more line at its end adds that line unless it carries the number |
| AuditDAO.RemovedKeptLines | src/main/java/Model/DAO/AuditDAOImpl.java:142-155 | when every line has a leading number, removal writes back exactly KeptLines: the other lines in their order and multiplicity |
| AuditDAO.RemovedLines | src/main/java/Model/DAO/AuditDAOImpl.java:142-149 | every kept line is an old line whose leading number is not the given one, every such old line is kept, and the file never grows |
| AuditDAO.RewriteFile | src/main/java/Model/DAO/AuditDAOImpl.java:91-161 | a missing file, and only that, throws ModelExceptions; on success only the date's file changes |
| AuditDAO.RewriteEmptyFile | src/main/java/Model/DAO/AuditDAOImpl.java:97-119 | rewriting an empty file leaves all files as they were |
| AuditDAO.Stamped | src/main/java/Model/DAO/AuditDAOImpl.java:186-189 | each line followed by "," and the date, one for one |
| AuditDAO.ExportSnoc | src/main/java/Model/DAO/AuditDAOImpl.java:175-192 | the outer loop's step: the export of one more listed name |
| AuditDAO.ExportOf | src/main/java/Model/DAO/AuditDAOImpl.java:175-192 | export on values: file by file in listing order, each listed file's scanned lines stamped with its path's first eight digits as MM-dd-yyyy; non-files skipped; a path with fewer than eight digits fails |
| AuditDAO.PathDigits | src/main/java/Model/DAO/AuditDAOImpl.java:180 | the digits of an order file's path are its date's eight digits |
| AuditDAO.ExportOrderFile | src/main/java/Model/DAO/AuditDAOImpl.java:180-189 | an order file's lines are stamped with the MM-dd-yyyy of the date it is named after |
| AuditDAO.ExportTwoFiles | src/main/java/Model/DAO/AuditDAOImpl.java:170-197 | exporting two order files gives the first file's stamped lines, then the second's |
| AuditDAO.ExportTestDates | src/main/java/Model/DAO/AuditDAOImpl.java:182-184 | 2025-09-30 renders as 09-30-2025 and 2024-10-30 as 10-30-2024 |
| AuditDAO.ExportFails | src/main/java/Model/DAO/AuditDAOImpl.java:175-192 | once a listed name fails, the whole export fails with that exception |
| AuditDAO.AuditStore.constructor | src/main/java/Model/DAO/AuditDAOImpl.java:41-48 | the store over the given files with an empty export file |
| AuditDAO.AuditStore.AddOrder | src/main/java/Model/DAO/AuditDAOImpl.java:58-80 | files become AppendedFile with the order's line; export file untouched |
| AuditDAO.AuditStore.EditAnOrder | src/main/java/Model/DAO/AuditDAOImpl.java:91-123 | outcome and files are RewriteFile with the order (null as none); files unchanged unless it completes |
| AuditDAO.AuditStore.RemoveOrder | src/main/java/Model/DAO/AuditDAOImpl.java:134-161 | outcome and files are RewriteFile removing the number; files unchanged unless it completes |
| AuditDAO.AuditStore.RewriteLines | src/main/java/Model/DAO/AuditDAOImpl.java:93-119 | the shared read-rewrite-write: outcome and files as RewriteFile says |
| AuditDAO.AuditStore.Export | src/main/java/Model/DAO/AuditDAOImpl.java:170-197 | order files unchanged; succeeds exactly when ExportOf does, the export file then holding ExportOf's lines, else the same exception |
| AuditDAO.ScanRewrite | src/main/java/Model/DAO/AuditDAOImpl.java:97-112 | the while loop's result is Rewritten of the scanned lines |
| AuditDAO.StampScanned | src/main/java/Model/DAO/AuditDAOImpl.java:186-189 | the inner loop's output is the scanned lines stamped with the date |
| Service.EmptyCoherent | src/main/java/Service/FlooringMasteryServiceImpl.java:35-40 | an empty repository and order files without lines start coherent |
| Service.SerializeAllAppend | src/main/java/Model/DAO/AuditDAOImpl.java:75 | the lines of two lists are the lines of each, in order |
| Service.AgreesAfterWrite | src/main/java/Service/FlooringMasteryServiceImpl.java:77-78 | writing a date's list and its file together keeps agreement, since no other date shares the file |
| Service.LinesOfBucket | src/main/java/Service/FlooringMasteryServiceImpl.java:77-78 | under agreement a date's file holds its list's lines, none when it has no list |
| Service.WithoutSnoc | src/main/java/Model/DAO/AuditDAOImpl.java:146 | filtering a list with one more order adds that order unless it has the number |
| Service.RemoveStepOnLine | src/main/java/Model/DAO/AuditDAOImpl.java:146-148 | removal keeps an order's line exactly when its number is not the one removed |
| Service.RemoveSerialized | src/main/java/Service/FlooringMasteryServiceImpl.java:129-130 | removing a number from a file of order lines leaves the lines of the list filtered by that number |
| Service.SerializedNumbers | src/main/java/Model/DAO/AuditDAOImpl.java:99-101 | each line of a list leads with its order's number |
| Service.EditSerialized | src/main/java/Service/FlooringMasteryServiceImpl.java:107-108 | when only the i-th order carries the number, the audit edit gives the lines of the list with that order replaced |
| Service.NullEditSerialized | src/main/java/Service/FlooringMasteryServiceImpl.java:107-108 | the audit edit with a null order fails on a non-empty file of order lines and keeps an empty one |
| Service.AddKeepsCoherent | src/main/java/Service/FlooringMasteryServiceImpl.java:67-83 | addOrder keeps the repository invariant and the files mirroring it; it completes exactly when the area parses as a whole number; the new order gets the counter, which moves on by one |
| Service.AddService | src/main/java/Service/FlooringMasteryServiceImpl.java:67-83 | addOrder on values: an unparsable area crashes with nothing changed; otherwise the order priced under the counter is appended to the date's list and its line to the date's file, and the counter moves on |
| Service.EditRequestFields | src/main/java/Service/FlooringMasteryServiceImpl.java:104 | the joined request splits back into the four fields when none holds a comma and the area is not empty; an empty area leaves three |
| Service.EditRequest | src/main/java/Service/FlooringMasteryServiceImpl.java:104 | the request string: name, state, product and area joined by commas |
| Service.EditService | src/main/java/Service/FlooringMasteryServiceImpl.java:94-113 | editAnOrder on values: the repository's edit; on a return, the audit's rewrite of the date's file with the returned order or null, its ModelExceptions rethrown |
| Service.EditKeepsValidWorld | src/main/java/Service/FlooringMasteryServiceImpl.java:94-113 | an edit keeps the repository invariant and counter; it throws ServiceExceptions(date not found) exactly when the date has no list |
| Service.EditKeepsCoherent | src/main/java/Service/FlooringMasteryServiceImpl.java:94-113 | an edit that ends without an unchecked exception keeps the files mirroring the repository |
| Service.EditAbsentService | src/main/java/Service/FlooringMasteryServiceImpl.java:107-108 | an unknown number changes nothing and returns null on an empty list, and crashes with a NullPointerException in the audit otherwise |
| Service.EditFoundService | src/main/java/Service/FlooringMasteryServiceImpl.java:107-108 | editing a found order keeps agreement unless an unchecked exception occurs |
| Service.EditAbsentRewrite | src/main/java/Service/FlooringMasteryServiceImpl.java:108 | the audit rewrite with null leaves an empty file alone and crashes on a non-empty one |
| Service.EditFoundAgrees | src/main/java/Service/FlooringMasteryServiceImpl.java:108 | the audit rewrite after a completed edit replaces the order's line and keeps agreement |
| Service.EditServiceDone | src/main/java/Service/FlooringMasteryServiceImpl.java:106-112 | a completed repository edit followed by the audit's outcome gives EditService's world and the rethrown outcome |
| Service.RemoveServiceSteps | src/main/java/Service/FlooringMasteryServiceImpl.java:128-133 | the repository removal followed by the audit's outcome gives RemoveService's world and the rethrown outcome |
| Service.RemoveKeepsCoherent | src/main/java/Service/FlooringMasteryServiceImpl.java:123-134 | removeOrder keeps coherence and the counter and never crashes; the only exception is the missing file, and then the date had no list and nothing changed |
| Service.RemoveService | src/main/java/Service/FlooringMasteryServiceImpl.java:123-134 | removeOrder on values: the repository's removal, its result ignored, then the audit's removal of the number's line, its ModelExceptions rethrown |
| Service.FlooringService.constructor | src/main/java/Service/FlooringMasteryServiceImpl.java:35-40 | the service holds the two given stores |
| Service.FlooringService.DisplayOrders | src/main/java/Service/FlooringMasteryServiceImpl.java:50-55 | the repository's listing of the date; fails exactly when the date has no list |
| Service.FlooringService.AddOrder | src/main/java/Service/FlooringMasteryServiceImpl.java:67-83 | both stores and the outcome end as AddService says, a completed add returning a fresh order; invariant kept |
| Service.FlooringService.AuditAdd | src/main/java/Service/FlooringMasteryServiceImpl.java:78 | the audit's append leaves the repository and the new order untouched |
| Service.FlooringService.EditAnOrder | src/main/java/Service/FlooringMasteryServiceImpl.java:94-113 | both stores and the returned order are as EditService says; the lists are not reassigned; invariant kept |
| Service.FlooringService.AuditEdit | src/main/java/Service/FlooringMasteryServiceImpl.java:108 | the audit's rewrite leaves the repository and the returned order untouched |
| Service.FlooringService.AuditRemove | src/main/java/Service/FlooringMasteryServiceImpl.java:130 | the audit's removal leaves the repository untouched |
| Service.FlooringService.RemoveOrder | src/main/java/Service/FlooringMasteryServiceImpl.java:123-134 | both stores and the outcome are as RemoveService says; invariant kept |
| Service.FlooringService.GetOrder | src/main/java/Service/FlooringMasteryServiceImpl.java:144-150 | the first order on the date with the number, or null; fails exactly when the date has no list |
| Service.FlooringService.ExportAllData | src/main/java/Service/FlooringMasteryServiceImpl.java:158-164 | order files unchanged; completes exactly when ExportOf does, writing its lines, else crashes with its exception |

## Left out

- File-system failures: `IOException` is not modelled. File creation, open and write always succeed. A missing file for edit or remove is modelled by the `FileReader` exception it causes. The export file's own path is assumed writable.
- `listFiles()` becomes a given sequence of names. Its order is whatever the caller passes. A null listing, when the folder is missing, is not modelled.
- The contents of the export file after a crash part way are not modelled. `AuditDAO.AuditStore.Export` states only the exception in that case.
- JSON requests and `LocalDate.parse` are not modelled. The service methods take an already parsed date, order number and strings. `getInt` failures are not modelled.
- Reference-data loading (`getProductInfo`, `getTaxInfo`, the constructor of `AuditDAOImpl`) is not modelled. It parses through `Double`. The product and tax tables are given maps.
- Lookups are preconditions, not results. On add, an unknown state or product makes the source throw a `NullPointerException` inside the constructor. On edit, an unknown one reaches the lookup in `order.set()` only when the request is complete. A request that stops earlier, with fewer than four fields or an unreadable area, stores the unknown state or product through its setter and then throws an index or `NumberFormatException` with no lookup at all. `EditsResolvable` excludes these requests too, and that exclusion is what keeps every stored order resolvable after such a crash. The user interface (`FlooringMasteryViewImpl.java` lines 354-398) sends only " " or a known state or product. The members that assume otherwise are listed below:
  - OrdersDAO.OrderRepository.AddOrder: requires the state and product to be in the tables (`Resolves`).
  - Service.FlooringService.AddOrder: requires the state and product to be in the tables (`Resolves`).
  - OrdersDAO.OrderRepository.EditAnOrder: requires a state or product named in the request to be in the tables (`EditsResolvable`).
  - Service.FlooringService.EditAnOrder: requires a state or product named in the request to be in the tables (`EditsResolvable`).
- OrdersDAO.EditedArea: only whole-number area texts are read. `Double.valueOf` of a fraction or an exponent is not modelled, and such a text counts as a `NumberFormatException`. Areas of 10^7 and above are also out, because there `Double.toString` switches to E-notation and `BigDecimal` would take a negative scale.
- JavaText.ParseInt: accepts only the ASCII digits '0' to '9'. `Integer.valueOf` and `Long.parseLong` also accept other Unicode decimal digits, such as Arabic-Indic ones; for such an area text `Service.AddService` crashes with a `NumberFormatException` where the source stores the number.
- Decimals.DecimalText: covers non-negative scales only, which is every amount the model produces.
- Integer widths: `int` order numbers and the `long` area are unbounded. Overflow of the counter or of `Long.parseLong` is not modelled.
- Names, states or products holding a line break would split an order line in two. This is not modelled: a file is a sequence of lines, and a field is stored as given.
- `Order.toString` is not overridden in `Order.java`, so `displayOrders` prints identity strings. It is modelled as a rendering function passed in.
- No rollback. A failing audit step leaves the repository changed, and the model states this outcome. Agreement between the stores is proved only for requests that do not crash.
- The global statics `orderStorage` and `orderAmount` are fields of one owned repository object.
