/** The store catalog: items with a name, a unit price and a quantity, the
    catalog every successfully constructed item registers in, and the loader
    that rebuilds the catalog from the rows of a CSV file. */
module Items {
  import opened Outcomes
  import opened Literals

  /** A Python value as the item code sees it. Only the types the code tells
      apart with isinstance are distinguished; everything else is Other. */
  datatype Value =
    | Str(s: string)
    | Int(i: int)
    | Float(f: real)
    | ItemRef(item: Item)
    | Other

  /** The exceptions the item code raises. */
  datatype Error =
    | InvalidName         // ValueError: name is not a non-empty string
    | InvalidPrice        // ValueError: price is not a number > 0
    | InvalidQuantity     // ValueError: quantity is not an integer > 0
    | NameTooLong         // ValueError: renaming to more than MaxNameLength characters
    | NotANumber          // ValueError: string_to_number got neither an int nor a float
    | UnsupportedOperand  // TypeError: item + something that is not an item
    | OpenFailed          // OSError other than FileNotFoundError from opening the CSV file
  {
    predicate IsValueError() { !UnsupportedOperand? && !OpenFailed? }
  }

  /** The longest name the name setter accepts. */
  const MaxNameLength := 10

  /** The fields of one item, as a value. */
  datatype ItemData = ItemData(name: string, price: real, quantity: int)

  /** What construction guarantees about a new item's fields. */
  predicate WellFormed(d: ItemData) {
    d.name != "" && d.price > 0.0 && d.quantity >= 1
  }

  predicate IsNumeric(v: Value) { v.Int? || v.Float? }

  function NumericValue(v: Value): real
    requires IsNumeric(v)
  {
    if v.Int? then v.i as real else v.f
  }

  predicate ValidName(v: Value) { v.Str? && |v.s| > 0 }
  predicate ValidPrice(v: Value) { IsNumeric(v) && NumericValue(v) > 0.0 }
  predicate ValidQuantity(v: Value) { v.Int? && v.i >= 1 }

  /** The three checks of the item constructor, in the order it makes them:
      the first failing check decides which error is raised. */
  function CheckArgs(name: Value, price: Value, quantity: Value): (r: Result<ItemData, Error>)
    ensures r.Ok? <==> ValidName(name) && ValidPrice(price) && ValidQuantity(quantity)
    ensures r.Ok? ==> WellFormed(r.value)
    ensures r.Ok? ==> r.value == ItemData(name.s, NumericValue(price), quantity.i)
    ensures !ValidName(name) ==> r == Err(InvalidName)
    ensures ValidName(name) && !ValidPrice(price) ==> r == Err(InvalidPrice)
    ensures ValidName(name) && ValidPrice(price) && !ValidQuantity(quantity) ==> r == Err(InvalidQuantity)
  {
    if !name.Str? || name.s == "" then Err(InvalidName)
    else if !(price.Float? || price.Int?) || NumericValue(price) <= 0.0 then Err(InvalidPrice)
    else if !quantity.Int? || quantity.i < 1 then Err(InvalidQuantity)
    else Ok(ItemData(name.s, NumericValue(price), quantity.i))
  }

  /** One item of the store. The constructor only sets the fields; the
      checked construction that also registers the item is Catalog.CreateItem. */
  class Item {
    var name: string   // private in the source, read through GetName, written through SetName
    var price: real
    var quantity: int

    constructor (name: string, price: real, quantity: int)
      ensures Data() == ItemData(name, price, quantity)
    {
      this.name := name;
      this.price := price;
      this.quantity := quantity;
    }

    /** The current fields, as a value. */
    function Data(): ItemData
      reads this
    {
      ItemData(name, price, quantity)
    }

    /** The name getter. */
    function GetName(): string
      reads this
    {
      name
    }

    /** The total value of the stock of this item: unit price times quantity. */
    function CalculateTotalPrice(): (total: real)
      reads this
      ensures total == price * quantity as real
      ensures price > 0.0 && quantity >= 1 ==> total >= price
    {
      price * quantity as real
    }

    /** Multiplies the price by the catalog-wide discount rate, read at the
        time of the call. */
    method ApplyDiscount(catalog: Catalog)
      modifies this
      ensures price == old(price) * catalog.payRate
      ensures name == old(name) && quantity == old(quantity)
      ensures CalculateTotalPrice() == old(CalculateTotalPrice()) * catalog.payRate
      ensures unchanged(catalog)
    {
      price := price * catalog.payRate;
    }

    /** The name setter: a name of at most MaxNameLength characters, the
        empty name included, replaces the old one; a longer one is refused. */
    method SetName(newName: string) returns (r: Outcome<Error>)
      modifies this
      ensures r == if |newName| <= MaxNameLength then Pass else Fail(NameTooLong)
      ensures GetName() == if r.Pass? then newName else old(GetName())
      ensures price == old(price) && quantity == old(quantity)
    {
      if |newName| <= MaxNameLength {
        name := newName;
        r := Pass;
      } else {
        r := Fail(NameTooLong);
      }
    }

    /** item + other: the sum of the two quantities when other is an item,
        a TypeError for any other operand. Neither operand changes. */
    function Add(other: Value): (r: Result<int, Error>)
      reads this, if other.ItemRef? then {other.item} else {}
      ensures r.Ok? <==> other.ItemRef?
      ensures r.Ok? ==> r.value == quantity + other.item.quantity
      ensures r.Err? ==> r.error == UnsupportedOperand && !r.error.IsValueError()
    {
      match other
      case ItemRef(item) => Ok(quantity + item.quantity)
      case _ => Err(UnsupportedOperand)
    }
  }

  /** Construction writes the name directly rather than through the setter,
      so it accepts names longer than MaxNameLength. */
  lemma ConstructionSkipsLengthLimit()
    ensures |"Smartphone X"| > MaxNameLength
    ensures CheckArgs(Str("Smartphone X"), Int(1), Int(1)) == Ok(ItemData("Smartphone X", 1.0, 1))
  {
  }

  /** The fields of a sequence of items, in the same order. */
  function Snapshot(items: seq<Item>): (ds: seq<ItemData>)
    reads items
    ensures |ds| == |items|
    ensures forall j :: 0 <= j < |items| ==> ds[j] == items[j].Data()
  {
    if items == [] then [] else Snapshot(items[..|items| - 1]) + [items[|items| - 1].Data()]
  }

  /** string_to_number: int() first, float() only where int() fails, and a
      ValueError where both fail. float() is the parameter parseFloat. */
  function StringToNumber(s: string, parseFloat: string -> Option<real>): (r: Result<Value, Error>)
    ensures r.Ok? ==> IsNumeric(r.value)
    ensures IsIntLiteral(s) ==> r == Ok(Int(LiteralValue(s)))
    ensures !IsIntLiteral(s) && parseFloat(s).Some? ==> r == Ok(Float(parseFloat(s).value))
    ensures r.Err? <==> !IsIntLiteral(s) && parseFloat(s).None?
    ensures r.Err? ==> r.error == NotANumber && r.error.IsValueError()
  {
    var asInt := ParseInt(s);
    if asInt.Some? then Ok(Int(asInt.value))
    else match parseFloat(s)
      case Some(f) => Ok(Float(f))
      case None => Err(NotANumber)
  }

  /** Sample inputs: an integer string, a decimal string and a non-number. */
  lemma StringToNumberExamples(parseFloat: string -> Option<real>)
    requires parseFloat("3.14") == Some(3.14)
    requires parseFloat("abc") == None
    ensures StringToNumber("42", parseFloat) == Ok(Int(42))
    ensures StringToNumber("3.14", parseFloat) == Ok(Float(3.14))
    ensures StringToNumber("abc", parseFloat) == Err(NotANumber)
  {
    ParseIntExamples();
  }

  // ---------------------------------------------------------------------
  // Loading from CSV

  /** One data row of the CSV file, keyed by the header's column names. */
  type Row = map<string, string>

  /** How a load ended, in place of the diagnostics the loader prints. */
  datatype LoadStatus = Loaded | NotFound | Corrupt

  /** What opening the CSV file gives: its data rows, FileNotFoundError,
      or another OSError (a permission error, a directory, ...). */
  datatype CsvFile = Rows(rows: seq<Row>) | Missing | Unopenable

  /** The constructor arguments of one row: the name column as it is, the
      price column through float() and the quantity column through int().
      None when a column is missing or a conversion raises. */
  function ReadRow(row: Row, parseFloat: string -> Option<real>): Option<(Value, Value, Value)> {
    if "name" !in row || "price" !in row || "quantity" !in row then None
    else match (parseFloat(row["price"]), ParseInt(row["quantity"]))
      case (Some(p), Some(q)) => Some((Str(row["name"]), Float(p), Int(q)))
      case _ => None
  }

  /** The item one row produces, or None when reading or constructing it raises. */
  function BuildRow(row: Row, parseFloat: string -> Option<real>): Option<ItemData> {
    match ReadRow(row, parseFloat)
    case None => None
    case Some((name, price, quantity)) =>
      match CheckArgs(name, price, quantity)
      case Ok(d) => Some(d)
      case Err(_) => None
  }

  /** Reading a row succeeds exactly when the three columns exist and both
      conversions accept their column. */
  lemma ReadRowMeaning(row: Row, parseFloat: string -> Option<real>)
    ensures ReadRow(row, parseFloat).Some? <==>
      "name" in row && "price" in row && "quantity" in row &&
      parseFloat(row["price"]).Some? && IsIntLiteral(row["quantity"])
    ensures ReadRow(row, parseFloat).Some? ==>
      ReadRow(row, parseFloat).value ==
        (Str(row["name"]), Float(parseFloat(row["price"]).value), Int(LiteralValue(row["quantity"])))
  {
  }

  /** A row yields an item exactly when its columns exist, its name is
      non-empty, its price is a float above 0 and its quantity an integer of
      at least 1; the item carries those values. */
  lemma BuildRowMeaning(row: Row, parseFloat: string -> Option<real>)
    ensures BuildRow(row, parseFloat).Some? <==>
      "name" in row && "price" in row && "quantity" in row &&
      row["name"] != "" &&
      parseFloat(row["price"]).Some? && parseFloat(row["price"]).value > 0.0 &&
      IsIntLiteral(row["quantity"]) && LiteralValue(row["quantity"]) >= 1
    ensures BuildRow(row, parseFloat).Some? ==>
      BuildRow(row, parseFloat).value ==
        ItemData(row["name"], parseFloat(row["price"]).value, LiteralValue(row["quantity"]))
    ensures BuildRow(row, parseFloat).Some? ==> WellFormed(BuildRow(row, parseFloat).value)
  {
    ReadRowMeaning(row, parseFloat);
  }

  /** The items a load leaves in the catalog: those built from the rows
      before the first failing row, in file order. */
  function LoadRows(rows: seq<Row>, parseFloat: string -> Option<real>): (ds: seq<ItemData>)
    ensures |ds| <= |rows|
    ensures forall j :: 0 <= j < |ds| ==> BuildRow(rows[j], parseFloat) == Some(ds[j])
    ensures |ds| < |rows| ==> BuildRow(rows[|ds|], parseFloat).None?
  {
    if rows == [] then []
    else match BuildRow(rows[0], parseFloat)
      case None => []
      case Some(d) => [d] + LoadRows(rows[1..], parseFloat)
  }

  /** Any run of rows that all build and that ends at a failing row or at the
      end of the file is exactly what LoadRows keeps. */
  lemma LoadRowsUnique(rows: seq<Row>, parseFloat: string -> Option<real>, ds: seq<ItemData>)
    requires |ds| <= |rows|
    requires forall j :: 0 <= j < |ds| ==> BuildRow(rows[j], parseFloat) == Some(ds[j])
    requires |ds| < |rows| ==> BuildRow(rows[|ds|], parseFloat).None?
    ensures LoadRows(rows, parseFloat) == ds
  {
    var loaded := LoadRows(rows, parseFloat);
    assert |loaded| == |ds|;
  }

  /** The catalog contents once a load has run; a file that cannot be
      opened leaves it empty. */
  function LoadedContents(source: CsvFile, parseFloat: string -> Option<real>): seq<ItemData> {
    match source
    case Rows(rows) => LoadRows(rows, parseFloat)
    case _ => []
  }

  /** How a load ends: not found without a file, corrupt when some row
      fails, and raised to the caller when opening fails for another reason. */
  function LoadOutcome(source: CsvFile, parseFloat: string -> Option<real>): (r: Result<LoadStatus, Error>)
    ensures r == Ok(NotFound) <==> source.Missing?
    ensures r == Err(OpenFailed) <==> source.Unopenable?
    ensures r.Err? <==> source.Unopenable?
    ensures r.Err? ==> !r.error.IsValueError()
    ensures r == Ok(Loaded) <==>
      source.Rows? && forall j :: 0 <= j < |source.rows| ==> BuildRow(source.rows[j], parseFloat).Some?
    ensures r == Ok(Corrupt) <==>
      source.Rows? && exists j :: 0 <= j < |source.rows| && BuildRow(source.rows[j], parseFloat).None?
  {
    match source
    case Missing => Ok(NotFound)
    case Unopenable => Err(OpenFailed)
    case Rows(rows) => if |LoadRows(rows, parseFloat)| < |rows| then Ok(Corrupt) else Ok(Loaded)
  }

  /** No item object occurs twice in the list. */
  predicate Distinct(items: seq<Item>) {
    forall j, k :: 0 <= j < k < |items| ==> items[j] != items[k]
  }

  /** Appending an object not yet in the list keeps it free of repeats. */
  lemma DistinctAppend(items: seq<Item>, x: Item)
    requires Distinct(items) && x !in items
    ensures Distinct(items + [x])
  {
  }

  /** ds are the items built from the first |ds| rows, one per row. */
  predicate BuiltFrom(rows: seq<Row>, parseFloat: string -> Option<real>, ds: seq<ItemData>) {
    |ds| <= |rows| && forall j :: 0 <= j < |ds| ==> BuildRow(rows[j], parseFloat) == Some(ds[j])
  }

  /** The next row's item extends a run of built items. */
  lemma BuiltFromExtend(rows: seq<Row>, parseFloat: string -> Option<real>, ds: seq<ItemData>)
    requires BuiltFrom(rows, parseFloat, ds)
    requires |ds| < |rows| && BuildRow(rows[|ds|], parseFloat).Some?
    ensures BuiltFrom(rows, parseFloat, ds + [BuildRow(rows[|ds|], parseFloat).value])
  {
  }

  /** What a load that built the items ds and then stopped reports: the
      catalog holds ds, and the load is corrupt exactly when it stopped early. */
  lemma LoadEndsAt(rows: seq<Row>, parseFloat: string -> Option<real>, ds: seq<ItemData>)
    requires BuiltFrom(rows, parseFloat, ds)
    requires |ds| < |rows| ==> BuildRow(rows[|ds|], parseFloat).None?
    ensures LoadedContents(Rows(rows), parseFloat) == ds
    ensures LoadOutcome(Rows(rows), parseFloat) == Ok(if |ds| < |rows| then Corrupt else Loaded)
  {
    LoadRowsUnique(rows, parseFloat, ds);
  }

  /** The shared state of the Item class: the list every constructed item is
      appended to, and the discount rate every item applies. */
  class Catalog {
    var all: seq<Item>
    var payRate: real

    constructor ()
      ensures all == [] && payRate == 1.0
    {
      all := [];
      payRate := 1.0;
    }

    /** The fields of the registered items, in registration order. */
    function Contents(): seq<ItemData>
      reads this, all
    {
      Snapshot(all)
    }

    /** Item(name, price, quantity): checks the arguments and, only when all
        three checks pass, creates the item and appends it to the catalog. */
    method CreateItem(name: Value, price: Value, quantity: Value) returns (r: Result<Item, Error>)
      modifies this
      ensures payRate == old(payRate)
      ensures r.Ok? <==> CheckArgs(name, price, quantity).Ok?
      ensures r.Err? ==> r.error == CheckArgs(name, price, quantity).error && r.error.IsValueError()
      ensures r.Err? ==> all == old(all) && Contents() == old(Contents())
      ensures r.Ok? ==> fresh(r.value) && all == old(all) + [r.value]
      ensures r.Ok? ==> r.value.Data() == CheckArgs(name, price, quantity).value
      ensures r.Ok? ==> Contents() == old(Contents()) + [r.value.Data()]
      ensures r.Ok? ==> r.value.CalculateTotalPrice() == NumericValue(price) * quantity.i as real
    {
      match CheckArgs(name, price, quantity)
      case Err(e) =>
        r := Err(e);
      case Ok(d) =>
        var item := new Item(d.name, d.price, d.quantity);
        all := all + [item];
        r := Ok(item);
    }

    /** One iteration of the loader: Item(row['name'], float(row['price']),
        int(row['quantity'])). Appends the row's item, or changes nothing
        when a column is missing, a conversion raises or a check fails. */
    method ConstructFromRow(row: Row, parseFloat: string -> Option<real>) returns (ok: bool)
      modifies this
      ensures payRate == old(payRate)
      ensures ok == BuildRow(row, parseFloat).Some?
      ensures ok ==> |all| == |old(all)| + 1 && all[..|old(all)|] == old(all) && fresh(all[|old(all)|])
      ensures ok ==> all[|old(all)|] !in old(all)
      ensures Distinct(old(all)) ==> Distinct(all)
      ensures forall x :: x in all ==> x in old(all) || fresh(x)
      ensures ok ==> Contents() == old(Contents()) + [BuildRow(row, parseFloat).value]
      ensures !ok ==> all == old(all)
    {
      var args := ReadRow(row, parseFloat);
      if args.None? {
        return false;
      }
      var (name, price, quantity) := args.value;
      var r := CreateItem(name, price, quantity);
      ok := r.Ok?;
      if ok && Distinct(old(all)) {
        assert all == old(all) + [all[|old(all)|]];
        DistinctAppend(old(all), all[|old(all)|]);
      }
    }

    /** The row loop of instantiate_from_csv, run on an emptied catalog:
        constructs one item per row in file order and stops at the first row
        that fails, keeping the items built before it. */
    method LoadRowLoop(rows: seq<Row>, parseFloat: string -> Option<real>)
      returns (status: LoadStatus)
      requires all == []
      modifies this
      ensures payRate == old(payRate)
      ensures forall x :: x in all ==> fresh(x)
      ensures Distinct(all)
      ensures Contents() == LoadedContents(Rows(rows), parseFloat)
      ensures Ok(status) == LoadOutcome(Rows(rows), parseFloat)
    {
      var i := 0;
      ghost var built: seq<ItemData> := [];
      while i < |rows|
        invariant 0 <= i <= |rows|
        invariant payRate == old(payRate)
        invariant |all| == i && |built| == i
        invariant forall x :: x in all ==> fresh(x)
        invariant Distinct(all)
        invariant Contents() == built
        invariant BuiltFrom(rows, parseFloat, built)
      {
        var ok := ConstructFromRow(rows[i], parseFloat);
        if !ok {
          LoadEndsAt(rows, parseFloat, built);
          return Corrupt;
        }
        BuiltFromExtend(rows, parseFloat, built);
        built := built + [BuildRow(rows[i], parseFloat).value];
        i := i + 1;
      }
      LoadEndsAt(rows, parseFloat, built);
      status := Loaded;
    }

    /** instantiate_from_csv: empties the catalog, then runs the row loop. A
        missing file and a failing row are caught and reported in the status;
        any other error opening the file is raised. */
    method InstantiateFromCsv(source: CsvFile, parseFloat: string -> Option<real>)
      returns (r: Result<LoadStatus, Error>)
      modifies this
      ensures payRate == old(payRate)
      ensures forall x :: x in all ==> fresh(x)
      ensures Distinct(all)
      ensures Contents() == LoadedContents(source, parseFloat)
      ensures r == LoadOutcome(source, parseFloat)
    {
      all := [];
      if source.Missing? {
        return Ok(NotFound);
      } else if source.Unopenable? {
        return Err(OpenFailed);
      }
      var status := LoadRowLoop(source.rows, parseFloat);
      r := Ok(status);
    }
  }

  /** Two loads in a row: the catalog holds what the second one loaded and
      nothing from the first. */
  method ReloadReplaces(
    catalog: Catalog, first: CsvFile, second: CsvFile,
    parseFloat: string -> Option<real>)
    modifies catalog
    ensures catalog.Contents() == LoadedContents(second, parseFloat)
  {
    var _ := catalog.InstantiateFromCsv(first, parseFloat);
    var _ := catalog.InstantiateFromCsv(second, parseFloat);
  }

  /** A CSV row with the three expected columns. */
  function CsvRow(name: string, price: string, quantity: string): Row {
    map["name" := name, "price" := price, "quantity" := quantity]
  }

  /** A well-formed file loads all of its rows, in file order. */
  lemma WellFormedFileLoadsInOrder(parseFloat: string -> Option<real>)
    requires parseFloat("9.99") == Some(9.99)
    requires parseFloat("5") == Some(5.0)
    ensures LoadRows([CsvRow("Widget", "9.99", "3"), CsvRow("Gadget", "5", "10")], parseFloat)
         == [ItemData("Widget", 9.99, 3), ItemData("Gadget", 5.0, 10)]
    ensures LoadOutcome(Rows([CsvRow("Widget", "9.99", "3"), CsvRow("Gadget", "5", "10")]), parseFloat) == Ok(Loaded)
  {
    var rows := [CsvRow("Widget", "9.99", "3"), CsvRow("Gadget", "5", "10")];
    QuantityLiterals();
    BuildRowMeaning(rows[0], parseFloat);
    BuildRowMeaning(rows[1], parseFloat);
    LoadRowsUnique(rows, parseFloat, [ItemData("Widget", 9.99, 3), ItemData("Gadget", 5.0, 10)]);
  }

  /** A file whose third row has a non-integer quantity keeps the first two items. */
  lemma CorruptThirdRowKeepsPrefix(parseFloat: string -> Option<real>)
    requires parseFloat("9.99") == Some(9.99)
    requires parseFloat("5") == Some(5.0)
    ensures LoadRows([CsvRow("Widget", "9.99", "3"), CsvRow("Gadget", "5", "10"), CsvRow("Broken", "5", "abc")], parseFloat)
         == [ItemData("Widget", 9.99, 3), ItemData("Gadget", 5.0, 10)]
    ensures LoadOutcome(Rows([CsvRow("Widget", "9.99", "3"), CsvRow("Gadget", "5", "10"), CsvRow("Broken", "5", "abc")]), parseFloat) == Ok(Corrupt)
  {
    var rows := [CsvRow("Widget", "9.99", "3"), CsvRow("Gadget", "5", "10"), CsvRow("Broken", "5", "abc")];
    QuantityLiterals();
    BuildRowMeaning(rows[0], parseFloat);
    BuildRowMeaning(rows[1], parseFloat);
    BuildRowMeaning(rows[2], parseFloat);
    LoadRowsUnique(rows, parseFloat, [ItemData("Widget", 9.99, 3), ItemData("Gadget", 5.0, 10)]);
  }

  /** The quantity columns of the two sample files, through int(). */
  lemma QuantityLiterals()
    ensures IsIntLiteral("3") && LiteralValue("3") == 3
    ensures IsIntLiteral("10") && LiteralValue("10") == 10
    ensures !IsIntLiteral("abc")
  {
    assert "3"[1..] == "";
    assert "10"[1..] == "0" && "0"[1..] == "";
    assert !IsDigit("abc"[0]);
  }
}
