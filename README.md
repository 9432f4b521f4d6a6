# Electronics shop items, in Dafny

This is a model of the `Item` class of the electronics shop project. An item is one catalog line: a name, a unit price and a quantity. The model covers:

- the constructor's three checks, run in order;
- every item that passes them being registered in the class-wide list `Item.all`;
- the total price and the discount, which uses the class-wide `pay_rate`;
- the length-checked name setter;
- `item + item`, which adds the quantities;
- `string_to_number`, which tries `int()` and then `float()`;
- the row loop of `instantiate_from_csv`, which empties the catalog and then rebuilds it from a CSV file.

Layout:

- `outcomes.dfy` (module `Outcomes`): `Option`, `Result` and `Outcome`. These stand for a raised exception or a missing value.
- `literals.dfy` (module `Literals`): Python's `int()` of a string, limited to an optional sign followed by decimal digits. The digits are read left to right (`ScanDigits`). The result is proved equal to the positional value of the digits (`DigitsValue`).
- `item.dfy` (module `Items`) contains:
  - `Value`: the Python values the code tells apart with `isinstance`, which are `str`, `int`, `float`, an `Item`, and everything else.
  - `Error`: the ValueErrors and the TypeError the code raises, and the OSError that opening the file can raise.
  - class `Item`: the fields `name`, `price` and `quantity`, with the item operations.
  - class `Catalog`: the class-level state `Item.all` (field `all`) and `Item.pay_rate` (field `payRate`, initially `1.0`).
  - the CSV loader: the pure specification functions `ReadRow`, `BuildRow`, `LoadRows` and `LoadOutcome`, and the imperative method `Catalog.InstantiateFromCsv`, which is proved against them.

A Python constructor call `Item(name, price, quantity)` is modelled by `Catalog.CreateItem`. It checks the arguments with `CheckArgs`, allocates the `Item`, and appends it to `all` only when every check passed. The Dafny `Item` constructor only sets fields. The loader is given what opening the file yields, a `CsvFile`: its data rows (`Rows`), FileNotFoundError (`Missing`), or any other OSError from `open` (`Unopenable`). A `Row` maps column names to strings. The loader catches the first two cases and returns a `LoadStatus` (`Loaded`, `NotFound`, `Corrupt`) instead of printing a diagnostic. The third case is not caught at src/item.py:91-94, so the method returns it as the error `OpenFailed`. `float()` is passed in as a parameter `parseFloat: string -> Option<real>`, which returns `None` where `float()` raises.

The name setter's 10-character limit is not applied at construction: the constructor assigns `__name` directly (src/item.py:40), so construction and the CSV loader accept longer names (`ConstructionSkipsLengthLimit`).

## Model

| member | source | states |
|---|---|---|
| `Items.CheckArgs` | src/item.py:33-38 | Construction succeeds exactly when name is a non-empty `str`, price is an `int` or `float` greater than 0, and quantity is an `int` of at least 1. The first failing check decides the error (name, then price, then quantity). A successful check yields those fields, with the name non-empty, the price positive and the quantity at least 1. |
| `Items.Catalog.CreateItem` | src/item.py:25-43 | When the checks pass: a fresh item with the given fields is appended, and `all` becomes the old list plus that item, so earlier entries are unchanged. The new item's total price is price times quantity. When a check fails: the matching ValueError is returned and the catalog list and its contents are unchanged. `payRate` is never touched. |
| `Items.Item.constructor` | src/item.py:40-42 | Sets the three fields to the given values. |
| `Items.Catalog.constructor` | src/item.py:22-23 | The class-level state starts with an empty `all` and a `pay_rate` of 1.0. |
| `Items.Item.CalculateTotalPrice` | src/item.py:51-57 | Returns price times quantity and changes nothing, because it is a function. For a positive price and a quantity of at least 1, the total is at least the unit price. |
| `Items.Item.ApplyDiscount` | src/item.py:59-63 | The price becomes the old price times the catalog's current rate. The total price scales by the same rate. Name, quantity and the catalog are unchanged. |
| `Items.Item.SetName` | src/item.py:65-78 | A name of at most 10 characters, empty included, replaces the name, and `GetName` then returns it. A longer name returns `NameTooLong` and the old name stays. Price and quantity are unchanged. |
| `Items.ConstructionSkipsLengthLimit` | src/item.py:33-43 | A 12-character name passes construction, because the constructor does not apply the setter's limit. |
| `Items.Item.Add` | src/item.py:113-117 | With an item operand: the two quantities summed. With any other operand: `UnsupportedOperand`, the TypeError, which is not a ValueError. Neither operand changes, because it is a function. |
| `Literals.ParseInt` | src/item.py:100 | `int(s)` succeeds exactly on an optional sign followed by 1 to 4300 decimal digits, 4300 being CPython's default digit limit. It then gives the signed positional value of those digits. |
| `Literals.TooManyDigitsRejected` | src/item.py:100 | A string with more than 4300 digits after the sign is refused by `int()`. `string_to_number` then falls through to `float()`, and the loader reports such a quantity as a corrupt row. |
| `Literals.ParseIntExamples` | src/item.py:100 | "42" gives 42, "-7" gives -7, "+007" gives 7. "abc", "3.14", "" and "-" are rejected. |
| `Items.StringToNumber` | src/item.py:96-111 | An `int()` literal yields that integer. Otherwise a string `float()` accepts yields that float. Otherwise the result is `NotANumber`, a ValueError. Every success is numeric. |
| `Items.StringToNumberExamples` | src/item.py:96-111 | "42" gives the integer 42. "3.14" gives the float 3.14. "abc" raises ValueError. |
| `Items.ReadRowMeaning` | src/item.py:88 | About `ReadRow`, the argument evaluation `row['name'], float(row['price']), int(row['quantity'])`: the constructor arguments of a row exist exactly when the `name`, `price` and `quantity` columns are present, `float()` accepts the price and `int()` accepts the quantity. They are the name string, that float and that integer. |
| `Items.BuildRowMeaning` | src/item.py:88 | About `BuildRow`, which is `ReadRow` followed by the constructor's checks: a row yields an item exactly when its columns exist, its name is non-empty, its price parses to a positive float and its quantity parses to an integer of at least 1. The item carries those values and is well formed. |
| `Items.Catalog.ConstructFromRow` | src/item.py:88 | The item built from the row is appended as a fresh object that was not already in the list, and earlier entries are unchanged. A list without repeated objects stays without them. When the row does not build, the catalog list is unchanged. `payRate` is unchanged. |
| `Items.LoadRows` | src/item.py:86-90 | The loaded items are the items built from the leading rows, in file order, one per row. Loading stops at the first row that fails, or takes every row when none fails. |
| `Items.LoadRowsUnique` | src/item.py:86-90 | Any sequence of items built from leading rows that ends at a failing row or at the end of the file equals what `LoadRows` keeps. |
| `Items.LoadEndsAt` | src/item.py:86-94 | A load that built items from the leading rows and stopped at a failing row, or at the end of the file, leaves exactly those items. It reports `Corrupt` exactly when it stopped early. |
| `Items.LoadOutcome` | src/item.py:83-94 | The status is `NotFound` exactly when the file does not exist. The result is the error `OpenFailed`, which is not a ValueError, exactly when opening fails for another reason. The status is `Corrupt` exactly when some row fails to build. It is `Loaded` exactly when every row builds. A `Rows` or `Missing` source never gives an error. |
| `Items.Catalog.LoadRowLoop` | src/item.py:86-90 | Run on an emptied catalog, the row loop leaves only fresh, pairwise distinct items whose contents are `LoadRows` of the rows. Its status is `Corrupt` exactly when some row fails to build and `Loaded` otherwise, as `LoadOutcome` gives for those rows. `payRate` is unchanged. |
| `Items.Catalog.InstantiateFromCsv` | src/item.py:80-94 | The catalog is emptied first and ends up holding only fresh, pairwise distinct items (one new object per row) whose contents are `LoadRows` of the rows, or nothing when the file cannot be opened. The result is `LoadOutcome`: a missing file and a failing row are reported in the status, and only another error from opening the file is raised. `payRate` is unchanged. |
| `Items.ReloadReplaces` | src/item.py:82 | After two loads, the catalog holds exactly what the second load produced. Nothing accumulates. |
| `Items.WellFormedFileLoadsInOrder` | src/item.py:86-88 | Rows ("Widget", "9.99", "3") and ("Gadget", "5", "10") load as those two items, in that order, with status `Loaded`. |
| `Items.CorruptThirdRowKeepsPrefix` | src/item.py:86-90 | With a third row whose quantity is "abc", the first two items are kept and the status is `Corrupt`. |

## Left out

- File opening, the fixed path `CSV_FILENAME`, the windows-1251 encoding and the CSV tokenising of `csv.DictReader` (src/item.py:5, 84-85) are left out. These are I/O. The loader takes what opening the file yields: rows already split, a missing file, or another OSError. Errors raised while the rows are read, such as decoding errors or `csv.Error`, happen inside the inner `try` (src/item.py:86-90). They are caught like a failing row, so they have no case of their own: a row that fails to build gives the same outcome.
- The `print` diagnostics (src/item.py:92, 94) and the message plumbing of `InstantiateCSVError` (src/item.py:7-15) are replaced by the returned `LoadStatus`.
- `__repr__` and `__str__` (src/item.py:45-49) are display strings with no behaviour to verify.
- Floating point is left out. `price`, `pay_rate` and the totals are `real`, so IEEE rounding in `price * quantity` and `price *= pay_rate` is not reproduced. NaN, which passes `price <= 0` in Python, and infinities are not represented. An `int` price is stored as the equal `real`, so `calculate_total_price` does not tell int and float results apart.
- `float()` is an abstract parameter (`parseFloat`), not a model of Python's float syntax.
- `Literals.ParseInt` does not model `int()`'s leniencies: surrounding whitespace, `_` digit separators and non-ASCII digits. Its digit limit is fixed at CPython's default of 4300. A limit changed with `sys.set_int_max_str_digits` or `PYTHONINTMAXSTRDIGITS`, and older interpreters that have no limit, are not modelled.
- `bool` counting as `int` in `isinstance` is not modelled.
- `Items.Item.SetName` takes a `string`. Python's setter would also accept any object with a `len()`, and would raise TypeError for one without.
- `Items.StringToNumber` takes a `string`. Python's `int()` would also truncate a float argument and raise TypeError on `None`.
- Items can be constructed directly with the Dafny `Item` constructor, which neither checks nor registers. Only `Catalog.CreateItem` plays the role of the Python constructor.
- `pay_rate` and quantity can be assigned directly by any caller, in Dafny as in Python. No invariant on them is kept after construction, matching the source.
