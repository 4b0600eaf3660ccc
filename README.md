# Pharmacy record stores

A Dafny model of the record-management layer of `PharmacyManagementSystem.java`.
The system keeps three stores, for medicines, customers and orders. Each store
holds an in-memory list of one record type and backs it with a flat text file
containing one comma-separated line per record. Every store does the same four
things:

- **load** fills the list from its file when the store is built;
- **add** (`addMedicine`, `addCustomer`, `createOrder`) parses the numeric inputs, then appends the record and saves;
- **save** rewrites the whole file from the list;
- **ids** (`getMedicineIds`, `getCustomerIds`) lists the ids as decimal text. The order dialog offers these strings as choices and parses them back.

Layout:

- `wrappers.dfy`: the `Option` and `Result` datatypes.
- `java_strings.dfy`: the Java library behaviour the line format rests on:
  - `Integer.parseInt` (`ParseInt`, with the 32-bit range);
  - `String.valueOf(int)` (`IntToString`);
  - `String.split(",")` (`Split`), which drops trailing empty pieces except when the line has no comma;
  - `Join`, used to state round trips.
- `price_text.dfy`: a price as a whole number of hundredths.
  - `PriceToString` writes what `Double.toString` writes for such a value: "5.0", "7.25", "-1.5".
  - `ParsePrice` reads plain decimal text as `Double.parseDouble` does.
- `line_files.dfy`: what the three stores share:
  - the file, `None` when it does not exist, otherwise its lines;
  - the two unchecked exceptions a bad line raises (`IndexOutOfBounds`, `NumberFormat`);
  - `ParseLines`, the load loop as a function that stops at the first bad line;
  - `Serialize`, the save loop as a function.
- `medicines.dfy`, `customers.dfy`, `orders.dfy`: each record datatype with:
  - its line format and its line parser (checks in Java's evaluation order);
  - round-trip lemmas;
  - the store class, whose methods update the `seq` list and the file in place, with loop invariants against `ParseLines` and `Serialize`.
- `scenarios.dfy`: short runs of the stores derived from their contracts alone:
  - reload after save;
  - duplicate ids kept;
  - a rejected quantity;
  - an order made from the offered ids;
  - concrete lines.

Conventions:

- A Java store constructor is modelled as `constructor(file)` followed by `LoadX()`. The exception that Java lets escape the constructor is `LoadX`'s returned `failure`.
- `SaveX(writable)` models a `FileWriter` that may not open. Java catches that `IOException`, so the list stays changed and the file stays as it was.
- A combo-box choice in `createOrder` is the index picked in the id list. An empty combo box selects nothing: `Integer.parseInt(null)` raises `NumberFormatException`, so nothing changes.

The model follows the code:

- A malformed line aborts the whole load, and the records before it stay in the list.
- Save errors are swallowed.
- Ids are never checked for uniqueness or against the other stores.

## Model

| member | source | states |
|---|---|---|
| JavaStrings.NatToString | PharmacyManagementSystem.java:221 | The decimal digits of a natural number, most significant first: non-empty, all digits, and no leading zero unless the number is 0 |
| JavaStrings.IntToString | PharmacyManagementSystem.java:221 | The text of an int is non-empty, holds no comma, and starts with '-' exactly when the int is negative |
| JavaStrings.ParseInt | PharmacyManagementSystem.java:103 | `Integer.parseInt`: one optional '+' or '-', then one or more ASCII digits, with the value inside the 32-bit range. Anything else, including the empty text, is a NumberFormatException (None) |
| JavaStrings.DigitsValueOfNatToString | PharmacyManagementSystem.java:221 | Reading the decimal digits written for a natural number gives that number back |
| JavaStrings.ParseIntOfIntToString | PharmacyManagementSystem.java:468-469 | Every 32-bit int written by `String.valueOf` is read back by `Integer.parseInt` as the same int |
| JavaStrings.IntToStringInjective | PharmacyManagementSystem.java:221 | Two ints with the same decimal text are equal, so an id text names exactly one id |
| JavaStrings.Join | PharmacyManagementSystem.java:169 | The pieces with a single comma between each two, as the save writes a record's fields |
| JavaStrings.Fields | PharmacyManagementSystem.java:102 | The pieces between commas: at least one, none holding a comma, and the whole string when it has no comma |
| JavaStrings.DropTrailingEmpty | PharmacyManagementSystem.java:102 | Removes only the trailing run of empty pieces: the result is a prefix, ends in a non-empty piece (or is empty), and everything removed was empty |
| JavaStrings.Split | PharmacyManagementSystem.java:253 | No piece returned by split on "," contains a comma |
| JavaStrings.FieldsOfJoin | PharmacyManagementSystem.java:317 | Joining comma-free pieces with commas and cutting at the commas gives the same pieces back |
| JavaStrings.SplitOfJoin | PharmacyManagementSystem.java:407 | Splitting a line joined from comma-free pieces gives the pieces, with trailing empty ones dropped when there are two or more |
| JavaStrings.SplitJoinRoundTrip | PharmacyManagementSystem.java:253-256 | Split undoes Join on comma-free pieces exactly when there is one piece or the last piece is non-empty |
| PriceText.FractionText | PharmacyManagementSystem.java:169 | The hundredths are written with one or two digits |
| PriceText.MagnitudeText | PharmacyManagementSystem.java:169 | An unsigned price text is non-empty, starts with a digit and holds no comma |
| PriceText.PriceToString | PharmacyManagementSystem.java:169 | A written price is non-empty and holds no comma, so it stays one piece of its line |
| PriceText.ParseMagnitude | PharmacyManagementSystem.java:106 | The unsigned part of a price text: digits, then an optional '.' followed by at most two digits, with at least one digit in all. Its value is in hundredths |
| PriceText.ParsePrice | PharmacyManagementSystem.java:153 | `Double.parseDouble` on plain decimal text: one optional '+' or '-', then what ParseMagnitude reads, negated after a '-'. The empty text and anything ParseMagnitude rejects are a NumberFormatException (None) |
| PriceText.FirstIndexOf | PharmacyManagementSystem.java:106 | The position of the first '.' (or the length when there is none): nothing before it is a '.' |
| PriceText.FractionRoundTrip | PharmacyManagementSystem.java:106 | Reading the fraction digits written for some hundredths gives those hundredths back |
| PriceText.ParseMagnitudeRoundTrip | PharmacyManagementSystem.java:106 | An unsigned price text reads back as the same number of hundredths |
| PriceText.ParsePriceOfSigned | PharmacyManagementSystem.java:153 | `parseDouble` of a sign followed by an unsigned number is that number, negated when the sign is '-' |
| PriceText.ParsePriceOfPriceToString | PharmacyManagementSystem.java:106 | Every price the save writes, `parseDouble` reads back as the same price |
| LineFiles.ParseLines | PharmacyManagementSystem.java:101-108 | The read loop as a function. It reads the lines in order and appends each line's record. At the first line that raises it stops, keeps the records before it, and reports that line's index and exception |
| LineFiles.Serialize | PharmacyManagementSystem.java:168-171 | The write loop as a function: each record's line, in list order |
| LineFiles.ParseLinesMeaning | PharmacyManagementSystem.java:101-108 | Load record i comes from line i, in file order. Either every line was read, or the first line not read is the one whose exception is reported, with its index |
| LineFiles.ParseLinesWellFormed | PharmacyManagementSystem.java:252-258 | A file of N lines that all parse loads as N records, the i-th from the i-th line, with no failure |
| LineFiles.ParseLinesNext | PharmacyManagementSystem.java:406-413 | One more pass of the read loop appends the line's record, or stops with that line's exception |
| LineFiles.SerializeNext | PharmacyManagementSystem.java:485-488 | One more pass of the write loop adds the record's line at the end |
| LineFiles.ParseLinesStops | PharmacyManagementSystem.java:99-111 | Once a line has raised, the lines after it change nothing: the exception leaves the loop |
| LineFiles.SerializeMeaning | PharmacyManagementSystem.java:167-171 | Save writes exactly one line per record, the i-th line for the i-th record |
| LineFiles.SerializeOne | PharmacyManagementSystem.java:168-171 | Saving a one-record list writes exactly that record's line |
| LineFiles.LoadAfterSave | PharmacyManagementSystem.java:166-171 | If every record's line parses back to that record, loading the saved file gives the list back, in order, with no failure |
| LineFiles.LoadAfterSaveOnlyIf | PharmacyManagementSystem.java:98-108 | If loading the saved file gives the list back, then every record's line parses back to that record |
| Medicines.MedicineLine | PharmacyManagementSystem.java:169 | The saved line of a medicine: the id's text, the name, the quantity's text and the price's text, joined by commas |
| Medicines.ParseMedicineFields | PharmacyManagementSystem.java:103-107 | Reads the split pieces in Java's order. A medicine is built exactly when there are at least four pieces and pieces 0 and 2 are ints and piece 3 a price; the name is piece 1 and later pieces are ignored. Otherwise the error is the first check to fail, in Java's order: piece 0 is parsed, pieces 1 and 2 are indexed and piece 2 parsed, then piece 3 indexed and parsed. An index-out-of-bounds names the first missing index (the number of pieces); every numeric piece before it parsed. A NumberFormatException names a piece that does not parse; every numeric piece before it parsed |
| Medicines.ParseMedicineLine | PharmacyManagementSystem.java:102-107 | One pass of the load loop: split the line on commas, then read the pieces as ParseMedicineFields does |
| Medicines.ParseMedicineInput | PharmacyManagementSystem.java:150-155 | The add dialog's parses: a medicine is built exactly when the id and quantity texts are ints and the price text is a price; the name is taken as typed |
| Medicines.MedicineLineParts | PharmacyManagementSystem.java:102 | The line of a medicine whose name has no comma splits into exactly its four written pieces |
| Medicines.MedicineLineRoundTrip | PharmacyManagementSystem.java:102-107 | A medicine's saved line loads back as the same medicine if and only if its name holds no comma |
| Medicines.MedicineFileRoundTrip | PharmacyManagementSystem.java:166-171 | The medicine file reloads as exactly the saved list if and only if no medicine name holds a comma |
| Medicines.MedicineInputAgreesWithLoader | PharmacyManagementSystem.java:150-153 | The add dialog accepts exactly the texts the loader accepts as the four pieces of a line, and builds the same medicine |
| Medicines.MedicineManagement.constructor | PharmacyManagementSystem.java:90-96 | A new store has an empty list over its file |
| Medicines.MedicineManagement.LoadMedicines | PharmacyManagementSystem.java:98-112 | A missing file leaves the list unchanged with no failure. Otherwise the records of the file's lines are appended in order up to the first bad line, and that line's exception is returned |
| Medicines.MedicineManagement.SaveMedicines | PharmacyManagementSystem.java:166-175 | The file is replaced, not appended to, by one line per medicine in list order. A file that cannot be opened is left unchanged |
| Medicines.MedicineManagement.AddMedicine | PharmacyManagementSystem.java:148-161 | All numbers are parsed first. On success exactly one medicine is appended at the end, whatever its id, and the file is saved. On a parse failure neither the list nor the file changes |
| Medicines.MedicineManagement.GetMedicineIds | PharmacyManagementSystem.java:218-224 | One entry per medicine, in list order. Entry i is the decimal text of medicine i's id and parses back to that id |
| Customers.CustomerLine | PharmacyManagementSystem.java:317 | The saved line of a customer: the id's text, the name and the contact, joined by commas |
| Customers.ParseCustomerFields | PharmacyManagementSystem.java:254-257 | A customer is built exactly when there are at least three pieces and piece 0 is an int; name and contact are pieces 1 and 2 and later pieces are ignored. Otherwise piece 0 is parsed first: when it exists and is not an int the error is NumberFormatException at 0. A missing piece gives index-out-of-bounds at the first missing index (the number of pieces) only when any piece 0 parsed |
| Customers.ParseCustomerLine | PharmacyManagementSystem.java:253-257 | One pass of the load loop: split the line on commas, then read the pieces as ParseCustomerFields does |
| Customers.ParseCustomerInput | PharmacyManagementSystem.java:299-303 | The add dialog's parse: a customer is built exactly when the id text is an int; name and contact are taken as typed |
| Customers.CustomerLineRoundTrip | PharmacyManagementSystem.java:253-257 | A customer's saved line loads back as the same customer if and only if neither text holds a comma and the contact is not empty |
| Customers.EmptyContactBreaksLine | PharmacyManagementSystem.java:256 | A saved customer with an empty contact makes its line raise index-out-of-bounds on reload, at index 2 (at index 1 when the name is empty too) |
| Customers.CustomerFileRoundTrip | PharmacyManagementSystem.java:314-319 | The customer file reloads as exactly the saved list if and only if every customer's texts are comma-free and every contact is non-empty |
| Customers.EmptyContactAbortsNextLoad | PharmacyManagementSystem.java:249-262 | Adding a customer with an empty contact to a list that reloads cleanly saves a file whose next load keeps the earlier customers and stops at the new customer's line |
| Customers.CustomerManagement.constructor | PharmacyManagementSystem.java:242-247 | A new store has an empty list over its file |
| Customers.CustomerManagement.LoadCustomers | PharmacyManagementSystem.java:249-262 | As LoadMedicines, over customer lines |
| Customers.CustomerManagement.SaveCustomers | PharmacyManagementSystem.java:314-323 | The file is replaced by one line per customer in list order, or left unchanged when it cannot be opened |
| Customers.CustomerManagement.AddCustomer | PharmacyManagementSystem.java:297-310 | The id is parsed first. On success exactly one customer is appended, with no uniqueness check, and the file is saved. Otherwise nothing changes |
| Customers.CustomerManagement.GetCustomerIds | PharmacyManagementSystem.java:366-372 | One entry per customer, in list order. Entry i is the decimal text of customer i's id and parses back to that id |
| Orders.OrderLine | PharmacyManagementSystem.java:486 | The saved line of an order: the texts of its four ints, joined by commas |
| Orders.ParseOrderFields | PharmacyManagementSystem.java:408-412 | An order is built exactly when there are at least four pieces and the first four are ints, and later pieces are ignored. Otherwise each piece is indexed then parsed in turn, and the first failure is the error. A NumberFormatException names a piece that is not an int, after which all earlier pieces parsed. An index-out-of-bounds names the first missing index (the number of pieces), after which all present pieces parsed |
| Orders.ParseOrderLine | PharmacyManagementSystem.java:407-412 | One pass of the load loop: split the line on commas, then read the pieces as ParseOrderFields does |
| Orders.ParseSelected | PharmacyManagementSystem.java:468-469 | `Integer.parseInt` of a combo box's selected item; an empty box selects nothing (null), which raises NumberFormatException |
| Orders.ParseOrderInput | PharmacyManagementSystem.java:467-472 | The create dialog's parses: an order is built exactly when the order id and quantity texts are ints and both combo boxes have a selection that is an int. Its fields are those four values |
| Orders.OrderLineParts | PharmacyManagementSystem.java:407 | An order's line splits into exactly its four written numbers |
| Orders.OrderLineRoundTrip | PharmacyManagementSystem.java:407-412 | Every order's saved line loads back as the same four integers, with no condition |
| Orders.OrderFileRoundTrip | PharmacyManagementSystem.java:483-488 | The order file always reloads as exactly the saved list |
| Orders.OrderManagement.constructor | PharmacyManagementSystem.java:397-401 | A new store refers to the given medicine and customer stores and has an empty list over its file |
| Orders.OrderManagement.LoadOrders | PharmacyManagementSystem.java:403-417 | As LoadMedicines, over order lines |
| Orders.OrderManagement.SaveOrders | PharmacyManagementSystem.java:483-492 | The file is replaced by one line per order in list order, or left unchanged when it cannot be opened |
| Orders.OrderManagement.CreateOrder | PharmacyManagementSystem.java:444-481 | An order is created exactly when both id lists are non-empty and the order id and quantity parse. Its ids are those of the picked customer and medicine. It is appended and saved; otherwise nothing changes |
| Scenarios.PriceTexts | PharmacyManagementSystem.java:169 | Prices are written as `Double.toString` writes them: 5.0, 7.25, 0.05, -1.5 |
| Scenarios.JaneLine | PharmacyManagementSystem.java:317 | The customer file for Jane holds the single line "10,Jane Doe,555-0101" |
| Scenarios.JaneOrderLine | PharmacyManagementSystem.java:486 | The order file for order 100 holds the single line "100,10,1,3" |
| Scenarios.LoadSavedMedicines | PharmacyManagementSystem.java:94-112 | A store started on a saved file whose medicine names are comma-free loads the saved list with no failure, and offers id texts that parse back to the ids |
| Scenarios.AddCustomerThenReload | PharmacyManagementSystem.java:303-306 | A customer added to an empty store is saved as its one line, and a store reloaded from that file lists exactly that customer |
| Scenarios.DuplicateIdsKept | PharmacyManagementSystem.java:303-304 | Two customers with the same id are both kept, in the order they were added |
| Scenarios.RejectNonNumericQuantity | PharmacyManagementSystem.java:152-161 | A store built and loaded over any file rejects a quantity that is not a number: the list stays as the load left it and the file is unchanged |
| Scenarios.OneOfEach | PharmacyManagementSystem.java:155-156 | Typing a medicine and a customer into empty stores gives one-record lists holding exactly them |
| Scenarios.CreateOrderThenReload | PharmacyManagementSystem.java:467-475 | An order built from the offered id lists records the picked ids, is saved as its one line, and reloads as itself |

## Left out

- The Swing user interface is left out because it is presentation: frames, tables and their rows, buttons, fonts, colours, message dialogs, and the Cancel button of a dialog. The model starts at the point where a dialog has been confirmed.
- `main` and `SwingUtilities.invokeLater` are left out: there is no concurrency in the record logic.
- Real file I/O (`BufferedReader`, `BufferedWriter`, the hard-coded Windows paths, `printStackTrace`) is left out. A file is a list of lines, or None when it does not exist. A text field containing a line break cannot be represented, although the real file would split it into two lines.
- The file's character encoding is not modelled. `FileReader` and `FileWriter` use the platform's default charset, which on Windows before JDK 18 is windows-1252. A name or contact holding a character that charset cannot encode (Devanagari, for instance) is written as '?' and does not reload as itself in Java. The round-trip rows for medicine and customer lines and files hold only for texts the charset can encode.
- Only two write outcomes are modelled: the file cannot be opened (unchanged) or it is fully rewritten. A write that fails partway through is not modelled. Neither is a read error partway through a load, which Java would catch while keeping the records read so far.
- The `double` price is held as a whole number of hundredths.
- PriceText.ParsePrice: does not model the rest of `Double.parseDouble`:
  - surrounding whitespace;
  - exponents;
  - more than two fraction digits;
  - hexadecimal forms;
  - `NaN` and `Infinity`;
  - the `d`/`f` suffixes.
  All of these are rejected here although Java accepts them.
- PriceText.PriceToString: matches `Double.toString` only below 10^7 units, where Java switches to scientific notation. `-0.0` is not distinguished from `0.0`.
- `NumberFormat.getCurrencyInstance().format` is left out because it only formats the table display and depends on the locale.
- JavaStrings.ParseInt: accepts ASCII digits only, whereas `Integer.parseInt` also accepts other Unicode decimal digits.
- Medicines.MedicineManagement.GetMedicineIds: does not state that the returned array is newly allocated.
- Customers.CustomerManagement.GetCustomerIds: does not state that the returned array is newly allocated.
- Java's constructors call the load and lose the object when it throws. Here load is a separate call after the constructor, and its returned `failure` stands for the exception.
