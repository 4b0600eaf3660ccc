/** The `Customer` record and the `CustomerManagement` store with its file `id,name,contact`. */
module Customers {
  import opened Wrappers
  import opened JavaStrings
  import opened LineFiles

  datatype Customer = Customer(id: Int32, name: string, contact: string)

  /** The line `saveCustomers` writes for c. */
  function CustomerLine(c: Customer): string
  {
    IntToString(c.id) + "," + c.name + "," + c.contact
  }

  /** The loader's reading of a split line: parts[0] as an int, then parts[1] and parts[2] as text; later pieces are ignored. */
  function ParseCustomerFields(parts: seq<string>): (r: Result<Customer, FieldError>)
    ensures r.Ok? <==> |parts| >= 3 && ParseInt(parts[0]).Some?
    ensures r.Ok? ==> r.value == Customer(ParseInt(parts[0]).value, parts[1], parts[2])
    ensures r.Err? && r.error.IndexOutOfBounds? ==> r.error.index == |parts| < 3 && (0 < |parts| ==> ParseInt(parts[0]).Some?)
    ensures r.Err? && r.error.NumberFormat? ==> r.error.index == 0 < |parts| && ParseInt(parts[0]).None?
  {
    if |parts| < 1 then Err(IndexOutOfBounds(0))
    else match ParseInt(parts[0])
      case None => Err(NumberFormat(0))
      case Some(id) =>
        if |parts| < 3 then Err(IndexOutOfBounds(|parts|))
        else Ok(Customer(id, parts[1], parts[2]))
  }

  /** One iteration of the `loadCustomers` loop. */
  function ParseCustomerLine(line: string): Result<Customer, FieldError>
  {
    ParseCustomerFields(Split(line))
  }

  /** The parse-before-append step of `addCustomer`: only the id is numeric. */
  function ParseCustomerInput(idText: string, name: string, contact: string): (r: Option<Customer>)
    ensures r.Some? <==> ParseInt(idText).Some?
    ensures r.Some? ==> r.value == Customer(ParseInt(idText).value, name, contact)
  {
    match ParseInt(idText)
    case Some(id) => Some(Customer(id, name, contact))
    case None => None
  }

  lemma CustomerLineIsJoin(c: Customer)
    ensures CustomerLine(c) == Join([IntToString(c.id), c.name, c.contact])
  {
    JoinThree(IntToString(c.id), c.name, c.contact);
  }

  /**
   * A customer's line reads back as that customer exactly when neither text
   * holds a comma and the contact is not empty (split drops a trailing empty
   * piece, so parts[2] would not exist).
   */
  lemma CustomerLineRoundTrip(c: Customer)
    ensures ParseCustomerLine(CustomerLine(c)) == Ok(c) <==> ',' !in c.name && ',' !in c.contact && c.contact != ""
  {
    var fs := [IntToString(c.id), c.name, c.contact];
    CustomerLineIsJoin(c);
    var parts := Split(CustomerLine(c));
    if ',' !in c.name && ',' !in c.contact {
      SplitJoinRoundTrip(fs);
      ParseIntOfIntToString(c.id);
      if c.contact == "" {
        EmptyContactBreaksLine(c);
      }
    } else if ParseCustomerFields(parts).Ok? {
      assert ParseCustomerFields(parts).value.name == parts[1];
      assert ParseCustomerFields(parts).value.contact == parts[2];
    }
  }

  /** A customer saved with an empty contact (and a comma-free name) makes its line raise IndexOutOfBounds on reload. */
  lemma EmptyContactBreaksLine(c: Customer)
    requires ',' !in c.name && c.contact == ""
    ensures ParseCustomerLine(CustomerLine(c)) == Err(IndexOutOfBounds(if c.name == "" then 1 else 2))
  {
    var fs := [IntToString(c.id), c.name, c.contact];
    CustomerLineIsJoin(c);
    SplitOfJoin(fs);
    ParseIntOfIntToString(c.id);
    var parts := DropTrailingEmpty(fs);
    assert DropTrailingEmpty(fs) == DropTrailingEmpty(fs[..2]);
    if c.name == "" {
      assert fs[..2][..1] == [IntToString(c.id)];
      assert parts == [IntToString(c.id)];
    } else {
      assert parts == fs[..2];
    }
  }

  /** The customer file reloads as the list that was saved exactly when every customer's line round-trips. */
  lemma CustomerFileRoundTrip(cs: seq<Customer>)
    ensures ParseLines(Serialize(cs, CustomerLine), ParseCustomerLine) == Loading(cs, None)
        <==> forall i :: 0 <= i < |cs| ==> ',' !in cs[i].name && ',' !in cs[i].contact && cs[i].contact != ""
  {
    forall i | 0 <= i < |cs| {
      CustomerLineRoundTrip(cs[i]);
    }
    if forall i :: 0 <= i < |cs| ==> ',' !in cs[i].name && ',' !in cs[i].contact && cs[i].contact != "" {
      LoadAfterSave(cs, CustomerLine, ParseCustomerLine);
    } else if ParseLines(Serialize(cs, CustomerLine), ParseCustomerLine) == Loading(cs, None) {
      LoadAfterSaveOnlyIf(cs, CustomerLine, ParseCustomerLine);
    }
  }

  /**
   * Adding a customer with an empty contact to a list that reloads cleanly
   * saves a file whose next load stops at that customer's line.
   */
  lemma EmptyContactAbortsNextLoad(cs: seq<Customer>, c: Customer)
    requires forall i :: 0 <= i < |cs| ==> ',' !in cs[i].name && ',' !in cs[i].contact && cs[i].contact != ""
    requires ',' !in c.name && c.contact == ""
    ensures ParseLines(Serialize(cs + [c], CustomerLine), ParseCustomerLine)
         == Loading(cs, Some(LineError(|cs|, IndexOutOfBounds(if c.name == "" then 1 else 2))))
  {
    forall i | 0 <= i < |cs| ensures ParseCustomerLine(CustomerLine(cs[i])) == Ok(cs[i]) {
      CustomerLineRoundTrip(cs[i]);
    }
    LoadAfterSave(cs, CustomerLine, ParseCustomerLine);
    EmptyContactBreaksLine(c);
    var all := cs + [c];
    var lines := Serialize(all, CustomerLine);
    assert all[..|all| - 1] == cs;
    assert lines == Serialize(cs, CustomerLine) + [CustomerLine(c)];
    assert lines[..|lines| - 1] == Serialize(cs, CustomerLine);
    assert |lines| - 1 == |cs| by {
      SerializeMeaning(cs, CustomerLine);
    }
  }

  /** The store: the in-memory list, and the file at its path. */
  class CustomerManagement {
    var customerList: seq<Customer>
    var file: File

    /** A store with an empty list, over the given file; `loadCustomers` is LoadCustomers. */
    constructor (file: File)
      ensures customerList == [] && this.file == file
    {
      customerList := [];
      this.file := file;
    }

    /** `loadCustomers`: as LoadMedicines, over customer lines. */
    method LoadCustomers() returns (failure: Option<LineError>)
      modifies this`customerList
      ensures file.None? ==> customerList == old(customerList) && failure.None?
      ensures file.Some? ==>
        var r := ParseLines(file.value, ParseCustomerLine);
        customerList == old(customerList) + r.records && failure == r.failure
    {
      failure := None;
      if file.None? {
        return;
      }
      var lines := file.value;
      var i := 0;
      while i < |lines|
        invariant 0 <= i <= |lines|
        invariant ParseLines(lines[..i], ParseCustomerLine).failure.None?
        invariant customerList == old(customerList) + ParseLines(lines[..i], ParseCustomerLine).records
      {
        ParseLinesNext(lines, i, ParseCustomerLine);
        var parsed := ParseCustomerLine(lines[i]);
        if parsed.Err? {
          failure := Some(LineError(i, parsed.error));
          ParseLinesStops(lines, i + 1, ParseCustomerLine);
          return;
        }
        customerList := customerList + [parsed.value];
        i := i + 1;
      }
      assert lines[..i] == lines;
    }

    /** `saveCustomers`: replaces the file by one line per customer in list order, or leaves it when it cannot be opened. */
    method SaveCustomers(writable: bool)
      modifies this`file
      ensures file == if writable then Some(Serialize(customerList, CustomerLine)) else old(file)
    {
      if !writable {
        return;
      }
      var written: seq<string> := [];
      var i := 0;
      while i < |customerList|
        invariant 0 <= i <= |customerList|
        invariant written == Serialize(customerList[..i], CustomerLine)
      {
        SerializeNext(customerList, i, CustomerLine);
        written := written + [CustomerLine(customerList[i])];
        i := i + 1;
      }
      assert customerList[..i] == customerList;
      file := Some(written);
    }

    /** `addCustomer` once the dialog is confirmed: parse the id, then append (no uniqueness check) and save. */
    method AddCustomer(idText: string, name: string, contact: string, writable: bool)
      returns (added: Option<Customer>)
      modifies this
      ensures added == ParseCustomerInput(idText, name, contact)
      ensures added.Some? ==>
        && customerList == old(customerList) + [added.value]
        && file == if writable then Some(Serialize(customerList, CustomerLine)) else old(file)
      ensures added.None? ==> customerList == old(customerList) && file == old(file)
    {
      added := ParseCustomerInput(idText, name, contact);
      if added.Some? {
        customerList := customerList + [added.value];
        SaveCustomers(writable);
      }
    }

    /** `getCustomerIds`: element i is the decimal text of the i-th customer's id, which parses back to it. */
    method GetCustomerIds() returns (ids: array<string>)
      ensures ids.Length == |customerList|
      ensures forall i :: 0 <= i < ids.Length ==> ids[i] == IntToString(customerList[i].id)
      ensures forall i :: 0 <= i < ids.Length ==> ParseInt(ids[i]) == Some(customerList[i].id)
    {
      ids := new string[|customerList|];
      var i := 0;
      while i < |customerList|
        invariant 0 <= i <= |customerList|
        invariant forall j :: 0 <= j < i ==> ids[j] == IntToString(customerList[j].id)
      {
        ids[i] := IntToString(customerList[i].id);
        i := i + 1;
      }
      forall i | 0 <= i < ids.Length
        ensures ParseInt(ids[i]) == Some(customerList[i].id)
      {
        ParseIntOfIntToString(customerList[i].id);
      }
    }
  }
}
