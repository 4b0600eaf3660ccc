/** The `Medicine` record and the `MedicineManagement` store with its file `id,name,quantity,price`. */
module Medicines {
  import opened Wrappers
  import opened JavaStrings
  import opened PriceText
  import opened LineFiles

  /** A medicine; its price is a whole number of hundredths of the currency unit. */
  datatype Medicine = Medicine(id: Int32, name: string, quantity: Int32, priceCents: int)

  /** The line `saveMedicines` writes for m. */
  function MedicineLine(m: Medicine): string
  {
    IntToString(m.id) + "," + m.name + "," + IntToString(m.quantity) + "," + PriceToString(m.priceCents)
  }

  /**
   * The loader's reading of a split line, in the order Java evaluates it:
   * parts[0] as an int, parts[1] as the name, parts[2] as an int, parts[3] as
   * a price; pieces after the fourth are ignored.
   */
  function ParseMedicineFields(parts: seq<string>): (r: Result<Medicine, FieldError>)
    ensures r.Ok? <==> |parts| >= 4 && ParseInt(parts[0]).Some? && ParseInt(parts[2]).Some? && ParsePrice(parts[3]).Some?
    ensures r.Ok? ==> r.value == Medicine(ParseInt(parts[0]).value, parts[1], ParseInt(parts[2]).value, ParsePrice(parts[3]).value)
    ensures r.Err? && r.error.IndexOutOfBounds? ==>
      && r.error.index == |parts| < 4
      && (0 < |parts| ==> ParseInt(parts[0]).Some?)
      && (2 < |parts| ==> ParseInt(parts[2]).Some?)
    ensures r.Err? && r.error.NumberFormat? ==>
      && r.error.index < |parts| && r.error.index in {0, 2, 3}
      && (r.error.index == 0 ==> ParseInt(parts[0]).None?)
      && (r.error.index == 2 ==> ParseInt(parts[0]).Some? && ParseInt(parts[2]).None?)
      && (r.error.index == 3 ==> ParseInt(parts[0]).Some? && ParseInt(parts[2]).Some? && ParsePrice(parts[3]).None?)
  {
    if |parts| < 1 then Err(IndexOutOfBounds(0))
    else match ParseInt(parts[0])
      case None => Err(NumberFormat(0))
      case Some(id) =>
        if |parts| < 3 then Err(IndexOutOfBounds(|parts|))
        else match ParseInt(parts[2])
          case None => Err(NumberFormat(2))
          case Some(quantity) =>
            if |parts| < 4 then Err(IndexOutOfBounds(3))
            else match ParsePrice(parts[3])
              case None => Err(NumberFormat(3))
              case Some(price) => Ok(Medicine(id, parts[1], quantity, price))
  }

  /** One iteration of the `loadMedicines` loop: split the line on commas and read the pieces. */
  function ParseMedicineLine(line: string): Result<Medicine, FieldError>
  {
    ParseMedicineFields(Split(line))
  }

  /** The parse-before-append step of `addMedicine`: None when any numeric text does not parse. */
  function ParseMedicineInput(idText: string, name: string, quantityText: string, priceText: string): (r: Option<Medicine>)
    ensures r.Some? <==> ParseInt(idText).Some? && ParseInt(quantityText).Some? && ParsePrice(priceText).Some?
    ensures r.Some? ==> r.value == Medicine(ParseInt(idText).value, name, ParseInt(quantityText).value, ParsePrice(priceText).value)
  {
    match (ParseInt(idText), ParseInt(quantityText), ParsePrice(priceText))
    case (Some(id), Some(quantity), Some(price)) => Some(Medicine(id, name, quantity, price))
    case _ => None
  }

  lemma MedicineLineIsJoin(m: Medicine)
    ensures MedicineLine(m) == Join([IntToString(m.id), m.name, IntToString(m.quantity), PriceToString(m.priceCents)])
  {
    JoinFour(IntToString(m.id), m.name, IntToString(m.quantity), PriceToString(m.priceCents));
  }

  /** With a comma-free name, the line splits into exactly the four written pieces. */
  lemma MedicineLineParts(m: Medicine)
    requires ',' !in m.name
    ensures Split(MedicineLine(m)) == [IntToString(m.id), m.name, IntToString(m.quantity), PriceToString(m.priceCents)]
  {
    MedicineLineIsJoin(m);
    SplitJoinRoundTrip([IntToString(m.id), m.name, IntToString(m.quantity), PriceToString(m.priceCents)]);
  }

  /** A medicine's line reads back as that medicine exactly when its name holds no comma. */
  lemma MedicineLineRoundTrip(m: Medicine)
    ensures ParseMedicineLine(MedicineLine(m)) == Ok(m) <==> ',' !in m.name
  {
    if ',' !in m.name {
      MedicineLineParts(m);
      ParseIntOfIntToString(m.id);
      ParseIntOfIntToString(m.quantity);
      ParsePriceOfPriceToString(m.priceCents);
    } else {
      var parts := Split(MedicineLine(m));
      if ParseMedicineFields(parts).Ok? {
        assert ParseMedicineFields(parts).value.name == parts[1];
      }
    }
  }

  /** The medicine file reloads as the list that was saved exactly when no name in it holds a comma. */
  lemma MedicineFileRoundTrip(ms: seq<Medicine>)
    ensures ParseLines(Serialize(ms, MedicineLine), ParseMedicineLine) == Loading(ms, None)
        <==> forall i :: 0 <= i < |ms| ==> ',' !in ms[i].name
  {
    forall i | 0 <= i < |ms| {
      MedicineLineRoundTrip(ms[i]);
    }
    if forall i :: 0 <= i < |ms| ==> ',' !in ms[i].name {
      LoadAfterSave(ms, MedicineLine, ParseMedicineLine);
    } else if ParseLines(Serialize(ms, MedicineLine), ParseMedicineLine) == Loading(ms, None) {
      LoadAfterSaveOnlyIf(ms, MedicineLine, ParseMedicineLine);
    }
  }

  /** The add dialog accepts exactly the texts the loader accepts as the four pieces of a line, and builds the same record. */
  lemma MedicineInputAgreesWithLoader(idText: string, name: string, quantityText: string, priceText: string)
    ensures match ParseMedicineFields([idText, name, quantityText, priceText])
      case Ok(m) => ParseMedicineInput(idText, name, quantityText, priceText) == Some(m)
      case Err(_) => ParseMedicineInput(idText, name, quantityText, priceText) == None
  {
  }

  /** The store: the in-memory list, and the file at its path. */
  class MedicineManagement {
    var medicineList: seq<Medicine>
    var file: File

    /** A store with an empty list, over the given file; `loadMedicines` is LoadMedicines. */
    constructor (file: File)
      ensures medicineList == [] && this.file == file
    {
      medicineList := [];
      this.file := file;
    }

    /**
     * `loadMedicines`: a missing file leaves the list as it is; otherwise each
     * line's record is appended in file order until a line raises, and that
     * line's exception is returned (Java lets it escape the constructor).
     */
    method LoadMedicines() returns (failure: Option<LineError>)
      modifies this`medicineList
      ensures file.None? ==> medicineList == old(medicineList) && failure.None?
      ensures file.Some? ==>
        var r := ParseLines(file.value, ParseMedicineLine);
        medicineList == old(medicineList) + r.records && failure == r.failure
    {
      failure := None;
      if file.None? {
        return;
      }
      var lines := file.value;
      var i := 0;
      while i < |lines|
        invariant 0 <= i <= |lines|
        invariant ParseLines(lines[..i], ParseMedicineLine).failure.None?
        invariant medicineList == old(medicineList) + ParseLines(lines[..i], ParseMedicineLine).records
      {
        ParseLinesNext(lines, i, ParseMedicineLine);
        var parsed := ParseMedicineLine(lines[i]);
        if parsed.Err? {
          failure := Some(LineError(i, parsed.error));
          ParseLinesStops(lines, i + 1, ParseMedicineLine);
          return;
        }
        medicineList := medicineList + [parsed.value];
        i := i + 1;
      }
      assert lines[..i] == lines;
    }

    /**
     * `saveMedicines`: when the file can be opened for writing its contents are
     * replaced by one line per medicine in list order; otherwise the exception
     * is swallowed and the file stays as it was.
     */
    method SaveMedicines(writable: bool)
      modifies this`file
      ensures file == if writable then Some(Serialize(medicineList, MedicineLine)) else old(file)
    {
      if !writable {
        return;
      }
      var written: seq<string> := [];
      var i := 0;
      while i < |medicineList|
        invariant 0 <= i <= |medicineList|
        invariant written == Serialize(medicineList[..i], MedicineLine)
      {
        SerializeNext(medicineList, i, MedicineLine);
        written := written + [MedicineLine(medicineList[i])];
        i := i + 1;
      }
      assert medicineList[..i] == medicineList;
      file := Some(written);
    }

    /**
     * `addMedicine` once the dialog is confirmed: all numeric texts are parsed
     * first; on success the medicine is appended, whatever its id, and the file
     * saved; on failure neither the list nor the file changes.
     */
    method AddMedicine(idText: string, name: string, quantityText: string, priceText: string, writable: bool)
      returns (added: Option<Medicine>)
      modifies this
      ensures added == ParseMedicineInput(idText, name, quantityText, priceText)
      ensures added.Some? ==>
        && medicineList == old(medicineList) + [added.value]
        && file == if writable then Some(Serialize(medicineList, MedicineLine)) else old(file)
      ensures added.None? ==> medicineList == old(medicineList) && file == old(file)
    {
      added := ParseMedicineInput(idText, name, quantityText, priceText);
      if added.Some? {
        medicineList := medicineList + [added.value];
        SaveMedicines(writable);
      }
    }

    /** `getMedicineIds`: element i is the decimal text of the i-th medicine's id, which parses back to it. */
    method GetMedicineIds() returns (ids: array<string>)
      ensures ids.Length == |medicineList|
      ensures forall i :: 0 <= i < ids.Length ==> ids[i] == IntToString(medicineList[i].id)
      ensures forall i :: 0 <= i < ids.Length ==> ParseInt(ids[i]) == Some(medicineList[i].id)
    {
      ids := new string[|medicineList|];
      var i := 0;
      while i < |medicineList|
        invariant 0 <= i <= |medicineList|
        invariant forall j :: 0 <= j < i ==> ids[j] == IntToString(medicineList[j].id)
      {
        ids[i] := IntToString(medicineList[i].id);
        i := i + 1;
      }
      forall i | 0 <= i < ids.Length
        ensures ParseInt(ids[i]) == Some(medicineList[i].id)
      {
        ParseIntOfIntToString(medicineList[i].id);
      }
    }
  }
}
