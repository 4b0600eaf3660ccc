/**
 * What the three stores share: a backing file read as a sequence of lines, the
 * two unchecked exceptions a malformed line raises while loading, and the
 * meaning of "read every line into a record" and "write one line per record".
 */
module LineFiles {
  import opened Wrappers

  /** The backing file: None when no file exists at the store's path, otherwise its lines in order. */
  type File = Option<seq<string>>

  /** ArrayIndexOutOfBoundsException (too few pieces) or NumberFormatException, with the piece index concerned. */
  datatype FieldError = IndexOutOfBounds(index: nat) | NumberFormat(index: nat)

  /** The exception that aborts a load, and the (0-based) line that raised it. */
  datatype LineError = LineError(line: nat, error: FieldError)

  /** What a load produces: the records of the lines it got through, and the exception that stopped it, if any. */
  datatype Loading<T> = Loading(records: seq<T>, failure: Option<LineError>)

  /** Reading lines one after another, appending each record, until a line raises. */
  function ParseLines<T>(lines: seq<string>, parse: string -> Result<T, FieldError>): Loading<T>
  {
    if lines == [] then Loading([], None)
    else
      var prior := ParseLines(lines[..|lines| - 1], parse);
      if prior.failure.Some? then prior
      else match parse(lines[|lines| - 1])
        case Ok(r) => Loading(prior.records + [r], None)
        case Err(e) => Loading(prior.records, Some(LineError(|lines| - 1, e)))
  }

  /** Writing each record as one line, in list order. */
  function Serialize<T>(records: seq<T>, format: T -> string): seq<string>
  {
    if records == [] then [] else Serialize(records[..|records| - 1], format) + [format(records[|records| - 1])]
  }

  /**
   * What ParseLines means: every record comes from the line at its position,
   * and either the whole file was read, or the first line it did not get
   * through is the one whose exception is reported.
   */
  lemma {:induction false} ParseLinesMeaning<T>(lines: seq<string>, parse: string -> Result<T, FieldError>)
    ensures var r := ParseLines(lines, parse);
      && |r.records| <= |lines|
      && (forall i :: 0 <= i < |r.records| ==> parse(lines[i]) == Ok(r.records[i]))
      && (r.failure.None? ==> |r.records| == |lines|)
      && (r.failure.Some? ==>
            r.failure.value.line == |r.records| < |lines| &&
            parse(lines[|r.records|]) == Err(r.failure.value.error))
  {
    if lines != [] {
      var init := lines[..|lines| - 1];
      ParseLinesMeaning(init, parse);
      assert forall i :: 0 <= i < |init| ==> init[i] == lines[i];
    }
  }

  /** A file of N well-formed lines loads as N records, the i-th from the i-th line. */
  lemma ParseLinesWellFormed<T>(lines: seq<string>, parse: string -> Result<T, FieldError>)
    requires forall i :: 0 <= i < |lines| ==> parse(lines[i]).Ok?
    ensures ParseLines(lines, parse).failure.None?
    ensures |ParseLines(lines, parse).records| == |lines|
    ensures forall i :: 0 <= i < |lines| ==> ParseLines(lines, parse).records[i] == parse(lines[i]).value
  {
    ParseLinesMeaning(lines, parse);
  }

  /** One more line read by the load loop, when the lines before it all parsed. */
  lemma ParseLinesNext<T>(lines: seq<string>, i: nat, parse: string -> Result<T, FieldError>)
    requires i < |lines|
    requires ParseLines(lines[..i], parse).failure.None?
    ensures ParseLines(lines[..i + 1], parse) == match parse(lines[i])
      case Ok(r) => Loading(ParseLines(lines[..i], parse).records + [r], None)
      case Err(e) => Loading(ParseLines(lines[..i], parse).records, Some(LineError(i, e)))
  {
    assert lines[..i + 1][..i] == lines[..i];
  }

  /** One more line written by the save loop. */
  lemma SerializeNext<T>(records: seq<T>, i: nat, format: T -> string)
    requires i < |records|
    ensures Serialize(records[..i + 1], format) == Serialize(records[..i], format) + [format(records[i])]
  {
    assert records[..i + 1][..i] == records[..i];
  }

  /** Once a line has raised, the lines after it do not change what the load produced. */
  lemma {:induction false} ParseLinesStops<T>(lines: seq<string>, k: nat, parse: string -> Result<T, FieldError>)
    requires k <= |lines|
    requires ParseLines(lines[..k], parse).failure.Some?
    ensures ParseLines(lines, parse) == ParseLines(lines[..k], parse)
  {
    if k < |lines| {
      var init := lines[..|lines| - 1];
      assert init[..k] == lines[..k];
      ParseLinesStops(init, k, parse);
    } else {
      assert lines[..k] == lines;
    }
  }

  /** Saving writes exactly one line per record, in list order. */
  lemma {:induction false} SerializeMeaning<T>(records: seq<T>, format: T -> string)
    ensures |Serialize(records, format)| == |records|
    ensures forall i :: 0 <= i < |records| ==> Serialize(records, format)[i] == format(records[i])
  {
    if records != [] {
      var init := records[..|records| - 1];
      SerializeMeaning(init, format);
      assert forall i :: 0 <= i < |init| ==> init[i] == records[i];
    }
  }

  /** Saving a one-record list writes exactly that record's line. */
  lemma SerializeOne<T>(a: T, format: T -> string)
    ensures Serialize([a], format) == [format(a)]
  {
    assert [a][..0] == [];
  }

  /** Loading what a save wrote gives back the list, in order and with nothing else, when every record's line parses back to it. */
  lemma {:induction false} LoadAfterSave<T>(records: seq<T>, format: T -> string, parse: string -> Result<T, FieldError>)
    requires forall i :: 0 <= i < |records| ==> parse(format(records[i])) == Ok(records[i])
    ensures ParseLines(Serialize(records, format), parse) == Loading(records, None)
  {
    if records != [] {
      var init := records[..|records| - 1];
      var lines := Serialize(records, format);
      assert lines[..|lines| - 1] == Serialize(init, format);
      LoadAfterSave(init, format, parse);
      assert init + [records[|records| - 1]] == records;
    }
  }

  /** Conversely, a save reloads as the same list only if every record's line parses back to it. */
  lemma LoadAfterSaveOnlyIf<T>(records: seq<T>, format: T -> string, parse: string -> Result<T, FieldError>)
    requires ParseLines(Serialize(records, format), parse) == Loading(records, None)
    ensures forall i :: 0 <= i < |records| ==> parse(format(records[i])) == Ok(records[i])
  {
    SerializeMeaning(records, format);
    ParseLinesMeaning(Serialize(records, format), parse);
  }
}
