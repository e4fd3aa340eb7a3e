/** The record classifiers of metrics.py: whether a JSON payload, a JSON
    file or a line of a .rec file holds a record of a given OwnTracks type,
    and how many location rows a .rec file holds. */
module Classify {
  import opened Base
  import opened PyText
  import opened Fs

  /** A decoded JSON value as far as the classifiers look at it: an object
      keeps only its "_type" member (None when it has none); every value
      that is neither an object nor a string is JOther. */
  datatype JsonValue = JObject(typeField: Option<JsonValue>) | JString(s: string) | JOther

  /** What json.loads makes of a text: a value, or a JSONDecodeError. Its
      RecursionError on deep nesting and its ValueError on an over-long
      integer literal are not outcomes here. */
  datatype Decoded = DecodeError | Value(v: JsonValue)

  /** The exceptions the classifiers catch. */
  datatype PyError = JSONDecodeError | TypeError | KeyError | ValueError | IndexError

  /** data["_type"] after data = json.loads(payload), with the exception
      each step raises: a decoding error, a value that is not an object
      (subscripting it with a string is a TypeError), or an object without
      the key. json.loads itself is the parameter loads. */
  function TypeFieldOf(loads: string -> Decoded, payload: string): (r: Result<JsonValue, PyError>)
    ensures r == Err(JSONDecodeError) <==> loads(payload) == DecodeError
    ensures r == Err(TypeError) <==> loads(payload).Value? && !loads(payload).v.JObject?
    ensures r == Err(KeyError) <==> loads(payload) == Value(JObject(None))
    ensures r.Ok? <==> loads(payload).Value? && loads(payload).v.JObject? && loads(payload).v.typeField.Some?
  {
    match loads(payload)
    case DecodeError => Err(JSONDecodeError)
    case Value(JObject(None)) => Err(KeyError)
    case Value(JObject(Some(t))) => Ok(t)
    case Value(_) => Err(TypeError)
  }

  /** _is_owntracks_json_of_type: true exactly when the payload decodes to
      an object whose "_type" is the string tag; every exception is caught
      and answers false. */
  function IsJsonOfType(loads: string -> Decoded, payload: string, tag: string): (r: bool)
    ensures r <==> loads(payload) == Value(JObject(Some(JString(tag))))
  {
    match TypeFieldOf(loads, payload)
    case Ok(t) => t == JString(tag)
    case Err(_) => false
  }

  /** _is_owntracks_json_file_of_type: false unless p is a regular file;
      otherwise the whole contents are classified. */
  function IsJsonFileOfType(loads: string -> Decoded, p: Path, tag: string): (r: bool)
    ensures r <==> IsFile(p) && loads(p.value.contents) == Value(JObject(Some(JString(tag))))
  {
    if !IsFile(p) then false else IsJsonOfType(loads, p.value.contents, tag)
  }

  /** A payload is of at most one type. */
  lemma AtMostOneType(loads: string -> Decoded, payload: string, tag1: string, tag2: string)
    requires IsJsonOfType(loads, payload, tag1) && IsJsonOfType(loads, payload, tag2)
    ensures tag1 == tag2
  {
  }

  /** The three fields of a row, or the ValueError that unpacking
      row.split() into three names raises. */
  function RowFields(row: string): (r: Result<(string, string, string), PyError>)
    ensures r.Ok? <==> |Split(row)| == 3
    ensures r.Ok? ==> [r.value.0, r.value.1, r.value.2] == Split(row)
  {
    var parts := Split(row);
    if |parts| != 3 then Err(ValueError) else Ok((parts[0], parts[1], parts[2]))
  }

  /** _csv_row_is_location_data: the row splits into exactly three tokens
      and the third is a location payload. */
  function CsvRowIsLocationData(loads: string -> Decoded, row: string): (r: bool)
    ensures r <==> |Split(row)| == 3 && IsJsonOfType(loads, Split(row)[2], "location")
  {
    match RowFields(row)
    case Ok((_, _, payload)) => IsJsonOfType(loads, payload, "location")
    case Err(_) => false
  }

  /** A row written as "<timestamp> <topic> <payload>" with its line
      terminator counts exactly when its payload is a location. */
  lemma CsvRowOfWords(loads: string -> Decoded, ts: string, topic: string, payload: string)
    requires IsWord(ts) && IsWord(topic) && IsWord(payload)
    ensures CsvRowIsLocationData(loads, JoinWords([ts, topic, payload]) + "\n")
            <==> IsJsonOfType(loads, payload, "location")
  {
    var ws := [ts, topic, payload];
    SplitJoinWords(ws);
    SplitDropsTrailingSpace(JoinWords(ws), '\n');
  }

  /** A payload with white space inside it is split apart, so the row has
      more than three tokens and never counts, whatever the payload says. */
  lemma PayloadWithSpaceNeverCounts(loads: string -> Decoded, ts: string, topic: string, a: string, c: char, b: string)
    requires IsWord(ts) && IsWord(topic) && IsWord(a) && IsWord(b) && IsSpace(c)
    ensures |Split(JoinWords([ts, topic, a + [c] + b]))| == 4
    ensures !CsvRowIsLocationData(loads, JoinWords([ts, topic, a + [c] + b]))
  {
    var head := JoinWords([ts, topic]);
    SplitJoinWords([ts, topic]);
    SplitWord(a);
    SplitWord(b);
    SplitAtSpace(a, c, b);
    var row := JoinWords([ts, topic, a + [c] + b]);
    assert JoinWords([topic, a + [c] + b]) == topic + " " + (a + [c] + b);
    assert row == ts + " " + (topic + " " + (a + [c] + b));
    assert row == head + [' '] + (a + [c] + b);
    SplitAtSpace(head, ' ', a + [c] + b);
  }

  /** The location rows of one .rec node: the lines of a regular file that
      are location rows; 0 for anything that is not a regular file. */
  function RecLocations(loads: string -> Decoded, n: Node): (k: nat)
    ensures !n.File? ==> k == 0
    ensures n.File? ==> k <= |ReadLines(n.contents)|
  {
    if n.File? then CountOf(ReadLines(n.contents), row => CsvRowIsLocationData(loads, row)) else 0
  }

  /** _locations_in_rec_file: reads the file line by line and counts the
      location rows; 0 when rec_file is not a regular file. */
  method LocationsInRecFile(loads: string -> Decoded, p: Path) returns (count: nat)
    ensures !IsFile(p) ==> count == 0
    ensures IsFile(p) ==> count == RecLocations(loads, p.value)
  {
    if !IsFile(p) {
      return 0;
    }
    count := LocationRowsIn(loads, ReadLines(p.value.contents));
  }

  /** The line loop of _locations_in_rec_file. */
  method LocationRowsIn(loads: string -> Decoded, lines: seq<string>) returns (count: nat)
    ensures count == CountOf(lines, row => CsvRowIsLocationData(loads, row))
  {
    count := 0;
    for i := 0 to |lines|
      invariant count == CountOf(lines[..i], row => CsvRowIsLocationData(loads, row))
    {
      CountOfStep(lines, i, row => CsvRowIsLocationData(loads, row));
      if CsvRowIsLocationData(loads, lines[i]) {
        count := count + 1;
      }
    }
    assert lines[..|lines|] == lines;
  }
}
