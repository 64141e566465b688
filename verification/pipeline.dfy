/** The decode loop of `_load_entries`: each physical line is decoded as
    UTF-8 and stripped; a blank line is skipped; any other line is validated
    against the member's record schema. A valid record is yielded, a
    validation failure is dropped or ends the sequence depending on the
    `silent_validation_error` flag, and any other failure always ends it. */
module Pipeline {
  import opened Base
  import opened JsonValues
  import opened Fields
  import opened Text

  /** The two library steps the loader relies on and this model does not
      look inside: strict UTF-8 decoding of a line (`None` for malformed
      bytes) and parsing of a text as one JSON value (`None` for a syntax
      error). */
  datatype Codec = Codec(decodeUtf8: seq<byte> -> Option<string>, parseJson: string -> Option<Json>)

  /** An exception raised in the loop body that is not a `ValidationError`. */
  datatype UnexpectedError = InvalidUtf8

  /** What one physical line amounts to. */
  datatype LineResult<+R> =
    | Blank                              // empty after decoding and stripping
    | Valid(record: R)                   // validated: it is yielded
    | Invalid(error: ValidationError)    // `ValidationError`
    | Broken(cause: UnexpectedError)     // any other exception

  datatype Failure = ValidationFailure(error: ValidationError) | UnexpectedFailure(cause: UnexpectedError)

  /** The whole of one generator run: it either ran to the end, or it
      yielded `records` and then raised `failure` at zero-based physical
      line `line`. */
  datatype Outcome<+R> =
    | Completed(records: seq<R>)
    | Failed(records: seq<R>, line: nat, failure: Failure)

  // ---------------------------------------------------------------- one line

  /** `model_validate_json`: a text that is not JSON, or JSON that is not an
      object, is itself a validation error. */
  function ValidateJson<R>(codec: Codec, validate: Object -> Result<R, ValidationError>, text: string): (r: Result<R, ValidationError>)
    ensures codec.parseJson(text).None? ==> r == Err(InvalidJson)
    ensures r.Ok? ==> exists o :: codec.parseJson(text) == Some(JObject(o)) && validate(o) == r
    ensures forall o :: codec.parseJson(text) == Some(JObject(o)) ==> r == validate(o)
    ensures codec.parseJson(text).Some? && !codec.parseJson(text).value.JObject? ==> r == Err(WrongType([]))
  {
    match codec.parseJson(text)
    case None => Err(InvalidJson)
    case Some(j) => if j.JObject? then validate(j.fields) else Err(WrongType([]))
  }

  function Classify<R>(codec: Codec, validate: Object -> Result<R, ValidationError>, line: seq<byte>): (r: LineResult<R>)
    ensures r.Broken? <==> codec.decodeUtf8(line).None?
    ensures r.Blank? <==> codec.decodeUtf8(line).Some? && AllSpace(codec.decodeUtf8(line).value)
    ensures r.Valid? || r.Invalid? ==>
              ValidateJson(codec, validate, Strip(codec.decodeUtf8(line).value)) ==
                (if r.Valid? then Ok(r.record) else Err(r.error))
  {
    match codec.decodeUtf8(line)
    case None => Broken(InvalidUtf8)
    case Some(text) =>
      var t := Strip(text);
      if |t| == 0 then Blank
      else
        match ValidateJson(codec, validate, t)
        case Ok(rec) => Valid(rec)
        case Err(e) => Invalid(e)
  }

  function ClassifyAll<R>(codec: Codec, validate: Object -> Result<R, ValidationError>, lines: seq<seq<byte>>): (rs: seq<LineResult<R>>)
    ensures |rs| == |lines|
    ensures forall i :: 0 <= i < |lines| ==> rs[i] == Classify(codec, validate, lines[i])
  {
    seq(|lines|, i requires 0 <= i < |lines| => Classify(codec, validate, lines[i]))
  }

  // ------------------------------------------------------------------ the loop

  /** Whether a line ends the sequence: any unexpected error does, and a
      validation error does unless validation errors are silent. */
  predicate Halts<R>(r: LineResult<R>, silent: bool)
  {
    r.Broken? || (r.Invalid? && !silent)
  }

  function FailureOf<R>(r: LineResult<R>): Failure
    requires r.Invalid? || r.Broken?
  {
    if r.Invalid? then ValidationFailure(r.error) else UnexpectedFailure(r.cause)
  }

  function Prepend<R>(rec: R, o: Outcome<R>): Outcome<R>
  {
    match o
    case Completed(rs) => Completed([rec] + rs)
    case Failed(rs, l, f) => Failed([rec] + rs, l, f)
  }

  /** The `for line_number, line in enumerate(file)` loop, from the line
      numbered `at` on. */
  function Run<R>(rs: seq<LineResult<R>>, silent: bool, at: nat): Outcome<R>
    decreases |rs|
  {
    if |rs| == 0 then Completed([])
    else
      match rs[0]
      case Blank => Run(rs[1..], silent, at + 1)
      case Valid(rec) => Prepend(rec, Run(rs[1..], silent, at + 1))
      case Invalid(e) =>
        if silent then Run(rs[1..], silent, at + 1) else Failed([], at, ValidationFailure(e))
      case Broken(c) => Failed([], at, UnexpectedFailure(c))
  }

  // ------------------------------------------------- the reference meaning

  /** The records of the valid lines, in line order. */
  function Kept<R>(rs: seq<LineResult<R>>): seq<R>
  {
    if |rs| == 0 then []
    else (if rs[0].Valid? then [rs[0].record] else []) + Kept(rs[1..])
  }

  /** The positions of the valid lines, in increasing order. */
  function ValidPositions<R>(rs: seq<LineResult<R>>): (ps: seq<nat>)
    ensures forall i :: 0 <= i < |ps| ==> ps[i] < |rs| && rs[ps[i]].Valid?
    ensures forall i, j :: 0 <= i < j < |ps| ==> ps[i] < ps[j]
    ensures forall k :: 0 <= k < |rs| && rs[k].Valid? ==> k in ps
  {
    if |rs| == 0 then []
    else
      var last := |rs| - 1;
      var ps := ValidPositions(rs[..last]);
      assert forall i :: 0 <= i < |ps| ==> rs[..last][ps[i]] == rs[ps[i]];
      if rs[last].Valid? then ps + [last] else ps
  }

  /** The first line that ends the sequence, if any. */
  function FirstHalt<R>(rs: seq<LineResult<R>>, silent: bool): (k: Option<nat>)
    ensures k.Some? ==> k.value < |rs| && Halts(rs[k.value], silent)
    ensures k.Some? ==> forall j :: 0 <= j < k.value ==> !Halts(rs[j], silent)
    ensures k.None? ==> forall j :: 0 <= j < |rs| ==> !Halts(rs[j], silent)
    decreases |rs|
  {
    if |rs| == 0 then None
    else if Halts(rs[0], silent) then Some(0)
    else
      match FirstHalt(rs[1..], silent)
      case None => None
      case Some(k) => Some(k + 1)
  }

  /** What the loop produces, said without the loop: the valid records up
      to the first halting line, and that line's failure. */
  function Expected<R>(rs: seq<LineResult<R>>, silent: bool): Outcome<R>
  {
    match FirstHalt(rs, silent)
    case None => Completed(Kept(rs))
    case Some(k) => Failed(Kept(rs[..k]), k, FailureOf(rs[k]))
  }

  function Offset<R>(o: Outcome<R>, n: nat): Outcome<R>
  {
    match o
    case Completed(rs) => Completed(rs)
    case Failed(rs, l, f) => Failed(rs, l + n, f)
  }
}
