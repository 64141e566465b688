/** Field-level checks that pydantic applies to a JSON object when it
    validates a model: a required field must be present and of the declared
    JSON kind, a defaulted field may be absent, an enum-typed field must
    carry a member's code. Members the model does not declare are ignored. */
module Fields {
  import opened Base
  import opened JsonValues

  /** One step of an error location: an object member or a list position. */
  datatype Loc = Key(name: string) | Index(i: nat)

  /** The first error a `ValidationError` reports. */
  datatype ValidationError =
    | InvalidJson                          // the text is not one JSON value
    | Missing(loc: seq<Loc>)               // a required field is absent
    | WrongType(loc: seq<Loc>)             // present, but of another JSON kind
    | NotMember(loc: seq<Loc>, code: int)  // an integer outside the enum

  /** A JSON number read into a `float` or `int | float` field. */
  datatype Number = IntNumber(i: int) | FloatNumber(literal: string)

  /** The same error, located under `prefix`. */
  function Under(prefix: seq<Loc>, e: ValidationError): ValidationError
  {
    match e
    case InvalidJson => InvalidJson
    case Missing(l) => Missing(prefix + l)
    case WrongType(l) => WrongType(prefix + l)
    case NotMember(l, c) => NotMember(prefix + l, c)
  }

  /** The error for field `k` when it is absent from `o` or not of the
      expected kind. */
  function Absent(o: Object, k: string): ValidationError
  {
    if k in o then WrongType([Key(k)]) else Missing([Key(k)])
  }

  function IntField(o: Object, k: string): (r: Result<int, ValidationError>)
    ensures r.Ok? <==> k in o && o[k].JInt?
    ensures r.Ok? ==> o[k] == JInt(r.value)
    ensures k !in o ==> r == Err(Missing([Key(k)]))
  {
    if k in o && o[k].JInt? then Ok(o[k].i) else Err(Absent(o, k))
  }

  function StrField(o: Object, k: string): (r: Result<string, ValidationError>)
    ensures r.Ok? <==> k in o && o[k].JString?
    ensures r.Ok? ==> o[k] == JString(r.value)
    ensures k !in o ==> r == Err(Missing([Key(k)]))
  {
    if k in o && o[k].JString? then Ok(o[k].s) else Err(Absent(o, k))
  }

  function BoolField(o: Object, k: string): (r: Result<bool, ValidationError>)
    ensures r.Ok? <==> k in o && o[k].JBool?
    ensures r.Ok? ==> o[k] == JBool(r.value)
    ensures k !in o ==> r == Err(Missing([Key(k)]))
  {
    if k in o && o[k].JBool? then Ok(o[k].b) else Err(Absent(o, k))
  }

  /** A `float` or `int | float` field: any JSON number. */
  function NumberField(o: Object, k: string): (r: Result<Number, ValidationError>)
    ensures r.Ok? <==> k in o && (o[k].JInt? || o[k].JFloat?)
    ensures r.Ok? ==> o[k] == NumberJson(r.value)
    ensures k !in o ==> r == Err(Missing([Key(k)]))
  {
    if k in o && o[k].JInt? then Ok(IntNumber(o[k].i))
    else if k in o && o[k].JFloat? then Ok(FloatNumber(o[k].literal))
    else Err(Absent(o, k))
  }

  function NumberJson(n: Number): Json
  {
    match n
    case IntNumber(i) => JInt(i)
    case FloatNumber(t) => JFloat(t)
  }

  /** An `IntEnum` field: a JSON integer that `member` accepts. The stored
      value is the code itself, as with `use_enum_values`. */
  function EnumField(o: Object, k: string, member: int -> bool): (r: Result<int, ValidationError>)
    ensures r.Ok? <==> k in o && o[k].JInt? && member(o[k].i)
    ensures r.Ok? ==> o[k] == JInt(r.value) && member(r.value)
    ensures k in o && o[k].JInt? && !member(o[k].i) ==> r == Err(NotMember([Key(k)], o[k].i))
    ensures k !in o ==> r == Err(Missing([Key(k)]))
  {
    if k in o && o[k].JInt? then
      if member(o[k].i) then Ok(o[k].i) else Err(NotMember([Key(k)], o[k].i))
    else Err(Absent(o, k))
  }

  /** An `Optional[str] = None` field: absent and `null` both give `None`. */
  function OptionalStrField(o: Object, k: string): (r: Result<Option<string>, ValidationError>)
    ensures k !in o ==> r == Ok(None)
    ensures k in o ==> (r.Ok? <==> o[k].JNull? || o[k].JString?)
    ensures r == Ok(None) ==> k !in o || o[k] == JNull
    ensures r.Ok? && r.value.Some? ==> k in o && o[k] == JString(r.value.value)
  {
    if k !in o || o[k].JNull? then Ok(None)
    else if o[k].JString? then Ok(Some(o[k].s))
    else Err(WrongType([Key(k)]))
  }

  /** A `List[str] = []` field: absent gives the empty list; `null` is not a
      list and is rejected. */
  function StrListField(o: Object, k: string): (r: Result<seq<string>, ValidationError>)
    ensures k !in o ==> r == Ok([])
    ensures r.Ok? && k in o ==> o[k] == JArray(StrListJson(r.value))
    ensures k in o && o[k].JArray? ==> (r.Ok? <==> forall i :: 0 <= i < |o[k].items| ==> o[k].items[i].JString?)
    ensures k in o && !o[k].JArray? ==> r == Err(WrongType([Key(k)]))
  {
    if k !in o then Ok([])
    else if o[k].JArray? then
      StrItems(o[k].items, 0).MapError(e => Under([Key(k)], e))
    else Err(WrongType([Key(k)]))
  }

  function StrListJson(ss: seq<string>): (r: seq<Json>)
    ensures |r| == |ss|
  {
    if |ss| == 0 then [] else [JString(ss[0])] + StrListJson(ss[1..])
  }

  /** The items of a JSON list of strings; `at` is the position of the
      first item in the whole list, for error locations. */
  function StrItems(items: seq<Json>, at: nat): (r: Result<seq<string>, ValidationError>)
    ensures r.Ok? <==> forall i :: 0 <= i < |items| ==> items[i].JString?
    ensures r.Ok? ==> items == StrListJson(r.value)
    decreases |items|
  {
    if |items| == 0 then Ok([])
    else if !items[0].JString? then Err(WrongType([Index(at)]))
    else
      var rest :- StrItems(items[1..], at + 1);
      Ok([items[0].s] + rest)
  }
}
