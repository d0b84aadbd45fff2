/**
 * The decode hook that the client installs in its struct decoder: before a
 * configuration value is stored in a field of the caller's struct, a string
 * holding JSON is turned into a map when the field is a struct or a map, and
 * a string holding a decimal integer is turned into an int when the field is
 * some other non-string kind.
 */
module Binding {
  import opened Wrappers
  import Strconv

  /**
   * The kinds of Go's reflect package. The struct decoder never hands the
   * hook a target of kind Invalid, for which the hook's reflect.New would
   * panic; the model gives it no special treatment.
   */
  datatype Kind =
    | Invalid | Bool | Int | Int8 | Int16 | Int32 | Int64
    | Uint | Uint8 | Uint16 | Uint32 | Uint64 | Uintptr
    | Float32 | Float64 | Complex64 | Complex128
    | Array | Chan | Func | Interface | Map | Pointer | Slice | String | Struct
    | UnsafePointer

  /**
   * A configuration value as the decoder sees it: a string, an int, a
   * string-keyed object, or any other value (a bool, a float, a list, ...),
   * which the hook never looks inside.
   */
  datatype Value =
    | StringValue(s: string)
    | IntValue(i: int)
    | ObjectValue(fields: map<string, Value>)
    | OtherValue(token: nat)

  /** Flat key/value content, as a configuration store hands it over. */
  type KeyValues = map<string, Value>

  /** json.Unmarshal of a string into a map[string]interface{}: the object or the error text. */
  type ObjectParser = string -> Result<KeyValues, string>

  datatype HookResult = HookResult(value: Value, err: Option<string>)

  /**
   * JsonStructInMapHookFunc: the value to store for source value `f` in a
   * field of kind `t`, and the error to report.
   */
  function JsonStructInMapHook(f: Value, t: Kind, unmarshal: ObjectParser): (r: HookResult)
    // Only a JSON parse error for a struct or map field is reported, and it comes with the value untouched.
    ensures r.err.Some? <==> f.StringValue? && (t == Struct || t == Map) && unmarshal(f.s).Failure?
    ensures r.err.Some? ==> r.value == f && r.err.value == unmarshal(f.s).error
    // Only a string bound for a non-string field is ever replaced, and never by another string.
    ensures r.value != f ==> f.StringValue? && t != String && !r.value.StringValue?
    // A string for a struct or map field becomes the parsed object when it parses.
    ensures f.StringValue? && (t == Struct || t == Map) && unmarshal(f.s).Success? ==>
              r.value == ObjectValue(unmarshal(f.s).value)
    // A string for any other non-string field becomes an int exactly when Atoi accepts it.
    ensures f.StringValue? && t !in {Struct, Map, String} ==>
              (r.value.IntValue? <==> Strconv.Atoi(f.s).Some?) &&
              (r.value.IntValue? ==> Strconv.Atoi(f.s) == Some(r.value.i)) &&
              (!r.value.IntValue? ==> r.value == f)
    // Converted ints always fit a 64-bit Go int.
    ensures r.value.IntValue? && r.value != f ==> Strconv.MinInt64 <= r.value.i <= Strconv.MaxInt64
  {
    if f.StringValue? && (t == Struct || t == Map) then
      match unmarshal(f.s)
      case Success(o) => HookResult(ObjectValue(o), None)
      case Failure(e) => HookResult(f, Some(e))
    else if f.StringValue? && t != String then
      match Strconv.Atoi(f.s)
      case Some(n) => HookResult(IntValue(n), None)
      case None => HookResult(f, None)
    else
      HookResult(f, None)
  }

  /** Running the hook on its own output changes nothing further. */
  lemma HookIdempotent(f: Value, t: Kind, unmarshal: ObjectParser)
    ensures var once := JsonStructInMapHook(f, t, unmarshal);
            JsonStructInMapHook(once.value, t, unmarshal) == once
  {
  }

  /** "1" bound to an int field becomes 1; "x" stays "x" and no error is reported. */
  lemma HookIntExamples(unmarshal: ObjectParser)
    ensures JsonStructInMapHook(StringValue("1"), Int, unmarshal) == HookResult(IntValue(1), None)
    ensures JsonStructInMapHook(StringValue("x"), Int, unmarshal) == HookResult(StringValue("x"), None)
    ensures JsonStructInMapHook(StringValue("-42"), Int64, unmarshal) == HookResult(IntValue(-42), None)
  {
    assert Strconv.DecimalValue("1") == 1;
    assert !Strconv.IsDigit("x"[0]);
    assert "-42"[1..] == "42" && "42"[..1] == "4";
    assert Strconv.DecimalValue("42") == 42;
  }

  /** A struct field given the text {"k":"v"} receives the nested object it encodes. */
  lemma HookObjectExample(unmarshal: ObjectParser)
    requires unmarshal("{\"k\":\"v\"}") == Success(map["k" := StringValue("v")])
    ensures JsonStructInMapHook(StringValue("{\"k\":\"v\"}"), Struct, unmarshal)
            == HookResult(ObjectValue(map["k" := StringValue("v")]), None)
  {
  }

  /** The effect of one mapstructure Decode on the caller's struct: its new fields and the error. */
  datatype Decoding = Decoding(target: KeyValues, err: Option<string>)

  /**
   * A mapstructure decoder configured with JsonStructInMapHook: decodes the
   * first argument into the struct whose fields are the second. Its
   * reflection-driven field matching is not part of this model.
   */
  type Decoder = (KeyValues, KeyValues) -> Decoding
}
