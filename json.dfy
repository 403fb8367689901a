/** The loosely typed values the program passes around: tool-call arguments
    as the JSON deserializer produces them, and the anonymous objects it
    serializes into requests and tool schemas. */
module Json {
  import opened Text

  datatype Json =
    | JNull
    | JBool(b: bool)
    | JInt(i: int)
      /** A number with a fraction, read as a `decimal`:
          `units` divided by ten to the `scale`, which keeps the digits
          written after the point. */
    | JDec(units: int, scale: nat)
    | JStr(s: string)
    | JArr(items: seq<Json>)
    | JObj(fields: seq<(string, Json)>)

  /** The argument dictionary of a function call. */
  type Args = map<string, Json>

  /** The value of the first field named `key` of an object, if any. */
  function Field(j: Json, key: string): (r: Option<Json>)
    ensures r.Some? ==> j.JObj? && exists i :: 0 <= i < |j.fields| && j.fields[i] == (key, r.value)
    ensures r.None? ==> !j.JObj? || forall i :: 0 <= i < |j.fields| ==> j.fields[i].0 != key
  {
    if !j.JObj? then None else FieldIn(j.fields, key)
  }

  function FieldIn(fields: seq<(string, Json)>, key: string): (r: Option<Json>)
    ensures r.Some? ==> exists i :: 0 <= i < |fields| && fields[i] == (key, r.value)
    ensures r.None? ==> forall i :: 0 <= i < |fields| ==> fields[i].0 != key
  {
    if |fields| == 0 then None
    else if fields[0].0 == key then Some(fields[0].1)
    else
      var r := FieldIn(fields[1..], key);
      assert forall i :: 1 <= i < |fields| ==> fields[i] == fields[1..][i - 1];
      r
  }

  const NullReferenceMessage: string := "Object reference not set to an instance of an object."
  const KeyNotFoundMessage: string := "The given key was not present in the dictionary."
  const ArrayListType: string := "System.Collections.ArrayList"
  const DictionaryType: string := "System.Collections.Generic.Dictionary`2[System.String,System.Object]"
  const BadBooleanMessage: string := "String was not recognized as a valid Boolean."

  function InvalidCastMessage(typeName: string): string {
    "Unable to cast object of type '" + typeName + "' to type 'System.IConvertible'."
  }

  /** `s` with zeros in front up to `width` characters. */
  function PadZeros(s: string, width: nat): (r: string)
    requires forall k :: 0 <= k < |s| ==> '0' <= s[k] <= '9'
    ensures |r| == if |s| < width then width else |s|
    ensures forall k :: 0 <= k < |r| ==> '0' <= r[k] <= '9'
    decreases width - |s|
  {
    if |s| < width then PadZeros("0" + s, width) else s
  }

  /** `decimal.ToString()`: the digits of `units`, with a point before the
      last `scale` of them and zeros in front where there are fewer. */
  function DecimalText(units: int, scale: nat): (r: string)
    ensures scale == 0 ==> r == IntToString(units)
    ensures scale > 0 ==> |r| > scale + 1 && r[|r| - scale - 1] == '.'
    ensures scale > 0 ==> forall k :: |r| - scale <= k < |r| ==> r[k] != '.'
  {
    var magnitude: nat := if units < 0 then -units else units;
    var plain := NatToString(magnitude);
    var digits := PadZeros(plain, scale + 1);
    var sign := if units < 0 then "-" else "";
    if scale == 0 then IntToString(units)
    else sign + digits[..|digits| - scale] + "." + digits[|digits| - scale..]
  }

  /** `value.ToString()` on a deserialized value: a null value throws. */
  function ToText(v: Json): (r: Result<string, string>)
    ensures r.Err? <==> v.JNull?
    ensures v.JStr? ==> r == Ok(v.s)
    ensures v.JDec? && v.scale > 0 ==> r.Ok? && '.' in r.value
  {
    match v
    case JNull => Err(NullReferenceMessage)
    case JBool(b) => Ok(if b then "True" else "False")
    case JInt(i) => Ok(IntToString(i))
    case JDec(units, scale) => Ok(DecimalText(units, scale))
    case JStr(s) => Ok(s)
    case JArr(_) => Ok(ArrayListType)
    case JObj(_) => Ok(DictionaryType)
  }

  /** `append: 0.5` reads as true, `fileName: 1.5` as "1.5", and a decimal
      keeps its trailing zeros. */
  lemma DecimalExamples()
    ensures ToText(JDec(15, 1)) == Ok("1.5")
    ensures ToText(JDec(-5, 2)) == Ok("-0.05")
    ensures ToText(JDec(150, 2)) == Ok("1.50")
    ensures ToBoolean(JDec(5, 1)) == Ok(true)
    ensures ToBoolean(JDec(0, 1)) == Ok(false)
  {
    OneAndAHalf();
    SmallNegative();
    TrailingZero();
  }

  lemma OneAndAHalf()
    ensures DecimalText(15, 1) == "1.5"
  {
    assert NatToString(15) == "15";
  }

  lemma SmallNegative()
    ensures DecimalText(-5, 2) == "-0.05"
  {
    assert NatToString(5) == "5";
    assert PadZeros("5", 3) == "005";
  }

  lemma TrailingZero()
    ensures DecimalText(150, 2) == "1.50"
  {
    assert NatToString(150) == "150";
  }

  /** `Convert.ToBoolean(value)`: null is false, numbers are compared with zero,
      strings must spell a boolean, anything else throws. */
  function ToBoolean(v: Json): (r: Result<bool, string>)
    ensures v.JBool? ==> r == Ok(v.b)
    ensures v.JNull? ==> r == Ok(false)
    ensures v.JInt? ==> r == Ok(v.i != 0)
    ensures v.JDec? ==> r == Ok(v.units != 0)
    ensures v.JStr? ==> (r == Ok(true) <==> EqualsIgnoreCase(Trim(v.s), "True"))
    ensures v.JStr? ==> (r == Ok(false) <==> EqualsIgnoreCase(Trim(v.s), "False"))
    ensures v.JStr? ==> (r.Err? <==> !EqualsIgnoreCase(Trim(v.s), "True") && !EqualsIgnoreCase(Trim(v.s), "False"))
    ensures v.JArr? || v.JObj? ==> r.Err?
  {
    match v
    case JNull => Ok(false)
    case JBool(b) => Ok(b)
    case JInt(i) => Ok(i != 0)
    case JDec(units, _) => Ok(units != 0)
    case JStr(s) =>
      if EqualsIgnoreCase(Trim(s), "True") then Ok(true)
      else if EqualsIgnoreCase(Trim(s), "False") then Ok(false)
      else Err(BadBooleanMessage)
    case JArr(_) => Err(InvalidCastMessage(ArrayListType))
    case JObj(_) => Err(InvalidCastMessage(DictionaryType))
  }

  /** `args[key].ToString()`: a missing key or a null value throws. */
  function Required(args: Args, key: string): (r: Result<string, string>)
    ensures r.Ok? <==> key in args && !args[key].JNull?
  {
    if key in args then ToText(args[key]) else Err(KeyNotFoundMessage)
  }

  /** `args.ContainsKey(key) ? args[key].ToString() : default`. */
  function Optional(args: Args, key: string, default: string): (r: Result<string, string>)
    ensures key !in args ==> r == Ok(default)
    ensures key in args ==> r == ToText(args[key])
  {
    if key in args then ToText(args[key]) else Ok(default)
  }
}
