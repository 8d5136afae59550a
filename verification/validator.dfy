/**
 * `DataclassValidator`: field lookup, marshalling of values to and from
 * databag text, and the three-valued verdict on a whole databag; plus the
 * verdict rule of `PydanticValidator` and the default-value extraction of
 * `get_defaults`.
 */
module Validator {
  import opened Wrappers
  import opened Verdicts
  import opened Decimal
  import opened Json
  import opened Models

  /**
   * The exceptions the wrappers raise: `CannotWriteError`,
   * `InvalidFieldNameError`, `CoercionError`, the databag's `KeyError`, and
   * the plain `ValidationError` of a raising `validate`.
   */
  datatype Error =
    | CannotWrite
    | InvalidFieldName(name: string)
    | Coercion(key: string)
    | KeyMissing(key: string)
    | ValidationFailed

  /** `check_field`: the declared field, nothing without a schema, an error for an undeclared name. */
  function CheckField(model: Model, name: string): (r: Result<Option<Field>, Error>)
    ensures model.None? ==> r == Success(None)
    ensures model.Some? && name !in model.value ==> r == Failure(InvalidFieldName(name))
    ensures model.Some? && name in model.value ==> r == Success(Some(model.value[name]))
  {
    match model
    case None => Success(None)
    case Some(fields) =>
      if name in fields then Success(Some(fields[name])) else Failure(InvalidFieldName(name))
  }

  /** `type_(text)`: `int()` parses, `str()` returns the text as it is. */
  function Coerce(ty: FieldType, text: string): (r: Option<Value>)
    ensures r.Some? ==> r.value.Type() == ty
    ensures ty == StrType ==> r == Some(StrVal(text))
    ensures ty == IntType ==> r == (if ParseInt(text).Some? then Some(IntVal(ParseInt(text).value)) else None)
  {
    match ty
    case StrType => Some(StrVal(text))
    case IntType =>
      var n := ParseInt(text);
      if n.Some? then Some(IntVal(n.value)) else None
  }

  /**
   * `int()` strips whitespace around a number, but the ASCII separators
   * U+001C to U+001F are not whitespace to it: any of them before or after
   * a run of digits makes the text fail coercion.
   */
  lemma CoerceRejectsAsciiSeparators(c: char, digits: string)
    requires 0x1C <= c as int <= 0x1F
    requires |digits| > 0 && AllDigits(digits)
    ensures Coerce(IntType, [c] + digits) == None
    ensures Coerce(IntType, digits + [c]) == None
  {
    var before, after := [c] + digits, digits + [c];
    assert TrimStart(before) == before;
    assert before[|before| - 1] == digits[|digits| - 1];
    assert TrimEnd(before) == before;
    assert !IsDigitGroup(before);
    assert after[0] == digits[0];
    assert TrimStart(after) == after;
    assert TrimEnd(after) == after;
    assert !IsDigit(after[|after| - 1]) && after[|after| - 1] != '_';
    assert !IsDigitGroup(after);
  }

  /** `json.dumps` on the scalar values of the model. */
  function JsonDumps(v: Value): (r: string)
    ensures r != ""
  {
    match v
    case IntVal(i) => DecimalText(i)
    case StrVal(s) => DumpsString(s)
  }

  /** `json.loads` on integer and string documents; None for every other text. */
  function JsonLoads(text: string): Option<Value> {
    var n := LoadsInt(text);
    if n.Some? then Some(IntVal(n.value))
    else
      var s := LoadsString(text);
      if s.Some? then Some(StrVal(s.value)) else None
  }

  lemma JsonLoadsDumps(v: Value)
    ensures JsonLoads(JsonDumps(v)) == Some(v)
  {
    match v
    case IntVal(i) => LoadsDecimalText(i);
    case StrVal(s) =>
      DumpsStringIsNotInt(s);
      LoadsDumpsString(s);
  }

  /**
   * `serialize`: without a schema strings pass verbatim and other values are
   * JSON-encoded; with one the key must be declared and the value must have
   * the declared type.
   */
  function Serialize(model: Model, key: string, v: Value): (r: Result<string, Error>)
    ensures model.None? ==> r.Success?
    ensures model.None? && v.StrVal? ==> r == Success(v.s)
    ensures model.Some? && key !in model.value ==> r == Failure(InvalidFieldName(key))
    ensures model.Some? && key in model.value ==>
      (r.Success? <==> v.Type() == model.value[key].ty)
    ensures model.Some? && key in model.value && r.Failure? ==> r.error == Coercion(key)
  {
    match model
    case None => if v.StrVal? then Success(v.s) else Success(JsonDumps(v))
    case Some(fields) =>
      if key !in fields then Failure(InvalidFieldName(key))
      else if v.Type() != fields[key].ty then Failure(Coercion(key))
      else Success(JsonDumps(v))
  }

  /**
   * `deserialize`: without a schema `json.loads`, falling back to the raw
   * text; with one the key must be declared and the text must coerce.
   */
  function Deserialize(model: Model, key: string, text: string): (r: Result<Value, Error>)
    ensures model.None? ==> r.Success?
    ensures model.None? ==> r == Success(JsonLoads(text).GetOr(StrVal(text)))
    ensures model.Some? && key !in model.value ==> r == Failure(InvalidFieldName(key))
    ensures model.Some? && key in model.value ==>
      (r.Success? <==> Coerce(model.value[key].ty, text).Some?)
    ensures model.Some? && key in model.value && r.Success? ==> Some(r.value) == Coerce(model.value[key].ty, text)
    ensures model.Some? && r.Success? ==> key in model.value && r.value.Type() == model.value[key].ty
    ensures model.Some? && key in model.value && r.Failure? ==> r.error == Coercion(key)
  {
    match model
    case None =>
      var loaded := JsonLoads(text);
      if loaded.Some? then Success(loaded.value) else Success(StrVal(text))
    case Some(fields) =>
      if key !in fields then Failure(InvalidFieldName(key))
      else
        var c := Coerce(fields[key].ty, text);
        if c.Some? then Success(c.value) else Failure(Coercion(key))
  }

  /** An int written under a schema is stored as its decimal text and reads back as the same int. */
  lemma TypedIntRoundTrip(fields: Fields, key: string, n: int)
    requires key in fields && fields[key].ty == IntType
    ensures Serialize(Some(fields), key, IntVal(n)) == Success(DecimalText(n))
    ensures Deserialize(Some(fields), key, DecimalText(n)) == Success(IntVal(n))
  {
    ParseDecimalText(n);
  }

  /**
   * A string written to a `str` field is stored JSON-quoted, and `str()`
   * gives back the quoted text, not the string written.
   */
  lemma TypedStrKeepsQuotes(fields: Fields, key: string, s: string)
    requires key in fields && fields[key].ty == StrType
    ensures Serialize(Some(fields), key, StrVal(s)) == Success(DumpsString(s))
    ensures Deserialize(Some(fields), key, DumpsString(s)) == Success(StrVal(DumpsString(s)))
    ensures DumpsString(s) != s
    ensures LoadsString(DumpsString(s)) == Some(s)
  {
    assert |DumpsString(s)| == |EscapeBody(s)| + 2;
    LoadsDumpsString(s);
  }

  /** Without a schema an int round-trips through `json.dumps`/`json.loads`. */
  lemma UntypedIntRoundTrip(key: string, n: int)
    ensures Deserialize(None, key, Serialize(None, key, IntVal(n)).value) == Success(IntVal(n))
  {
    JsonLoadsDumps(IntVal(n));
  }

  /**
   * Without a schema a string is stored verbatim, so it reads back unchanged
   * exactly when it is not itself a JSON document the loader decodes.
   */
  lemma UntypedStrRoundTrip(key: string, s: string)
    requires JsonLoads(s).None?
    ensures Deserialize(None, key, Serialize(None, key, StrVal(s)).value) == Success(StrVal(s))
  {
  }

  /** The string "42" written without a schema comes back as the int 42. */
  lemma UntypedDigitStringBecomesInt(key: string)
    ensures Serialize(None, key, StrVal("42")) == Success("42")
    ensures Deserialize(None, key, "42") == Success(IntVal(42))
  {
    assert DecimalText(42) == "42" by {
      assert NatDigits(4) == "4";
      assert NatDigits(42) == NatDigits(4) + [DigitChar(2)];
    }
    JsonLoadsDumps(IntVal(42));
    assert JsonLoads("42") == Some(IntVal(42));
  }

  /** What `validate` reports as a bad key: undeclared, or its text does not coerce. */
  predicate BadEntry(fields: Fields, key: string, text: string) {
    key !in fields || Coerce(fields[key].ty, text).None?
  }

  predicate HasBadEntry(fields: Fields, data: map<string, string>) {
    exists key :: key in data && BadEntry(fields, key, data[key])
  }

  /** A declared field without a default is absent from the data. */
  predicate MissingRequired(fields: Fields, data: map<string, string>) {
    exists name :: name in fields && name !in data && fields[name].default.None?
  }

  /** The verdict `validate` computes, stated declaratively. */
  function Validity(model: Model, data: map<string, string>): Verdict {
    match model
    case None => Valid
    case Some(fields) =>
      if MissingRequired(fields, data) then Unfilled
      else if HasBadEntry(fields, data) then Invalid
      else Valid
  }

  /**
   * `DataclassValidator.validate`: one pass flags undeclared or uncoercible
   * keys, a second pass flags missing required fields; missing data takes
   * precedence, and a raising call fails instead of reporting Invalid.
   */
  method Validate(model: Model, data: map<string, string>, raise: bool) returns (r: Result<Verdict, Error>)
    ensures r.Failure? <==> raise && Validity(model, data) == Invalid
    ensures r.Failure? ==> r.error == ValidationFailed
    ensures r.Success? ==> r.value == Validity(model, data)
    ensures model.None? ==> r == Success(Valid)
    ensures model.Some? && MissingRequired(model.value, data) ==> r == Success(Unfilled)
    ensures model.Some? && !MissingRequired(model.value, data) && HasBadEntry(model.value, data) ==>
      r == (if raise then Failure(ValidationFailed) else Success(Invalid))
  {
    if model.None? {
      return Success(Valid);
    }
    var fields := model.value;
    var err := false;
    var todo := data.Keys;
    while todo != {}
      invariant todo <= data.Keys
      invariant err <==> exists key :: key in data && key !in todo && BadEntry(fields, key, data[key])
      decreases |todo|
    {
      var key :| key in todo;
      todo := todo - {key};
      var field := CheckField(model, key);
      if field.Failure? {
        err := true;
        continue;
      }
      var value := Deserialize(model, key, data[key]);
      if value.Failure? {
        err := true;
      }
    }
    var missing := false;
    var names := fields.Keys;
    while names != {}
      invariant names <= fields.Keys
      invariant missing <==> exists name :: name in fields && name !in names && name !in data && fields[name].default.None?
      decreases |names|
    {
      var name :| name in names;
      names := names - {name};
      if name !in data && fields[name].default.None? {
        missing := true;
      }
    }
    if missing {
      return Success(Unfilled);
    }
    if err {
      if raise {
        return Failure(ValidationFailed);
      }
      return Success(Invalid);
    }
    return Success(Valid);
  }

  /** A databag whose entries all coerce never turns Invalid by dropping entries. */
  lemma SubBagOfValidIsNotInvalid(model: Model, data: map<string, string>, sub: map<string, string>)
    requires Validity(model, data) == Valid
    requires forall key :: key in sub ==> key in data && sub[key] == data[key]
    ensures Validity(model, sub) != Invalid
  {
  }

  /**
   * Storing a well-typed value under a declared key adds no bad entry, and a
   * Valid databag stays Valid. (An Unfilled databag that already holds a bad
   * entry turns Invalid once its last missing field is stored.)
   */
  lemma StoreKeepsVerdict(fields: Fields, data: map<string, string>, key: string, v: Value)
    requires key in fields && v.Type() == fields[key].ty
    ensures var stored := data[key := Serialize(Some(fields), key, v).value];
      (Validity(Some(fields), data) == Valid ==> Validity(Some(fields), stored) == Valid)
      && (!HasBadEntry(fields, data) ==> !HasBadEntry(fields, stored))
  {
    var text := Serialize(Some(fields), key, v).value;
    var stored := data[key := text];
    assert Coerce(fields[key].ty, text).Some? by {
      match v
      case IntVal(n) => ParseDecimalText(n);
      case StrVal(s) =>
    }
    if MissingRequired(fields, stored) {
      var name :| name in fields && name !in stored && fields[name].default.None?;
      assert name in fields && name !in data && fields[name].default.None?;
    }
    if HasBadEntry(fields, stored) {
      var k :| k in stored && BadEntry(fields, k, stored[k]);
      assert k != key;
      assert k in data && BadEntry(fields, k, data[k]);
    }
  }

  /**
   * `PydanticValidator.validate`, with the library's own verdict on the data
   * as the parameter `rejects`: a rejection of non-empty data is Invalid (or
   * fails when raising), a rejection of empty data is Unfilled.
   */
  function PydanticValidate(model: Model, rejects: bool, data: map<string, string>, raise: bool)
    : (r: Result<Verdict, Error>)
    ensures model.None? || !rejects ==> r == Success(Valid)
    ensures model.Some? && rejects && data == map[] ==> r == Success(Unfilled)
    ensures model.Some? && rejects && data != map[] ==>
      r == (if raise then Failure(ValidationFailed) else Success(Invalid))
  {
    if model.None? then Success(Valid)
    else if !rejects then Success(Valid)
    else if data != map[] then (if raise then Failure(ValidationFailed) else Success(Invalid))
    else Success(Unfilled)
  }

  /** Python truthiness of a default value: zero and the empty string are false. */
  predicate Truthy(v: Value) {
    match v
    case IntVal(i) => i != 0
    case StrVal(s) => s != ""
  }

  /** `_get_dataclass_defaults`: every field that declares a default, mapped to it. */
  function DataclassDefaults(fields: Fields): (d: map<string, Value>)
    ensures d.Keys <= fields.Keys
    ensures forall name :: name in d <==> name in fields && fields[name].default.Some?
    ensures forall name :: name in d ==> d[name] == fields[name].default.value
  {
    map name | name in fields && fields[name].default.Some? :: fields[name].default.value
  }

  /** `_get_pydantic_defaults`: only the fields whose default is truthy. */
  function PydanticDefaults(fields: Fields): (d: map<string, Value>)
    ensures d.Keys <= fields.Keys
    ensures forall name :: name in d <==>
      name in fields && fields[name].default.Some? && Truthy(fields[name].default.value)
    ensures forall name :: name in d ==> d[name] == fields[name].default.value
  {
    map name | name in fields && fields[name].default.Some? && Truthy(fields[name].default.value)
      :: fields[name].default.value
  }

  /** `get_defaults`: the dataclass rule for dataclass models, the pydantic rule otherwise. */
  function GetDefaults(isDataclass: bool, fields: Fields): (d: map<string, Value>)
    ensures d.Keys <= DataclassDefaults(fields).Keys
    ensures forall name :: name in d ==> d[name] == DataclassDefaults(fields)[name]
    ensures isDataclass ==> d == DataclassDefaults(fields)
    ensures !isDataclass ==> d == PydanticDefaults(fields)
  {
    if isDataclass then DataclassDefaults(fields) else PydanticDefaults(fields)
  }

  /** The pydantic rule keeps exactly the dataclass defaults that are truthy, with the same values. */
  lemma PydanticDefaultsAreTruthyDefaults(fields: Fields)
    ensures forall name :: name in PydanticDefaults(fields) <==>
      name in DataclassDefaults(fields) && Truthy(DataclassDefaults(fields)[name])
    ensures forall name :: name in PydanticDefaults(fields) ==>
      PydanticDefaults(fields)[name] == DataclassDefaults(fields)[name]
  {
  }

  /** Two required fields and two defaulted ones: only the defaulted ones come back, with their defaults. */
  lemma DataclassDefaultsExample()
    ensures DataclassDefaults(map[
      "a" := Field(IntType, None), "b" := Field(StrType, None),
      "bar" := Field(IntType, Some(IntVal(1))), "baz" := Field(StrType, Some(StrVal("qux")))])
      == map["bar" := IntVal(1), "baz" := StrVal("qux")]
  {
    var fields := map[
      "a" := Field(IntType, None), "b" := Field(StrType, None),
      "bar" := Field(IntType, Some(IntVal(1))), "baz" := Field(StrType, Some(StrVal("qux")))];
    var d := DataclassDefaults(fields);
    assert "a" !in d && "b" !in d;
    assert d.Keys == {"bar", "baz"};
  }

  /**
   * The defaults are exactly the optional fields: a field is defaulted iff
   * it is not required, so a databag holding every default misses nothing.
   */
  lemma DefaultsCoverOptionalFields(fields: Fields, data: map<string, string>)
    requires forall name :: name in fields ==> name in data || fields[name].default.Some?
    ensures !MissingRequired(fields, data)
    ensures forall name :: name in fields ==> (name in DataclassDefaults(fields) <==> fields[name].default.Some?)
    ensures forall name :: name in DataclassDefaults(fields) ==> DataclassDefaults(fields)[name] == fields[name].default.value
  {
  }
}
