/**
 * Databags and `DataWrapper`: a typed, permission-checked mapping view over
 * the string-to-string databag one entity publishes in a relation.
 */
module Databags {
  import opened Wrappers
  import opened Verdicts
  import opened Decimal
  import opened Models
  import opened Validator

  /**
   * The databag of one entity in one relation, as the host framework keeps
   * it. It is shared: every wrapper built over it reads and writes the same
   * map.
   */
  class Databag {
    var data: map<string, string>

    constructor (init: map<string, string>)
      ensures data == init
    {
      data := init;
    }

    /** The framework's item assignment: the empty text removes the key instead of storing it. */
    method Put(key: string, text: string)
      modifies this
      ensures data == Stored(old(data), key, text)
      ensures text == "" ==> key !in data
      ensures text != "" ==> key in data && data[key] == text
    {
      if text == "" {
        data := data - {key};
      } else {
        data := data[key := text];
      }
    }
  }

  /** The databag contents after assigning `text` to `key`. */
  function Stored(data: map<string, string>, key: string, text: string): map<string, string> {
    if text == "" then data - {key} else data[key := text]
  }

  /** `DataWrapperParams`: the databag, its bound schema and the write permission fixed at construction. */
  datatype WrapperParams = WrapperParams(bag: Databag, model: Model, canWrite: bool)
  {
    /** `valid`: the verdict on the databag's current contents. */
    function Validity(): Verdict
      reads bag
    {
      Validator.Validity(model, bag.data)
    }
  }

  /** `__getitem__`: field check, then the raw lookup, then deserialization. */
  function Lookup(model: Model, data: map<string, string>, key: string): (r: Result<Value, Error>)
    ensures model.Some? && key !in model.value ==> r == Failure(InvalidFieldName(key))
    ensures (model.None? || key in model.value) && key !in data ==> r == Failure(KeyMissing(key))
    ensures (model.None? || key in model.value) && key in data ==> r == Deserialize(model, key, data[key])
  {
    var field := CheckField(model, key);
    if field.Failure? then Failure(field.error)
    else if key !in data then Failure(KeyMissing(key))
    else Deserialize(model, key, data[key])
  }

  /**
   * `__setitem__` up to the store: the permission gate, then the field
   * check, then serialization; the text to store on success.
   */
  function Write(canWrite: bool, model: Model, key: string, value: Value): (r: Result<string, Error>)
    ensures !canWrite ==> r == Failure(CannotWrite)
    ensures canWrite && model.Some? && key !in model.value ==> r == Failure(InvalidFieldName(key))
    ensures canWrite && model.Some? && key in model.value ==>
      (r.Success? <==> value.Type() == model.value[key].ty)
    ensures canWrite && model.Some? && key in model.value && r.Failure? ==> r.error == Coercion(key)
    ensures canWrite && model.None? ==> r.Success?
    ensures r.Success? ==> (r.value == "" <==> model.None? && value == StrVal(""))
  {
    if !canWrite then Failure(CannotWrite)
    else
      var field := CheckField(model, key);
      if field.Failure? then Failure(field.error)
      else Serialize(model, key, value)
  }

  /** `__delitem__` up to the store: the permission gate, then the field check; on success the empty text to assign. */
  function Erase(canWrite: bool, model: Model, key: string): (r: Result<string, Error>)
    ensures !canWrite ==> r == Failure(CannotWrite)
    ensures canWrite && model.Some? && key !in model.value ==> r == Failure(InvalidFieldName(key))
    ensures r.Success? <==> canWrite && (model.None? || key in model.value)
    ensures r.Success? ==> r.value == ""
  {
    if !canWrite then Failure(CannotWrite)
    else
      var field := CheckField(model, key);
      if field.Failure? then Failure(field.error) else Success("")
  }

  /**
   * What a successful write stores reads back: the same int for an int
   * field, a value of the declared type for any field, and anything at all
   * without a schema. The one exception is the empty string written without
   * a schema: it is stored as the empty text, which removes the key.
   */
  lemma WriteThenLookup(canWrite: bool, model: Model, data: map<string, string>, key: string, value: Value)
    requires Write(canWrite, model, key, value).Success?
    ensures var stored := Stored(data, key, Write(canWrite, model, key, value).value);
      && (model.Some? || value != StrVal("") ==> Lookup(model, stored, key).Success?)
      && (model.Some? ==> Lookup(model, stored, key).value.Type() == value.Type())
      && (model.Some? && value.IntVal? ==> Lookup(model, stored, key) == Success(value))
      && (model.None? && value.IntVal? ==> Lookup(model, stored, key) == Success(value))
      && (model.None? && value == StrVal("") ==> Lookup(model, stored, key) == Failure(KeyMissing(key)))
  {
    match value
    case IntVal(n) =>
      if model.Some? {
        TypedIntRoundTrip(model.value, key, n);
      } else {
        UntypedIntRoundTrip(key, n);
      }
    case StrVal(s) =>
  }

  /**
   * `__delitem__` assigns the empty text, so the framework drops the key:
   * it reads as missing, a required field is then missing, and a Valid
   * databag can become Unfilled but never Invalid.
   */
  lemma DeleteRemovesKey(fields: Fields, data: map<string, string>, key: string)
    requires key in fields
    ensures var after := Stored(data, key, Erase(true, Some(fields), key).value);
      && key !in after
      && Lookup(Some(fields), after, key) == Failure(KeyMissing(key))
      && (fields[key].default.None? ==> Validity(Some(fields), after) == Unfilled)
      && (Validity(Some(fields), data) == Valid ==> Validity(Some(fields), after) != Invalid)
  {
    var after := data - {key};
    assert forall k :: k in after ==> k in data && after[k] == data[k];
    if Validity(Some(fields), data) == Valid {
      SubBagOfValidIsNotInvalid(Some(fields), data, after);
    }
  }

  /** `DataWrapper`: the mapping view of one databag. */
  class DataWrapper {
    const params: WrapperParams

    constructor (p: WrapperParams)
      ensures params == p
    {
      params := p;
    }

    /** `__iter__`: the keys of the databag. */
    function Keys(): (ks: set<string>)
      reads params.bag
      ensures forall k :: k in ks <==> k in params.bag.data
    {
      params.bag.data.Keys
    }

    /** `__len__`: the number of keys. */
    function Size(): (n: nat)
      reads params.bag
      ensures n == |Keys()|
    {
      |params.bag.data|
    }

    /** `__getitem__`, which never changes the databag. */
    function Get(key: string): (r: Result<Value, Error>)
      reads params.bag
      ensures r == Lookup(params.model, params.bag.data, key)
      ensures r.Success? ==> key in params.bag.data
    {
      Lookup(params.model, params.bag.data, key)
    }

    /** `__setitem__`: a failure leaves the databag as it was; a success changes that key only. */
    method Set(key: string, value: Value) returns (r: Outcome<Error>)
      modifies params.bag
      ensures r == Write(params.canWrite, params.model, key, value).ToOutcome()
      ensures r.Fail? ==> params.bag.data == old(params.bag.data)
      ensures r.Pass? ==>
        params.bag.data == Stored(old(params.bag.data), key, Write(params.canWrite, params.model, key, value).value)
    {
      if !params.canWrite {
        return Fail(CannotWrite);
      }
      var field := CheckField(params.model, key);
      if field.Failure? {
        return Fail(field.error);
      }
      var text := Serialize(params.model, key, value);
      if text.Failure? {
        return Fail(text.error);
      }
      params.bag.Put(key, text.value);
      return Pass;
    }

    /** `__delitem__`: assigns the empty text, which the framework turns into removing the key. */
    method Delete(key: string) returns (r: Outcome<Error>)
      modifies params.bag
      ensures r == Erase(params.canWrite, params.model, key).ToOutcome()
      ensures r.Fail? ==> params.bag.data == old(params.bag.data)
      ensures r.Pass? ==> params.bag.data == old(params.bag.data) - {key}
    {
      if !params.canWrite {
        return Fail(CannotWrite);
      }
      var field := CheckField(params.model, key);
      if field.Failure? {
        return Fail(field.error);
      }
      params.bag.Put(key, "");
      return Pass;
    }

    /** `valid`. */
    function Valid(): (v: Verdict)
      reads params.bag
      ensures v == Validity(params.model, params.bag.data)
    {
      params.Validity()
    }

    /** `validate`: raises exactly when the databag is Invalid. */
    method Validate() returns (r: Outcome<Error>)
      ensures r.Fail? <==> Valid() == Invalid
      ensures r.Fail? ==> r.error == ValidationFailed
    {
      var verdict := Validator.Validate(params.model, params.bag.data, true);
      r := verdict.ToOutcome();
    }
  }

  /**
   * Two wrappers over the same databag: an int written through the writable
   * one reads back through the other, and a Valid databag stays Valid.
   */
  method WriteIsShared(writer: DataWrapper, reader: DataWrapper, key: string, n: int)
      returns (r: Outcome<Error>)
    requires writer.params.bag == reader.params.bag && writer.params.model == reader.params.model
    requires writer.params.canWrite && writer.params.model.Some?
    requires key in writer.params.model.value && writer.params.model.value[key].ty == IntType
    modifies writer.params.bag
    ensures r == Pass
    ensures reader.Get(key) == Success(IntVal(n))
    ensures old(reader.Valid()) == Valid ==> reader.Valid() == Valid
  {
    r := writer.Set(key, IntVal(n));
    WriteThenLookup(true, writer.params.model, old(writer.params.bag.data), key, IntVal(n));
    StoreKeepsVerdict(writer.params.model.value, old(writer.params.bag.data), key, IntVal(n));
  }
}
