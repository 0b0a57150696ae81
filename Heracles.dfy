/**
 * Heracles: a flat container of named values plus an optional stored error.
 * The container's state is the `values` map and the `error`; the readers
 * are defined on a snapshot of that state, the writers on the class.
 */
module HeraclesContainer {
  import opened Wrappers

  /** The values a container holds after formatting: null, or a simple type. */
  datatype Value =
    | Null
    | Text(text: string)
    | LongValue(longValue: int)
    | IntValue(intValue: int)
    | BoolValue(boolValue: bool)

  /** An argument of setValue: a simple value, or an enum constant given by its name(). */
  datatype Argument = Plain(value: Value) | EnumConstant(name: string)

  /** The exceptions a reader can raise. */
  datatype Fault =
    | PanteonException(message: string)
    | ClassCastException
    | NullPointerException

  /** formatValue for what setValue receives: null stays null, an enum becomes its name, a simple value is kept. */
  function FormatValue(a: Argument): (v: Value)
    ensures a.EnumConstant? ==> v == Text(a.name)
    ensures a.Plain? ==> v == a.value
  {
    match a
    case Plain(v) => v
    case EnumConstant(name) => Text(name)
  }

  function MissingKeyMessage(key: string): string {
    "Requested parameter is not set by key '" + key + "'."
  }

  /** The state of a Heracles: its values and the message of the stored error, if any. */
  datatype Container = Container(values: map<string, Value>, error: Option<string>) {

    /** hasValue: the key is present, whatever its value, so getValueSafe does not throw on it. */
    predicate HasValue(key: string): (r: bool)
      ensures r <==> GetValueSafe(key).Ok?
    {
      key in values
    }

    /** hasError: an error is stored, and then every getValue throws it. */
    predicate HasError(): (r: bool)
      ensures r ==> error.Some? && forall key :: GetValue(key) == Err(PanteonException(error.value))
      ensures !r ==> forall key :: GetValue(key) == GetValueSafe(key)
    {
      error.Some?
    }

    /** isEmpty: no key is present. */
    function IsEmpty(): (r: bool)
      ensures r <==> forall k :: k !in values
    {
      assert values != map[] ==> exists k :: k in values by {
        if values != map[] {
          var k :| k in values.Keys;
        }
      }
      values == map[]
    }

    /** getValueDefSafe: the stored value of a present key, null included; the default for an absent key. */
    function GetValueDefSafe(key: string, default: Value): (r: Value)
      ensures key in values ==> r == values[key]
      ensures key !in values ==> r == default
    {
      if key in values then values[key] else default
    }

    /** getValueDef: throws the stored error if there is one, whatever the key. */
    function GetValueDef(key: string, default: Value): (r: Result<Value, Fault>)
      ensures error.Some? <==> r.Err?
      ensures error.Some? ==> r == Err(PanteonException(error.value))
      ensures r.Ok? ==> r.value == GetValueDefSafe(key, default)
    {
      if error.Some? then Err(PanteonException(error.value)) else Ok(GetValueDefSafe(key, default))
    }

    /** getValueDefNull: a null result becomes the default. */
    function GetValueDefNull(key: string, default: Value): (r: Result<Value, Fault>)
      ensures r.Err? <==> error.Some?
      ensures r.Ok? && key in values && values[key] != Null ==> r.value == values[key]
      ensures r.Ok? && (key !in values || values[key] == Null) ==> r.value == default
    {
      var ret :- GetValueDef(key, default);
      Ok(if ret == Null then default else ret)
    }

    /** getValueDefEmpty: the result is cast to String; a null or "" result becomes the default. */
    function GetValueDefEmpty(key: string, default: Option<string>): (r: Result<Option<string>, Fault>)
      ensures error.Some? ==> r == Err(PanteonException(error.value))
      ensures error.None? && key in values && values[key].Text? && values[key].text != "" ==> r == Ok(Some(values[key].text))
      ensures error.None? && (key !in values || values[key] == Null || values[key] == Text("")) ==> r == Ok(default)
      ensures error.None? && key in values && !values[key].Text? && values[key] != Null ==> r == Err(ClassCastException)
    {
      var ret :- GetValueDef(key, if default.Some? then Text(default.value) else Null);
      if ret == Null || ret == Text("") then Ok(default)
      else if ret.Text? then Ok(Some(ret.text))
      else Err(ClassCastException)
    }

    /** getValueSafe: throws exactly when the key is absent. */
    function GetValueSafe(key: string): (r: Result<Value, Fault>)
      ensures r.Err? <==> key !in values
      ensures r.Ok? ==> r.value == values[key]
      ensures r.Err? ==> r.error == PanteonException(MissingKeyMessage(key))
    {
      if key in values then Ok(values[key]) else Err(PanteonException(MissingKeyMessage(key)))
    }

    /** getValue: the stored error first, then getValueSafe. */
    function GetValue(key: string): (r: Result<Value, Fault>)
      ensures error.Some? ==> r == Err(PanteonException(error.value))
      ensures error.None? ==> r == GetValueSafe(key)
    {
      if error.Some? then Err(PanteonException(error.value)) else GetValueSafe(key)
    }
  }

  /** A mutable Heracles: setValue and setError update the state in place. */
  class Heracles {
    var values: map<string, Value>
    var error: Option<string>

    function Snapshot(): Container
      reads this
    {
      Container(values, error)
    }

    /** new Heracles(): no values and no error. */
    constructor ()
      ensures values == map[] && error == None
    {
      values := map[];
      error := None;
    }

    /** new Heracles(error): no values, the given error. */
    constructor WithError(e: Option<string>)
      ensures values == map[] && error == e
    {
      values := map[];
      error := e;
    }

    /** setValue: the key now holds the formatted value; every other key and the error are unchanged. */
    method SetValue(key: string, a: Argument)
      modifies this
      ensures values == old(values)[key := FormatValue(a)]
      ensures error == old(error)
    {
      values := values[key := FormatValue(a)];
    }

    /** setError: replaces the stored error; the values are unchanged. */
    method SetError(e: Option<string>)
      modifies this
      ensures error == e && values == old(values)
    {
      error := e;
    }
  }

  /** After setValue(k, v): k is present and reads back as v's formatted form, and any other key reads as before. */
  lemma SetThenGet(c: Container, key: string, a: Argument, other: string, default: Value)
    requires c.error.None? && other != key
    ensures var d := c.(values := c.values[key := FormatValue(a)]);
      d.HasValue(key) && d.GetValueDef(key, default) == Ok(FormatValue(a)) &&
      d.HasValue(other) == c.HasValue(other) && d.GetValueDef(other, default) == c.GetValueDef(other, default)
  {
  }

  /** A null value is stored as null under a present key, so getValueDefSafe returns null rather than the default. */
  lemma NullIsStored(c: Container, key: string, default: Value)
    ensures var d := c.(values := c.values[key := FormatValue(Plain(Null))]);
      d.HasValue(key) && d.GetValueDefSafe(key, default) == Null && !d.IsEmpty()
  {
  }
}
