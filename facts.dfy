/**
 * Facts and their fields (libanki/anki/facts.py): a fact exposes its ordered
 * fields as a dictionary keyed by field name, and checks that required
 * fields are filled in.
 */
module Facts {
  import opened Wrappers
  import opened PyStr

  /** A field of a fact: the name and `required` flag come from its field model. */
  datatype Field = Field(name: string, value: string, required: bool)

  /** The exceptions the dictionary interface and the validation raise. */
  datatype FactError = KeyError | FactInvalid(kind: string, field: string)

  /** The position of the first field named `key`, if any. */
  function FirstNamed(fields: seq<Field>, key: string): (r: Option<nat>)
    ensures r.None? <==> forall i :: 0 <= i < |fields| ==> fields[i].name != key
    ensures r.Some? ==> r.value < |fields| && fields[r.value].name == key
                        && forall i :: 0 <= i < r.value ==> fields[i].name != key
  {
    if fields == [] then None
    else if fields[0].name == key then Some(0)
    else match FirstNamed(fields[1..], key)
         case None => None
         case Some(i) => Some(i + 1)
  }

  /** `fact[key]` over a field list: the value of the first field with that name, or KeyError. */
  function Lookup(fields: seq<Field>, key: string): (r: Result<string, FactError>)
    ensures r.Err? <==> forall i :: 0 <= i < |fields| ==> fields[i].name != key
    ensures r.Err? ==> r.error == KeyError
    ensures r.Ok? ==> exists i :: 0 <= i < |fields| && fields[i].name == key && r.value == fields[i].value
                                  && forall j :: 0 <= j < i ==> fields[j].name != key
  {
    match FirstNamed(fields, key)
    case None => Err(KeyError)
    case Some(i) => Ok(fields[i].value)
  }

  /** `fact[key] = value` over a field list: the first field with that name takes the value; KeyError otherwise. */
  function Assigned(fields: seq<Field>, key: string, value: string): (r: Result<seq<Field>, FactError>)
    ensures r.Err? <==> forall i :: 0 <= i < |fields| ==> fields[i].name != key
    ensures r.Ok? ==> |r.value| == |fields| && forall i :: 0 <= i < |fields| ==> r.value[i].name == fields[i].name && r.value[i].required == fields[i].required
  {
    match FirstNamed(fields, key)
    case None => Err(KeyError)
    case Some(i) => Ok(fields[i := fields[i].(value := value)])
  }

  /** Reading a key just assigned gives the assigned value, and every other key reads as before. */
  lemma LookupAfterAssign(fields: seq<Field>, key: string, value: string, other: string)
    requires Assigned(fields, key, value).Ok?
    ensures Lookup(Assigned(fields, key, value).value, key) == Ok(value)
    ensures other != key ==> Lookup(Assigned(fields, key, value).value, other) == Lookup(fields, other)
  {
    var i := FirstNamed(fields, key).value;
    var after := Assigned(fields, key, value).value;
    FirstNamedAfterAssign(fields, i, value, key);
    FirstNamedAfterAssign(fields, i, value, other);
  }

  /** Changing a value leaves every first-occurrence position alone. */
  lemma FirstNamedAfterAssign(fields: seq<Field>, i: nat, value: string, key: string)
    requires i < |fields|
    ensures FirstNamed(fields[i := fields[i].(value := value)], key) == FirstNamed(fields, key)
  {
    var after := fields[i := fields[i].(value := value)];
    assert forall j :: 0 <= j < |fields| ==> after[j].name == fields[j].name;
    match FirstNamed(fields, key)
    case None =>
    case Some(k) =>
      match FirstNamed(after, key)
      case None =>
      case Some(k2) =>
        assert !(k2 < k) && !(k < k2);
  }

  /** `fieldValid`: false exactly when the field is required and its value is whitespace only. */
  function FieldValid(f: Field): (r: bool)
    ensures !r <==> f.required && AllSpace(f.value)
  {
    BlankAllSpace(f.value);
    !(f.required && Blank(f.value))
  }

  /** Whitespace only, character by character. */
  predicate Blank(s: string)
  {
    s == [] || (IsSpace(s[0]) && Blank(s[1..]))
  }

  lemma {:induction false} BlankAllSpace(s: string)
    ensures Blank(s) <==> AllSpace(s)
  {
    if s != [] {
      BlankAllSpace(s[1..]);
      assert forall i :: 1 <= i < |s| ==> s[i] == s[1..][i - 1];
    }
  }

  /** The test `fieldValid` makes: a field is invalid exactly when it is required and `strip` leaves its value empty. */
  lemma FieldValidMeans(f: Field)
    ensures !FieldValid(f) <==> f.required && Strip(f.value) == []
    ensures !FieldValid(f) <==> f.required && AllSpace(f.value)
  {
    BlankAllSpace(f.value);
    StripEmpty(f.value);
  }

  /** The position of the first field that is not valid, if any. */
  function FirstInvalid(fields: seq<Field>): (r: Option<nat>)
    ensures r.None? <==> forall i :: 0 <= i < |fields| ==> FieldValid(fields[i])
    ensures r.Some? ==> r.value < |fields| && !FieldValid(fields[r.value])
                        && forall i :: 0 <= i < r.value ==> FieldValid(fields[i])
  {
    if fields == [] then None
    else if !FieldValid(fields[0]) then Some(0)
    else
      var rest := fields[1..];
      assert forall j :: 1 <= j < |fields| ==> fields[j] == rest[j - 1];
      match FirstInvalid(rest)
      case None => None
      case Some(i) => Some(i + 1)
  }

  /** A fact: an ordered list of fields. */
  class Fact {
    var fields: seq<Field>

    constructor(fields: seq<Field>)
      ensures this.fields == fields
    {
      this.fields := fields;
    }

    /** `keys()`: the field names, in field order. */
    function Keys(): (r: seq<string>)
      reads this
      ensures |r| == |fields| && forall i :: 0 <= i < |fields| ==> r[i] == fields[i].name
    {
      seq(|fields|, i reads this requires 0 <= i < |fields| => fields[i].name)
    }

    /** `values()`: the field values, in field order. */
    function Values(): (r: seq<string>)
      reads this
      ensures |r| == |fields| && forall i :: 0 <= i < |fields| ==> r[i] == fields[i].value
    {
      seq(|fields|, i reads this requires 0 <= i < |fields| => fields[i].value)
    }

    /** `fact[key]`: found exactly for the keys `keys()` lists. */
    function Get(key: string): (r: Result<string, FactError>)
      reads this
      ensures r.Ok? <==> key in Keys()
      ensures r == Lookup(fields, key)
    {
      var r := Lookup(fields, key);
      assert r.Ok? ==> key in Keys() by {
        if r.Ok? {
          var i :| 0 <= i < |fields| && fields[i].name == key && r.value == fields[i].value
                   && forall j :: 0 <= j < i ==> fields[j].name != key;
          assert Keys()[i] == key;
        }
      }
      r
    }

    /** `fact[key] = value`: the first field with that name changes; with no such field, KeyError and no change. */
    method Set(key: string, value: string) returns (r: Result<(), FactError>)
      modifies this
      ensures Assigned(old(fields), key, value).Err? ==> r == Err(KeyError) && fields == old(fields)
      ensures Assigned(old(fields), key, value).Ok? ==> r == Ok(()) && fields == Assigned(old(fields), key, value).value
    {
      match FirstNamed(fields, key)
      case None =>
        r := Err(KeyError);
      case Some(i) =>
        fields := fields[i := fields[i].(value := value)];
        r := Ok(());
    }

    /**
     * `get(key, default)` as written: it catches IndexError, but `fact[key]`
     * turns the IndexError into a KeyError, so the handler never runs and a
     * missing key raises KeyError instead of giving `default`.
     */
    function GetAsWritten(key: string, default: string): (r: Result<string, FactError>)
      reads this
      ensures key in Keys() ==> r == Get(key)
      ensures key !in Keys() ==> r == Err(KeyError)
    {
      Get(key)
    }

    /** `get(key, default)` as intended: the value when the key is there, `default` otherwise. */
    function GetOr(key: string, default: string): (r: string)
      reads this
      ensures key in Keys() ==> Get(key) == Ok(r)
      ensures key !in Keys() ==> r == default
    {
      match Get(key)
      case Err(_) => default
      case Ok(v) => v
    }

    /** `assertValid`: the first field that is not valid raises `fieldEmpty` naming it; otherwise it returns. */
    method AssertValid() returns (r: Result<(), FactError>)
      ensures r.Ok? <==> forall i :: 0 <= i < |fields| ==> FieldValid(fields[i])
      ensures r.Err? ==> FirstInvalid(fields).Some? && r.error == FactInvalid("fieldEmpty", fields[FirstInvalid(fields).value].name)
    {
      for i := 0 to |fields|
        invariant forall j :: 0 <= j < i ==> FieldValid(fields[j])
      {
        if !FieldValid(fields[i]) {
          assert FirstInvalid(fields) == Some(i);
          return Err(FactInvalid("fieldEmpty", fields[i].name));
        }
      }
      return Ok(());
    }
  }

  /** As written, `get` on a fact without the key raises instead of returning the default. */
  method GetIgnoresDefault() returns (f: Fact)
    ensures f.GetAsWritten("Back", "none") == Err(KeyError)
    ensures f.GetOr("Back", "none") == "none"
  {
    f := new Fact([Field("Front", "one", true)]);
    assert f.Keys() == ["Front"];
  }
}
