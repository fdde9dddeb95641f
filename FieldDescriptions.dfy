/**
 * FieldDescriptionsCM: a manifest holding a list of fields, with a string
 * indexer. Reading by key finds the first field with that key; writing by
 * key overwrites the value of the list's first field, whatever its key.
 */
module FieldDescriptions {
  import opened Wrappers
  import opened Crates

  /** The indexer get: the value of the first field with that key; null without one or without a list. */
  function ValueOf(fields: Option<seq<Field>>, key: string): (r: Option<string>)
    ensures fields.None? ==> r.None?
    ensures fields.Some? && FirstWithKey(fields.value, key).Some? ==> r == FirstWithKey(fields.value, key).value.value
    ensures fields.Some? && FirstWithKey(fields.value, key).None? ==> r.None?
  {
    match fields
    case None => None
    case Some(fs) =>
      match FirstWithKey(fs, key)
      case None => None
      case Some(f) => f.value
  }

  /** The list after the indexer set: the first field's value replaced, nothing else touched. */
  function SetFirstValue(fs: seq<Field>, value: Option<string>): (r: seq<Field>)
    ensures |r| == |fs|
    ensures |fs| > 0 ==> r[0] == fs[0].(value := value)
    ensures |fs| > 0 ==> r[1..] == fs[1..]
    ensures |fs| == 0 ==> r == []
  {
    if |fs| == 0 then fs else [fs[0].(value := value)] + fs[1..]
  }

  /** The indexer set changes no field's key. */
  lemma SetFirstValueKeepsKeys(fs: seq<Field>, value: Option<string>, i: int)
    requires 0 <= i < |fs|
    ensures SetFirstValue(fs, value)[i].key == fs[i].key
    ensures i > 0 ==> SetFirstValue(fs, value)[i] == fs[i]
  {
  }

  /** After set(k, v), get(k') is v exactly when the list's first field has key k'; otherwise as before. */
  lemma GetAfterSet(fs: seq<Field>, key: string, value: Option<string>)
    ensures ValueOf(Some(SetFirstValue(fs, value)), key)
         == if |fs| > 0 && fs[0].key == key then value else ValueOf(Some(fs), key)
  {
    if |fs| > 0 && fs[0].key != key {
      assert SetFirstValue(fs, value)[1..] == fs[1..];
    }
  }

  /** The quirk: a set under the key of a later field leaves that key's value as it was. */
  lemma SetMissesLaterKey(fs: seq<Field>, key: string, value: Option<string>)
    requires |fs| > 1 && fs[0].key != key && fs[1].key == key
    ensures ValueOf(Some(SetFirstValue(fs, value)), key) == fs[1].value
  {
    GetAfterSet(fs, key, value);
    assert fs[1..][0] == fs[1];
    assert FirstWithKey(fs, key) == FirstWithKey(fs[1..], key) == Some(fs[1]);
  }

  class FieldDescriptionsCM {
    var Fields: Option<seq<Field>>

    /** The default constructor: an empty list. */
    constructor ()
      ensures Fields == Some([])
    {
      Fields := Some([]);
    }

    /** The constructors taking an enumerable or a params array: the given fields, in order. */
    constructor FromFields(fields: seq<Field>)
      ensures Fields == Some(fields)
    {
      Fields := Some([]);
      new;
      assert Fields.value + fields == fields;
      Fields := Some(Fields.value + fields);
    }

    /** The indexer get: null without a list or a field with the key, otherwise the value of a field with the key. */
    function Get(key: string): (r: Option<string>)
      reads this
      ensures Fields.None? ==> r.None?
      ensures Fields.Some? && (forall f :: f in Fields.value ==> f.key != key) ==> r.None?
      ensures r.Some? ==> Fields.Some? && exists f :: f in Fields.value && f.key == key && f.value == r
    {
      ValueOf(Fields, key)
    }

    /** The indexer set; a null list throws, reported as `thrown`. */
    method Set(key: string, value: Option<string>) returns (thrown: bool)
      modifies this
      ensures thrown <==> old(Fields).None?
      ensures !thrown ==> Fields == Some(SetFirstValue(old(Fields).value, value))
      ensures thrown ==> Fields == old(Fields)
    {
      if Fields.None? {
        return true;
      }
      var fs := Fields.value;
      if |fs| > 0 {
        Fields := Some([fs[0].(value := value)] + fs[1..]);
      }
      thrown := false;
    }
  }
}
