/**
 * JavaScript values as the data cache stores them. A plain object is the
 * list of its own properties in enumeration order, so that reading an own
 * property, `Object.keys` and `Object.values` can be stated exactly.
 * Properties inherited through the prototype chain are not represented.
 */
module JsValues {
  import opened Wrappers

  datatype Value =
    | Null
    | Bool(b: bool)
    | Num(n: int)
    | Str(s: string)
    | Arr(items: seq<Value>)
    | Obj(props: seq<Property>)

  /** One own property of a plain object. */
  datatype Property = Property(key: string, value: Value)

  /** A real JavaScript object never holds two properties with the same name. */
  ghost predicate DistinctKeys(props: seq<Property>) {
    forall i, j :: 0 <= i < j < |props| ==> props[i].key != props[j].key
  }

  /** `Object.keys(obj)`: the property names in enumeration order. */
  function Keys(props: seq<Property>): (ks: seq<string>)
    ensures |ks| == |props|
    ensures forall i :: 0 <= i < |props| ==> ks[i] == props[i].key
  {
    if props == [] then [] else [props[0].key] + Keys(props[1..])
  }

  /** `Object.values(obj)`: the property values in enumeration order. */
  function Values(props: seq<Property>): (vs: seq<Value>)
    ensures |vs| == |props|
    ensures forall i :: 0 <= i < |props| ==> vs[i] == props[i].value
  {
    if props == [] then [] else [props[0].value] + Values(props[1..])
  }

  /**
   * The property read `obj[key]` on own properties: the value of the property
   * named `key`, or `undefined` (None) when the object has no such own property.
   */
  function Get(props: seq<Property>, key: string): (r: Option<Value>)
    ensures r.None? <==> key !in Keys(props)
    ensures r.Some? ==> Property(key, r.value) in props
  {
    if props == [] then None
    else if props[0].key == key then Some(props[0].value)
    else Get(props[1..], key)
  }

  /**
   * The object seen as a dictionary: the reference the lookups and the
   * enumeration are measured against.
   */
  ghost function AsMap(props: seq<Property>): map<string, Value> {
    if props == [] then map[] else AsMap(props[1..])[props[0].key := props[0].value]
  }

  /** Reading a property agrees with the dictionary view of the object. */
  lemma {:induction false} GetAgreesWithMap(props: seq<Property>, key: string)
    ensures key in AsMap(props) <==> key in Keys(props)
    ensures Get(props, key) == if key in AsMap(props) then Some(AsMap(props)[key]) else None
  {
    if props != [] {
      GetAgreesWithMap(props[1..], key);
      assert Keys(props) == [props[0].key] + Keys(props[1..]);
    }
  }

  /** With distinct names, the property at position i is what a read of its name returns. */
  lemma GetAt(props: seq<Property>, i: nat)
    requires DistinctKeys(props)
    requires i < |props|
    ensures Get(props, props[i].key) == Some(props[i].value)
  {
  }

  /** With distinct names the dictionary view has one entry per property. */
  lemma {:induction false} AsMapSize(props: seq<Property>)
    requires DistinctKeys(props)
    ensures |AsMap(props)| == |props|
  {
    if props != [] {
      AsMapSize(props[1..]);
      GetAgreesWithMap(props[1..], props[0].key);
      assert props[0].key !in Keys(props[1..]) by {
        forall j | 0 <= j < |props[1..]|
          ensures Keys(props[1..])[j] != props[0].key
        {
          assert props[1..][j] == props[j + 1];
        }
      }
    }
  }

  /** With distinct names, a value is among `Object.values` exactly when some name reads it. */
  lemma ValueInValuesIff(props: seq<Property>, v: Value)
    requires DistinctKeys(props)
    ensures v in Values(props) <==> exists key :: Get(props, key) == Some(v)
  {
    if v in Values(props) {
      var i :| 0 <= i < |props| && Values(props)[i] == v;
      GetAt(props, i);
    }
    if exists key :: Get(props, key) == Some(v) {
      var key :| Get(props, key) == Some(v);
      var i :| 0 <= i < |props| && props[i] == Property(key, v);
      assert Values(props)[i] == v;
    }
  }
}
