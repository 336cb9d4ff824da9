/** JavaScript values as the services see them in records read from the database or
    from a request body, with the truthiness, `||` defaulting, `String(value)` and
    property lookup of the language. Numbers are integers here. */
module Js {
  import opened Wrappers
  import Str

  datatype Value =
    | Undefined
    | Null
    | Bool(b: bool)
    | Num(n: int)
    | Text(s: string)
    | Arr(items: seq<Value>)
    | Obj(fields: seq<(string, Value)>)

  /** The truthiness of an optional text field: present and not empty. */
  predicate Filled(v: Option<string>) { v.Some? && v.value != "" }

  /** The truthiness of an optional numeric field: present and not 0. */
  predicate Nonzero(v: Option<int>) { v.Some? && v.value != 0 }

  /** `!!v`. */
  predicate Truthy(v: Value) {
    match v
    case Undefined => false
    case Null => false
    case Bool(b) => b
    case Num(n) => n != 0
    case Text(s) => s != ""
    case Arr(_) => true
    case Obj(_) => true
  }

  /** `a || b`. */
  function Or(a: Value, b: Value): (r: Value)
    ensures Truthy(a) ==> r == a
    ensures !Truthy(a) ==> r == b
  {
    if Truthy(a) then a else b
  }

  /** `v == null`: null or undefined. */
  predicate IsNullish(v: Value) { v.Null? || v.Undefined? }

  /** `v ?? d`. */
  function Coalesce(v: Value, d: Value): (r: Value)
    ensures IsNullish(v) ==> r == d
    ensures !IsNullish(v) ==> r == v
  {
    if IsNullish(v) then d else v
  }

  /** `obj[key]`: the first field with that key, undefined when absent or when the value
      is not an object. */
  function Get(v: Value, key: string): (r: Value)
    ensures v.Obj? && (exists i :: 0 <= i < |v.fields| && v.fields[i].0 == key) ==> r == FieldValue(v.fields, key)
  {
    if v.Obj? then FieldValue(v.fields, key) else Undefined
  }

  function FieldValue(fields: seq<(string, Value)>, key: string): (r: Value)
    ensures (forall i :: 0 <= i < |fields| ==> fields[i].0 != key) ==> r == Undefined
    ensures r != Undefined ==> exists i :: 0 <= i < |fields| && fields[i] == (key, r)
    decreases |fields|
  {
    if fields == [] then Undefined
    else if fields[0].0 == key then fields[0].1
    else FieldValue(fields[1..], key)
  }

  /** `Object.keys(obj)`, in insertion order. */
  function Keys(fields: seq<(string, Value)>): (r: seq<string>)
    ensures |r| == |fields|
    ensures forall i :: 0 <= i < |fields| ==> r[i] == fields[i].0
  {
    seq(|fields|, i requires 0 <= i < |fields| => fields[i].0)
  }

  /** `obj[key] = v`, and a property written after a spread: an existing key keeps its
      position and takes the new value, a new key is appended. */
  function Set(fields: seq<(string, Value)>, key: string, v: Value): (r: seq<(string, Value)>)
    ensures FieldValue(r, key) == v
    ensures forall k :: k != key ==> FieldValue(r, k) == FieldValue(fields, k)
    ensures |r| == |fields| || |r| == |fields| + 1
    ensures (exists i :: 0 <= i < |fields| && fields[i].0 == key) ==> Keys(r) == Keys(fields)
    ensures (forall i :: 0 <= i < |fields| ==> fields[i].0 != key) ==> Keys(r) == Keys(fields) + [key]
    decreases |fields|
  {
    if fields == [] then [(key, v)]
    else if fields[0].0 == key then [(key, v)] + fields[1..]
    else
      var rest := Set(fields[1..], key, v);
      KeysCons(fields[0], rest);
      KeysCons(fields[0], fields[1..]);
      KeyInTail(fields, key);
      assert [fields[0]] + fields[1..] == fields;
      [fields[0]] + rest
  }

  lemma KeysCons(first: (string, Value), rest: seq<(string, Value)>)
    ensures Keys([first] + rest) == [first.0] + Keys(rest)
  {
  }

  lemma KeyInTail(fields: seq<(string, Value)>, key: string)
    requires fields != [] && fields[0].0 != key
    ensures (exists i :: 0 <= i < |fields| && fields[i].0 == key) <==>
      exists i :: 0 <= i < |fields[1..]| && fields[1..][i].0 == key
  {
    if exists i :: 0 <= i < |fields| && fields[i].0 == key {
      var i :| 0 <= i < |fields| && fields[i].0 == key;
      assert fields[1..][i - 1].0 == key;
    }
    if exists i :: 0 <= i < |fields[1..]| && fields[1..][i].0 == key {
      var i :| 0 <= i < |fields[1..]| && fields[1..][i].0 == key;
      assert fields[i + 1].0 == key;
    }
  }

  /** `String(v)`; an array joins its elements' texts with ",", null and undefined inside
      it contributing "". */
  function ToString(v: Value): string
    decreases v
  {
    match v
    case Undefined => "undefined"
    case Null => "null"
    case Bool(b) => if b then "true" else "false"
    case Num(n) => Str.IntToString(n)
    case Text(s) => s
    case Arr(items) => JoinItems(items)
    case Obj(_) => "[object Object]"
  }

  function JoinItems(items: seq<Value>): string
    decreases items
  {
    if items == [] then ""
    else
      var first := if IsNullish(items[0]) then "" else ToString(items[0]);
      if |items| == 1 then first else first + "," + JoinItems(items[1..])
  }

  /** The text of a truthy string-or-other value, or a default: `v || d` used as a string. */
  function TextOr(v: Value, d: string): string {
    if Truthy(v) then ToString(v) else d
  }

  /** The number in a field, with a missing or non-numeric value as 0 (`v || 0`). */
  function NumOr0(v: Value): int {
    match v case Num(n) => n case _ => 0
  }
}
