/**
 * Property lookup on a JavaScript object literal used as a string table:
 * its own keys first, then the members every plain object inherits from
 * `Object.prototype`, then `undefined`; and the `||` fallback applied to the
 * result.
 */
module JsObject {
  import opened Common

  /** The values a lookup on a string table can produce. */
  datatype JsValue = JsString(s: string) | JsFunction | JsPrototypeObject

  /** The methods every plain object inherits. */
  const InheritedMethods: set<string> := {
    "constructor", "hasOwnProperty", "isPrototypeOf", "propertyIsEnumerable",
    "toLocaleString", "toString", "valueOf",
    "__defineGetter__", "__defineSetter__", "__lookupGetter__", "__lookupSetter__"
  }

  /** Every key a plain object answers without owning it. */
  predicate Inherited(key: string) {
    key in InheritedMethods || key == "__proto__"
  }

  /** `table[key]`, `None` standing for `undefined`. */
  function Get(table: map<string, string>, key: string): (v: Option<JsValue>)
    ensures key in table ==> v == Some(JsString(table[key]))
    ensures key !in table && !Inherited(key) ==> v == None
    ensures key !in table && Inherited(key) ==> v.Some? && !v.value.JsString?
  {
    if key in table then Some(JsString(table[key]))
    else if key == "__proto__" then Some(JsPrototypeObject)
    else if key in InheritedMethods then Some(JsFunction)
    else None
  }

  /** JavaScript truthiness of a lookup result: functions and objects are
      truthy, the empty string and `undefined` are not. */
  predicate IsTruthy(v: Option<JsValue>) {
    v.Some? && v.value != JsString("")
  }

  /** `table[key] || fallback`. */
  function GetOr(table: map<string, string>, key: string, fallback: string): (r: JsValue)
    ensures IsTruthy(Get(table, key)) ==> r == Get(table, key).value
    ensures !IsTruthy(Get(table, key)) ==> r == JsString(fallback)
  {
    var v := Get(table, key);
    if IsTruthy(v) then v.value else JsString(fallback)
  }

  /** The lookup restricted to the table's own keys, which is what a string
      table is meant to do. */
  function GetOwnOr(table: map<string, string>, key: string, fallback: string): (r: string)
    ensures key in table && table[key] != "" ==> r == table[key]
    ensures !(key in table && table[key] != "") ==> r == fallback
  {
    if key in table && table[key] != "" then table[key] else fallback
  }

  /** The two lookups agree on every key a plain object does not inherit. */
  lemma GetOrAgreesOffPrototype(table: map<string, string>, key: string, fallback: string)
    requires !Inherited(key)
    ensures GetOr(table, key, fallback) == JsString(GetOwnOr(table, key, fallback))
  {
  }

  /** An inherited key that the table does not own never falls back to the
      default and never yields a string. */
  lemma GetOrInheritedKey(table: map<string, string>, key: string, fallback: string)
    requires Inherited(key) && key !in table
    ensures !GetOr(table, key, fallback).JsString?
  {
  }
}
