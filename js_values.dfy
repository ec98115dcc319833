/**
 * The JavaScript values that reach the core (what the persistent store
 * holds, what the renderer sends with a drop, what the default-image module
 * returns) and the persistent key/value store itself.
 */
module JsValues {

  /** A JavaScript value, restricted to the kinds the core can meet.
      Numbers are modelled as integers: the store only ever holds window
      coordinates and sizes, which are whole pixels. */
  datatype Value = Undefined | Null | Bool(b: bool) | Num(n: int) | Str(s: string)

  /** JavaScript truthiness: `undefined`, `null`, `false`, `0` and `""` are falsy. */
  predicate Truthy(v: Value)
  {
    match v
    case Undefined => false
    case Null => false
    case Bool(b) => b
    case Num(n) => n != 0
    case Str(s) => s != ""
  }

  /** The values that `??` replaces by its right operand. */
  predicate Nullish(v: Value)
  {
    v.Undefined? || v.Null?
  }

  /** The persisted record: key to value. */
  type Store = map<string, Value>

  const ViewingFileKey: string := "viewingFile"
  const XKey: string := "x"
  const YKey: string := "y"
  const WidthKey: string := "w"
  const HeightKey: string := "h"

  /** `store.get(key)`: a key never written reads as `undefined`. */
  function Get(store: Store, key: string): (r: Value)
    ensures key !in store ==> r == Undefined
    ensures key in store ==> r == store[key]
  {
    if key in store then store[key] else Undefined
  }

  /** `store.set(record)`: merges the record into the store; on a key both
      have, the record's value wins, and every other key keeps its value. */
  function Merge(store: Store, record: Store): (r: Store)
    ensures r.Keys == store.Keys + record.Keys
    ensures forall k :: k in record ==> Get(r, k) == record[k]
    ensures forall k :: k !in record ==> Get(r, k) == Get(store, k)
  {
    store + record
  }
}
