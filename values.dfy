/**
 * The JavaScript values that the conversion utilities move around.
 *
 * A record (a plain JS object with string keys) is a `map<string, Value>`;
 * reading a key that is not there yields `undefined`, as in JS. Dates are
 * represented by their time value in milliseconds since the epoch; a JS
 * `Date` whose time value is NaN is `InvalidDate`.
 */
module Values {

  datatype Option<T> = None | Some(value: T)

  datatype Value =
    | Undefined
    | Null
    | Bool(b: bool)
    | Num(n: int)
    | Str(s: string)
    | Arr(items: seq<Value>)
    | Obj(fields: map<string, Value>)
    /** A Firestore timestamp; its `toDate()` yields the date of the same instant. */
    | Timestamp(ms: int)
    /** A JS `Date` with a valid time value. */
    | Date(ms: int)
    /** A JS `Date` whose time value is NaN ("Invalid Date"). */
    | InvalidDate

  type Record = map<string, Value>

  /** The errors the converters and the defaulting merger throw. */
  datatype Error =
    /** useDefaults: `"<key> is required"`. */
    | RequiredMissing(key: string)
    /** fromSnapshot: `"Snapshot data is undefined"`. */
    | SnapshotDataUndefined
    /** A JS TypeError: a property read on null/undefined, or a call of something that is not a function. */
    | TypeError

  datatype Result<T> = Ok(value: T) | Err(error: Error)

  /** JavaScript truthiness: `undefined`, `null`, `false`, `0` and `''` are falsy; every object is truthy. */
  predicate Truthy(v: Value) {
    match v
    case Undefined => false
    case Null => false
    case Bool(b) => b
    case Num(n) => n != 0
    case Str(s) => s != ""
    case _ => true
  }

  /** `v === null || v === undefined` */
  predicate Nullish(v: Value) {
    v.Undefined? || v.Null?
  }

  /** `r[k]`: the value stored under `k`, or `undefined` when `k` is not a key of `r`. */
  function Get(r: Record, k: string): (v: Value) {
    if k in r then r[k] else Undefined
  }

  /** The keys every converted entity carries from the store or the wire. */
  const SystemFields: set<string> := {"id", "createdAt", "updatedAt"}
}
