/** JSON values as the Notion client sends and receives them, and the accessors
    the model uses to read a built payload back. */
module Json {

  datatype Option<+T> = None | Some(value: T) {

    predicate IsFailure() {
      None?
    }

    function PropagateFailure<U>(): Option<U>
      requires None?
    {
      None
    }

    function Extract(): T
      requires Some?
    {
      value
    }

    /** `d.get(key, default)` once the lookup has been made. */
    function GetOr(default: T): T {
      match this
      case Some(v) => v
      case None => default
    }
  }

  /** A JSON value. Objects are string-keyed maps, as Python dicts are. */
  datatype Value =
    | Bool(b: bool)
    | Str(s: string)
    | Arr(items: seq<Value>)
    | Obj(fields: map<string, Value>)

  /** `v[key]` when `v` is an object holding `key`. */
  function Field(v: Value, key: string): Option<Value> {
    if v.Obj? && key in v.fields then Some(v.fields[key]) else None
  }

  /** The element of a one-element array. */
  function OnlyItem(v: Value): Option<Value> {
    if v.Arr? && |v.items| == 1 then Some(v.items[0]) else None
  }

  function Text(v: Value): Option<string> {
    if v.Str? then Some(v.s) else None
  }
}
