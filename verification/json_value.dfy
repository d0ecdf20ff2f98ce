/**
 * The loosely typed argument bag of a tool invocation: JSON decoded into Go's
 * `map[string]interface{}`. JSON numbers arrive as float64 and are modelled as
 * reals.
 */
module JsonValue {
  import opened Basics

  datatype Value =
    | VString(str: string)
    | VNumber(num: real)
    | VBool(b: bool)
    | VArray(elems: seq<Value>)
    | VObject(fields: map<string, Value>)
    | VNull

  type Args = map<string, Value>

  /** `args[key].(string)`: the string, when the key is present and holds one. */
  function StringArg(args: Args, key: string): Option<string> {
    if key in args && args[key].VString? then Some(args[key].str) else None
  }

  /** `args[key].(float64)` */
  function NumberArg(args: Args, key: string): Option<real> {
    if key in args && args[key].VNumber? then Some(args[key].num) else None
  }

  /** `args[key].(bool)` */
  function BoolArg(args: Args, key: string): Option<bool> {
    if key in args && args[key].VBool? then Some(args[key].b) else None
  }

  /** `args[key].([]interface{})` */
  function ArrayArg(args: Args, key: string): Option<seq<Value>> {
    if key in args && args[key].VArray? then Some(args[key].elems) else None
  }

  /** `args[key].(map[string]interface{})` */
  function ObjectArg(args: Args, key: string): Option<map<string, Value>> {
    if key in args && args[key].VObject? then Some(args[key].fields) else None
  }
}
