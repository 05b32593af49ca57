/** Caddy's per-request placeholder replacer, reduced to its key/value store. */
module Repl {
  import opened Base
  import Strconv

  /** The values the handler stores: strings and int64 sizes. */
  datatype Value = Str(s: string) | Int(i: int64)

  /** caddy.ToString: strings as they are, integers in decimal. */
  function ToString(v: Value): string
  {
    match v
    case Str(s) => s
    case Int(i) => Strconv.FormatInt(i)
  }

  class Replacer {
    var vars: map<string, Value>

    constructor (vars0: map<string, Value>)
      ensures vars == vars0
    {
      vars := vars0;
    }

    /** repl.Set(key, value). */
    method Set(key: string, v: Value)
      modifies this
      ensures vars == old(vars)[key := v]
    {
      vars := vars[key := v];
    }

    /** repl.GetString(key): the value as text, and whether the key is present. */
    method GetString(key: string) returns (s: string, found: bool)
      ensures found <==> key in vars
      ensures s == if found then ToString(vars[key]) else ""
    {
      found := key in vars;
      s := if found then ToString(vars[key]) else "";
    }
  }
}
