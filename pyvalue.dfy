/** Python values as the core sees them, and the library functions on them
    that the model leaves uninterpreted. */
module PyValue {
  import opened Wrappers

  /** A value of unknown shape: a `str`, a `dict`, a `list`, or anything else
      (a number, a boolean, `None`), kept as the text Python's `str()` gives it. */
  datatype Value =
    | Str(s: string)
    | Obj(fields: map<string, Value>)
    | Arr(items: seq<Value>)
    | Other(text: string)

  /** The library calls of the core, each an arbitrary total function, so that
      every fact proved holds whatever they compute:
      - `loads`: `json.loads`, `None` when it raises `JSONDecodeError`;
      - `dumps`: `json.dumps(v)` with the default arguments;
      - `dumpsPretty`: `json.dumps(v, ensure_ascii=False, indent=4)`;
      - `show`: `str(v)` of a `dict` or `list`;
      - `sanitize`: `s.encode("utf-8", "ignore").decode("utf-8")`. */
  datatype Lib = Lib(
    loads: string -> Option<Value>,
    dumps: Value -> string,
    dumpsPretty: Value -> string,
    show: Value -> string,
    sanitize: string -> string)

  /** `d.get(key, default)`. */
  function Get(d: map<string, Value>, key: string, default: Value): Value {
    if key in d then d[key] else default
  }

  /** `str(v)`, which is also what an f-string placeholder renders. */
  function Display(lib: Lib, v: Value): string {
    match v
    case Str(s) => s
    case Other(text) => text
    case Obj(_) => lib.show(v)
    case Arr(_) => lib.show(v)
  }
}
