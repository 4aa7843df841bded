/**
 * What the entities take from the package's helper modules, which are not part
 * of this model: the field parsers, the `OperationMode` enumeration, Python's
 * `int()` and `str()` conversions and the quality-level table. They enter as
 * the fields of one `Externals` value, so every property proved below holds
 * whatever those helpers do.
 */
module Common {
  import opened Wrappers
  import opened Json

  /** A member of the `OperationMode` integer enumeration, by its code. */
  datatype OperationMode = OperationMode(code: int)

  /** The Python exceptions the merge code can raise. */
  datatype PyError =
    | AttributeError  // `.get` on a value that is not a mapping
    | TypeError       // iterating (or taking `len` of) a bool or a number; `in` on a bool or number
    | ValueError      // `OperationMode(v)` of a value that is no mode
    | UnorderedIteration  // iterating a non-empty mapping, whose key order the model does not keep

  /** How a call into an entity ended: normally, or by an exception that propagates to the caller. */
  datatype Status = Done | Raised(error: PyError)

  datatype Externals = Externals(
    parseBool: JsonValue -> Option<bool>,
    parseInt: JsonValue -> Option<int>,
    parseFloat: JsonValue -> Option<real>,
    parseStr: JsonValue -> Option<string>,
    operationMode: JsonValue -> Option<OperationMode>,  // `OperationMode(v)`; `None` where it raises
    toInt: JsonValue -> Option<int>,                    // Python `int(v)`; `None` where it raises
    toStr: JsonValue -> string,                         // Python `str(v)`
    qualityLevels: map<string, string>)                 // `API_AQ_QUALITY_LEVELS`
  {
    /** The parsers' documented tolerance of a missing value: `None` in, `None` out. */
    predicate Tolerant()
    {
      parseBool(JNull).None? && parseInt(JNull).None? && parseFloat(JNull).None? && parseStr(JNull).None?
    }
  }
}
