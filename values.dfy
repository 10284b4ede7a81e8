/**
  Python values as both packages see them: the settings of `filemail/config.py`
  and the JSON data of `pyfilemail/users.py`.
 */
module Values {

  /** Python `None`, a string, an integer or a boolean. */
  datatype Value = Null | Text(s: string) | Number(n: int) | Flag(b: bool) {
    /** Python truthiness of the value. */
    predicate Truthy()
    {
      match this
      case Null => false
      case Text(s) => s != ""
      case Number(n) => n != 0
      case Flag(b) => b
    }
  }

  /** `dict.get`: the stored value, or `None` when the key is absent. */
  function Lookup(m: map<string, Value>, key: string): Value
  {
    if key in m then m[key] else Null
  }
}
