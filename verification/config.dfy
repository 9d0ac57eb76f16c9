/** The loosely typed configuration map a plan is read from: Java's
    `Map<String, Object>`, whose values are strings, lists of strings,
    string-to-string maps, null, or anything else. */
module Config {

  /** One value of the configuration map, as seen through the casts the plan
      parser applies to it. `Null` is Java's null; `Other` is any object that is
      neither a String, a List nor a Map (an Integer, say). */
  datatype Value =
    | Null
    | Str(text: string)
    | StrList(items: seq<string>)
    | StrMap(entries: map<string, string>)
    | Other

  type ConfigMap = map<string, Value>

  /** Java's `Map.get`: an absent key reads as null. */
  function Lookup(m: ConfigMap, key: string): Value
  {
    if key in m then m[key] else Null
  }

  /** `m` cut down to the keys in `keys`. */
  function Restrict(m: ConfigMap, keys: set<string>): ConfigMap
  {
    map k | k in m && k in keys :: m[k]
  }
}
