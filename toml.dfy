/**
 * The TOML values that a parameter's syntax definition carries as its open
 * configuration map, and the accessors the validators use on it
 * (`config.get(key).and_then(|v| v.as_bool())` and friends).
 */
module Toml {
  import opened Wrappers
  import opened Text

  /** `toml::Value`. Floats and datetimes are kept as their text: no validator reads them. */
  datatype Value =
    | Str(text: String)
    | Integer(number: I64)
    | Float(repr: String)
    | Boolean(flag: bool)
    | Datetime(repr: String)
    | Array(items: seq<Value>)
    | Table(entries: map<String, Value>)

  /** The configuration map of a syntax definition. */
  type Config = map<String, Value>

  /** `config.get(key).and_then(|v| v.as_bool())` */
  function GetBool(config: Config, key: String): (r: Option<bool>)
    ensures r.Some? <==> key in config && config[key].Boolean?
    ensures r.Some? ==> config[key] == Boolean(r.value)
  {
    if key in config && config[key].Boolean? then Some(config[key].flag) else None
  }

  /** `config.get(key).and_then(|v| v.as_bool()).unwrap_or(false)` */
  predicate FlagSet(config: Config, key: String)
  {
    GetBool(config, key) == Some(true)
  }

  /** `config.get(key).and_then(|v| v.as_integer())` */
  function GetInteger(config: Config, key: String): (r: Option<I64>)
    ensures r.Some? <==> key in config && config[key].Integer?
    ensures r.Some? ==> config[key] == Integer(r.value)
  {
    if key in config && config[key].Integer? then Some(config[key].number) else None
  }

  /** `config.get(key).and_then(|v| v.as_str())` */
  function GetStr(config: Config, key: String): (r: Option<String>)
    ensures r.Some? <==> key in config && config[key].Str?
    ensures r.Some? ==> config[key] == Str(r.value)
  {
    if key in config && config[key].Str? then Some(config[key].text) else None
  }

  /** `config.get(key).and_then(|v| v.as_array())` */
  function GetArray(config: Config, key: String): (r: Option<seq<Value>>)
    ensures r.Some? <==> key in config && config[key].Array?
    ensures r.Some? ==> config[key] == Array(r.value)
  {
    if key in config && config[key].Array? then Some(config[key].items) else None
  }

  /** `items.iter().filter_map(|v| v.as_str())`: the string items, in order. */
  function StrItems(items: seq<Value>): (r: seq<String>)
    ensures |r| <= |items|
    ensures forall s :: s in r <==> Str(s) in items
  {
    if items == [] then []
    else
      var rest := StrItems(items[1..]);
      assert items == [items[0]] + items[1..];
      if items[0].Str? then [items[0].text] + rest else rest
  }

  /** The string items of a concatenation are those of each part, in order. */
  lemma {:induction false} StrItemsConcat(a: seq<Value>, b: seq<Value>)
    ensures StrItems(a + b) == StrItems(a) + StrItems(b)
    decreases |a|
  {
    if a == [] {
      assert a + b == b;
    } else {
      StrItemsConcat(a[1..], b);
      assert (a + b)[0] == a[0];
      assert (a + b)[1..] == a[1..] + b;
    }
  }

  /** One item contributes its text when it is a string, and nothing otherwise. */
  lemma StrItemsSingle(v: Value)
    ensures StrItems([v]) == if v.Str? then [v.text] else []
  {
    assert [v][1..] == [];
  }

  /** Each string occurs among the string items as often as it occurs as an item. */
  lemma {:induction false} StrItemsCounts(items: seq<Value>, s: String)
    ensures multiset(StrItems(items))[s] == multiset(items)[Str(s)]
    decreases |items|
  {
    if items != [] {
      StrItemsCounts(items[1..], s);
      assert items == [items[0]] + items[1..];
      assert multiset(items) == multiset{items[0]} + multiset(items[1..]);
    }
  }
}
