/** The node type of the YAML library the loader consumes (`yaml_rust::Yaml`),
    after the library has parsed the text and replaced every alias by a copy
    of the node it refers to. Only the accessors the loader uses are given. */
module YamlTree {
  import opened Outcomes

  datatype Yaml =
    | Real(repr: string)               // a float, kept as its text
    | Integer(num: int)                // an i64 in the library
    | Str(str: string)
    | Boolean(truth: bool)
    | Array(items: seq<Yaml>)
    | Hash(entries: map<Yaml, Yaml>)   // an insertion-ordered map in the library; keys are unique
    | Alias(anchor: nat)
    | Null
    | BadValue

  /** `into_string` and `as_str`: only a string node has text. */
  function AsString(y: Yaml): (r: Option<string>)
    ensures r.Some? <==> y.Str?
    ensures r.Some? ==> r.value == y.str
  {
    if y.Str? then Some(y.str) else None
  }

  /** `into_vec` and `as_vec`: only an array node has elements. */
  function AsVec(y: Yaml): (r: Option<seq<Yaml>>)
    ensures r.Some? <==> y.Array?
    ensures r.Some? ==> r.value == y.items
  {
    if y.Array? then Some(y.items) else None
  }

  /** `into_hash`: only a hash node has entries. */
  function AsHash(y: Yaml): (r: Option<map<Yaml, Yaml>>)
    ensures r.Some? <==> y.Hash?
    ensures r.Some? ==> r.value == y.entries
  {
    if y.Hash? then Some(y.entries) else None
  }

  /** `Hash::remove` on a hash the caller owns: the value stored under the key,
      if any, and the hash without that key. */
  function Remove(h: map<Yaml, Yaml>, key: Yaml): (r: (Option<Yaml>, map<Yaml, Yaml>))
    ensures r.0.Some? <==> key in h
    ensures r.0.Some? ==> r.0.value == h[key]
    ensures key !in r.1 && forall k :: k in h && k != key ==> k in r.1 && r.1[k] == h[k]
  {
    (if key in h then Some(h[key]) else None, h - {key})
  }
}
