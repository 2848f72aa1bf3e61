/**
 * A parsed YAML document (what `yaml.safe_load` returns) and the Python
 * operations the pipeline applies to it: `key in node`, `node[key]`,
 * `float(node)` and `int(node)`, each with the exception Python raises.
 */
module Config {
  import opened Base

  datatype Node =
    | Null
    | Bool(b: bool)
    | Int(i: int)
    | Real(r: real)
    | Str(s: string)
    | Items(items: seq<Node>)
    | Section(fields: map<string, Node>)

  /** `needle` occurs as a contiguous piece of `hay` (Python's `needle in hay` on str). */
  predicate Occurs(needle: string, hay: string)
    decreases |hay|
  {
    |needle| <= |hay| && (hay[..|needle|] == needle || Occurs(needle, hay[1..]))
  }

  /**
   * `key in node`: key membership on a mapping, element membership on a
   * list, substring search on a string; a TypeError on anything else.
   */
  function HasKey(node: Node, key: string): (r: Result<bool>)
    ensures node.Section? ==> r == Ok(key in node.fields)
    ensures node.Items? ==> r == Ok(Str(key) in node.items)
    ensures node.Str? ==> r == Ok(Occurs(key, node.s))
    ensures r.Err? <==> !(node.Section? || node.Items? || node.Str?)
  {
    match node
    case Section(fields) => Ok(key in fields)
    case Items(items) => Ok(Str(key) in items)
    case Str(s) => Ok(Occurs(key, s))
    case _ => Err(TypeError)
  }

  /** `node[key]`: a KeyError for a missing key of a mapping, a TypeError for a non-mapping. */
  function Get(node: Node, key: string): (r: Result<Node>)
    ensures r.Ok? <==> node.Section? && key in node.fields
    ensures r.Ok? ==> r.value == node.fields[key]
    ensures node.Section? && key !in node.fields ==> r == Err(KeyError(key))
    ensures !node.Section? ==> r == Err(TypeError)
  {
    match node
    case Section(fields) => if key in fields then Ok(fields[key]) else Err(KeyError(key))
    case _ => Err(TypeError)
  }

  /** `float(node)` on a YAML scalar. */
  function AsReal(node: Node): (r: Result<real>)
    ensures node.Real? ==> r == Ok(node.r)
    ensures node.Int? ==> r == Ok(node.i as real)
    ensures node.Bool? ==> r == Ok(if node.b then 1.0 else 0.0)
    ensures node.Str? ==> r.Err? && r.error.ValueError?
    ensures node.Null? || node.Items? || node.Section? ==> r == Err(TypeError)
    ensures r.Ok? <==> node.Real? || node.Int? || node.Bool?
  {
    match node
    case Real(x) => Ok(x)
    case Int(i) => Ok(i as real)
    case Bool(b) => Ok(if b then 1.0 else 0.0)
    case Str(_) => Err(ValueError("could not convert string to float"))
    case _ => Err(TypeError)
  }

  /** `int(node)` on a YAML scalar: floats truncate toward zero, text is parsed. */
  function AsInt(node: Node): (r: Result<int>)
    ensures node.Int? ==> r == Ok(node.i)
    ensures node.Real? ==> r == Ok(Trunc(node.r))
    ensures node.Str? ==> r == ParseInt(node.s)
    ensures node.Bool? ==> r == Ok(if node.b then 1 else 0)
    ensures r.Ok? ==> node.Int? || node.Real? || node.Bool? || node.Str?
  {
    match node
    case Int(i) => Ok(i)
    case Real(x) => Ok(Trunc(x))
    case Bool(b) => Ok(if b then 1 else 0)
    case Str(s) => ParseInt(s)
    case _ => Err(TypeError)
  }

  /** A YAML value used as text (a path or an identifier). */
  function AsText(node: Node): (r: Result<string>)
    ensures r.Ok? <==> node.Str?
    ensures r.Ok? ==> r.value == node.s
  {
    match node
    case Str(s) => Ok(s)
    case _ => Err(TypeError)
  }
}
