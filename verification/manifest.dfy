/** The object trees handed to the YAML serialiser: strings, integers, byte
    strings, string-keyed mappings and lists, plus path lookup into them. */
module Manifest {
  import opened Wrappers

  type byte = bv8

  datatype Node =
    | Str(s: string)
    | Int(i: int)
    | Bytes(b: seq<byte>)
    | Mapping(fields: map<string, Node>)
    | List(items: seq<Node>)

  /** One step of a path: a mapping key or a list position. */
  datatype Step = Key(k: string) | Index(i: nat)

  /** The node reached from `n` by following `path`, if every step exists. */
  function At(n: Node, path: seq<Step>): Option<Node>
    decreases |path|
  {
    if |path| == 0 then Some(n)
    else match path[0]
      case Key(k) =>
        if n.Mapping? && k in n.fields then At(n.fields[k], path[1..]) else None
      case Index(i) =>
        if n.List? && i < |n.items| then At(n.items[i], path[1..]) else None
  }

  /** Following `p + q` is following `p` and then `q` from where it ends. */
  lemma {:induction false} AtAppend(n: Node, p: seq<Step>, q: seq<Step>)
    ensures At(n, p + q) == if At(n, p).Some? then At(At(n, p).value, q) else None
    decreases |p|
  {
    if |p| == 0 {
      assert p + q == q;
    } else {
      assert (p + q)[1..] == p[1..] + q;
      match p[0]
      case Key(k) =>
        if n.Mapping? && k in n.fields {
          AtAppend(n.fields[k], p[1..], q);
        }
      case Index(i) =>
        if n.List? && i < |n.items| {
          AtAppend(n.items[i], p[1..], q);
        }
    }
  }

  /** Every entry of mapping `sub` appears, with the same value, in `sup`:
      the way a Kubernetes label selector matches a label set. */
  predicate SubMap(sub: map<string, Node>, sup: map<string, Node>)
  {
    forall k :: k in sub ==> k in sup && sup[k] == sub[k]
  }
}
