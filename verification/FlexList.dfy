// The two document formats of a list of named items: a sequence, and a mapping whose keys name the
// items that do not name themselves.
module FlexList {
  import opened Prelude

  datatype Node = Scalar(nullTag: bool, value: string) | SequenceNode(content: seq<Node>)
                | MappingNode(content: seq<Node>)

  // What the configuration's agents, models and servers have in common: a name and the rest.
  datatype Item = Item(name: string, rest: string)

  type Decoder = Node -> Result<Item, string>

  function SetNameFromKey(item: Item, key: string): Item {
    if item.name == "" then item.(name := key) else item
  }

  function Value(node: Node): string {
    if node.Scalar? then node.value else ""
  }

  function DecodeAll(decode: Decoder, nodes: seq<Node>): Result<seq<Item>, string> {
    if nodes == [] then Ok([])
    else
      match DecodeAll(decode, nodes[..|nodes| - 1])
      case Err(e) => Err(e)
      case Ok(items) =>
        match decode(nodes[|nodes| - 1])
        case Err(e) => Err(e)
        case Ok(item) => Ok(items + [item])
  }

  // The items of the first n pairs, up to the first that cannot be decoded.
  function FromPairs(decode: Decoder, content: seq<Node>, n: nat): (seq<Item>, bool)
    requires 2 * n <= |content|
  {
    if n == 0 then ([], true)
    else
      var (items, ok) := FromPairs(decode, content, n - 1);
      if !ok then (items, false)
      else
        match decode(content[2 * n - 1])
        case Err(_) => (items, false)
        case Ok(item) => (items + [SetNameFromKey(item, Value(content[2 * n - 2]))], true)
  }

  class List {
    var items: seq<Item>

    constructor ()
      ensures items == []
    {
      items := [];
    }

    // Items decoded before a failure stay in the list.
    method DecodeMap(decode: Decoder, content: seq<Node>) returns (err: Option<string>)
      modifies this
      ensures items == old(items) + FromPairs(decode, content, |content| / 2).0
      ensures err == None <==> FromPairs(decode, content, |content| / 2).1
    {
      var i := 0;
      while i + 1 < |content|
        invariant 0 <= i <= |content| && i % 2 == 0
        invariant FromPairs(decode, content, i / 2).1
        invariant items == old(items) + FromPairs(decode, content, i / 2).0
      {
        match decode(content[i + 1]) {
          case Err(e) =>
            StopsAt(decode, content, i / 2, |content| / 2);
            return Some(e);
          case Ok(item) =>
            items := items + [SetNameFromKey(item, Value(content[i]))];
        }
        i := i + 2;
      }
      return None;
    }

    method Unmarshal(decode: Decoder, node: Node) returns (err: Option<string>)
      modifies this
      ensures node.SequenceNode? && DecodeAll(decode, node.content).Ok? ==>
                err == None && items == DecodeAll(decode, node.content).value
      ensures node.SequenceNode? && DecodeAll(decode, node.content).Err? ==> err.Some?
      ensures node.MappingNode? ==>
                items == old(items) + FromPairs(decode, node.content, |node.content| / 2).0
                && (err == None <==> FromPairs(decode, node.content, |node.content| / 2).1)
      ensures node.Scalar? ==> items == old(items) && (err == None <==> node.nullTag || node.value == "")
    {
      match node {
        case SequenceNode(content) =>
          match DecodeAll(decode, content) {
            case Err(e) => return Some(e);
            case Ok(decoded) => items := decoded;
          }
        case MappingNode(content) =>
          err := DecodeMap(decode, content);
          return;
        case Scalar(nullTag, value) =>
          if !nullTag && value != "" { return Some("expected sequence or mapping"); }
      }
      return None;
    }
  }

  lemma {:induction false} StopsAt(decode: Decoder, content: seq<Node>, n: nat, m: nat)
    requires n < m && 2 * m <= |content|
    requires FromPairs(decode, content, n).1 && decode(content[2 * n + 1]).Err?
    ensures FromPairs(decode, content, m) == (FromPairs(decode, content, n).0, false)
    decreases m - n
  {
    if n + 1 < m {
      StopsAt(decode, content, n, m - 1);
    }
  }

  // ---- both formats say the same ----

  function SequenceForm(items: seq<Item>, encode: Item -> Node): seq<Node> {
    if items == [] then [] else SequenceForm(items[..|items| - 1], encode) + [encode(items[|items| - 1])]
  }

  // The name moves into the key.
  function MappingForm(items: seq<Item>, encode: Item -> Node): (content: seq<Node>)
    ensures |content| == 2 * |items|
  {
    if items == [] then []
    else
      var last := items[|items| - 1];
      MappingForm(items[..|items| - 1], encode) + [Scalar(false, last.name), encode(last.(name := ""))]
  }

  ghost predicate Inverse(decode: Decoder, encode: Item -> Node) {
    forall item :: decode(encode(item)) == Ok(item)
  }

  lemma {:induction false} PairsOfPrefix(decode: Decoder, a: seq<Node>, b: seq<Node>, n: nat)
    requires 2 * n <= |a|
    ensures FromPairs(decode, a + b, n) == FromPairs(decode, a, n)
  {
    if n > 0 { PairsOfPrefix(decode, a, b, n - 1); }
  }

  lemma DecodeSnoc(decode: Decoder, nodes: seq<Node>, node: Node)
    ensures DecodeAll(decode, nodes + [node]) ==
            match DecodeAll(decode, nodes)
            case Err(e) => Err(e)
            case Ok(items) => match decode(node) case Err(e) => Err(e) case Ok(item) => Ok(items + [item])
  {
    assert (nodes + [node])[..|nodes|] == nodes;
  }

  lemma {:induction false} SequenceDecodes(items: seq<Item>, decode: Decoder, encode: Item -> Node)
    requires Inverse(decode, encode)
    ensures DecodeAll(decode, SequenceForm(items, encode)) == Ok(items)
  {
    if items != [] {
      var n := |items| - 1;
      SequenceDecodes(items[..n], decode, encode);
      DecodeSnoc(decode, SequenceForm(items[..n], encode), encode(items[n]));
      assert items[..n] + [items[n]] == items;
    }
  }

  lemma PairSnoc(decode: Decoder, content: seq<Node>, key: Node, node: Node, n: nat)
    requires |content| == 2 * n && FromPairs(decode, content, n).1 && decode(node).Ok?
    ensures FromPairs(decode, content + [key, node], n + 1)
         == (FromPairs(decode, content, n).0 + [SetNameFromKey(decode(node).value, Value(key))], true)
  {
    PairsOfPrefix(decode, content, [key, node], n);
    var all := content + [key, node];
    assert all[2 * n] == key && all[2 * n + 1] == node;
  }

  lemma {:induction false} MappingDecodes(items: seq<Item>, decode: Decoder, encode: Item -> Node)
    requires Inverse(decode, encode)
    ensures FromPairs(decode, MappingForm(items, encode), |items|) == (items, true)
  {
    if items != [] {
      var n := |items| - 1;
      var last := items[n];
      MappingDecodes(items[..n], decode, encode);
      PairSnoc(decode, MappingForm(items[..n], encode), Scalar(false, last.name), encode(last.(name := "")), n);
      assert items[..n] + [last] == items;
    }
  }

  // Of a mapping that can be decoded: every item is what its node decodes to, but that one without a
  // name of its own is named by its key.
  lemma {:induction false} NamedByKeys(decode: Decoder, content: seq<Node>, n: nat, i: nat)
    requires i < n && 2 * n <= |content| && FromPairs(decode, content, n).1
    ensures |FromPairs(decode, content, n).0| == n && decode(content[2 * i + 1]).Ok?
    ensures var item, own := FromPairs(decode, content, n).0[i], decode(content[2 * i + 1]).value;
            item.rest == own.rest && item.name == if own.name != "" then own.name else Value(content[2 * i])
    decreases n
  {
    if i < n - 1 {
      NamedByKeys(decode, content, n - 1, i);
    } else if n > 1 {
      NamedByKeys(decode, content, n - 1, n - 2);
    }
  }

  // A list written as a mapping from names decodes to the list it decodes to when written as a
  // sequence: the same items with the same names in the same order, repeated names included.
  lemma FormatsAgree(items: seq<Item>, decode: Decoder, encode: Item -> Node)
    requires Inverse(decode, encode)
    ensures DecodeAll(decode, SequenceForm(items, encode)) == Ok(items)
    ensures FromPairs(decode, MappingForm(items, encode), |items|) == (items, true)
  {
    SequenceDecodes(items, decode, encode);
    MappingDecodes(items, decode, encode);
  }
}
