/** YAML node trees, and looking things up in them. */
module YamlTree {
  import opened Results

  /** A mapping's content alternates keys and values. */
  datatype Node =
    | Scalar(tag: string, text: string)
    | Mapping(tag: string, content: seq<Node>)
    | Sequence(tag: string, content: seq<Node>)
    | Alias(text: string)

  function Text(n: Node): string {
    if n.Scalar? || n.Alias? then n.text else ""
  }

  predicate WellFormed(n: Node) {
    match n
    case Mapping(_, content) => |content| % 2 == 0 && forall c :: c in content ==> WellFormed(c)
    case Sequence(_, content) => forall c :: c in content ==> WellFormed(c)
    case _ => true
  }

  /** The index of the key's value in a mapping's content, looking from `from` on. */
  function IndexFrom(content: seq<Node>, key: string, from: nat): (index: Option<nat>)
    requires from % 2 == 0
    ensures index.Some? ==> from < index.value < |content| && index.value % 2 == 1
    ensures index.Some? ==> Text(content[index.value - 1]) == key
    decreases |content| - from
  {
    if from + 1 >= |content| then None
    else if Text(content[from]) == key then Some(from + 1)
    else IndexFrom(content, key, from + 2)
  }

  function Index(n: Node, key: string): Option<nat> {
    if n.Mapping? then IndexFrom(n.content, key, 0) else None
  }

  function Find(n: Node, key: string): Option<Node> {
    if Index(n, key).Some? then Some(n.content[Index(n, key).value]) else None
  }

  function GetString(n: Node, key: string): string {
    var found := Find(n, key);
    if found.Some? && found.value.Scalar? then found.value.text else ""
  }

  method FindMapValue(n: Node, key: string) returns (found: Option<Node>)
    ensures found == Find(n, key)
  {
    if !n.Mapping? {
      return None;
    }
    var i := 0;
    while i + 1 < |n.content|
      invariant i % 2 == 0
      invariant IndexFrom(n.content, key, i) == Index(n, key)
    {
      if Text(n.content[i]) == key {
        return Some(n.content[i + 1]);
      }
      i := i + 2;
    }
    return None;
  }

  function StringNode(text: string): Node {
    Scalar("!!str", text)
  }

  // ---- Putting a value under a key ----

  /** Replaces the value under the key, or adds both at the end. */
  function Put(n: Node, key: string, value: Node): Node
    requires n.Mapping?
  {
    if Index(n, key).Some? then Mapping(n.tag, n.content[Index(n, key).value := value])
    else Mapping(n.tag, n.content + [StringNode(key), value])
  }

  lemma {:induction false} IndexAfterUpdate(content: seq<Node>, at: nat, value: Node, key: string, from: nat)
    requires from % 2 == 0 && at < |content| && at % 2 == 1
    ensures IndexFrom(content[at := value], key, from) == IndexFrom(content, key, from)
    decreases |content| - from
  {
    if from + 1 < |content| && Text(content[from]) != key {
      IndexAfterUpdate(content, at, value, key, from + 2);
    }
  }

  lemma {:induction false} IndexAfterAppend(content: seq<Node>, newKey: string, value: Node, key: string, from: nat)
    requires from % 2 == 0 && |content| % 2 == 0 && from <= |content|
    ensures IndexFrom(content + [StringNode(newKey), value], key, from) ==
            var found := IndexFrom(content, key, from);
            if found.Some? then found else if key == newKey then Some(|content| + 1) else None
    decreases |content| - from
  {
    if from < |content| && Text(content[from]) != key {
      IndexAfterAppend(content, newKey, value, key, from + 2);
    }
  }

  /** The value is found under its key, and under every other key what was there before. */
  lemma FindAfterPut(n: Node, key: string, value: Node, other: string)
    requires n.Mapping? && |n.content| % 2 == 0
    ensures Find(Put(n, key, value), other) == if other == key then Some(value) else Find(n, other)
  {
    if Index(n, key).Some? {
      IndexAfterUpdate(n.content, Index(n, key).value, value, other, 0);
    } else {
      IndexAfterAppend(n.content, key, value, other, 0);
    }
  }

  /** Putting back what is there changes nothing. */
  lemma PutFound(n: Node, key: string)
    requires Find(n, key).Some?
    ensures Put(n, key, Find(n, key).value) == n
  {
  }

  lemma PutIsWellFormed(n: Node, key: string, value: Node)
    requires n.Mapping? && WellFormed(n) && WellFormed(value)
    ensures WellFormed(Put(n, key, value)) && Put(n, key, value).Mapping?
  {
  }

  // ---- Named items of a sequence ----

  predicate IsNamed(item: Node, name: string) {
    item.Mapping? && Find(item, "name").Some? && Text(Find(item, "name").value) == name
  }

  /** The index of the first mapping with that name. */
  function NamedFrom(content: seq<Node>, name: string, from: nat): (index: Option<nat>)
    ensures index.Some? ==> from <= index.value < |content| && IsNamed(content[index.value], name)
    ensures index.None? ==> forall k :: from <= k < |content| ==> !IsNamed(content[k], name)
    ensures index.Some? ==> forall k :: from <= k < index.value ==> !IsNamed(content[k], name)
    decreases |content| - from
  {
    if from >= |content| then None
    else if IsNamed(content[from], name) then Some(from)
    else NamedFrom(content, name, from + 1)
  }

  function NamedIndex(n: Node, name: string): Option<nat> {
    if n.Sequence? then NamedFrom(n.content, name, 0) else None
  }

  function FindNamed(n: Node, name: string): Option<Node> {
    if NamedIndex(n, name).Some? then Some(n.content[NamedIndex(n, name).value]) else None
  }

  /** Replaces the first item with that name, or adds the item at the end. */
  function PutNamed(n: Node, name: string, item: Node): Node
    requires n.Sequence?
  {
    if NamedIndex(n, name).Some? then Sequence(n.tag, n.content[NamedIndex(n, name).value := item])
    else Sequence(n.tag, n.content + [item])
  }

  /** The index is what it has to be. */
  predicate FirstNamed(content: seq<Node>, name: string, index: Option<nat>) {
    match index
    case Some(at) => at < |content| && IsNamed(content[at], name) && forall k :: 0 <= k < at ==> !IsNamed(content[k], name)
    case None => forall k :: 0 <= k < |content| ==> !IsNamed(content[k], name)
  }

  lemma FirstNamedIsIndex(content: seq<Node>, name: string, index: Option<nat>)
    requires FirstNamed(content, name, index)
    ensures NamedFrom(content, name, 0) == index
  {
  }

  lemma FindNamedAfterPut(n: Node, name: string, item: Node, other: string)
    requires n.Sequence? && IsNamed(item, name)
    ensures FindNamed(PutNamed(n, name, item), other) == if other == name then Some(item) else FindNamed(n, other)
  {
    assert IsNamed(item, other) <==> other == name;
    hide IsNamed, NamedFrom;
    var at := if NamedIndex(n, name).Some? then NamedIndex(n, name).value else |n.content|;
    FirstNamedIsIndex(PutNamed(n, name, item).content, other, if other == name then Some(at) else NamedIndex(n, other));
  }

  lemma PutNamedFound(n: Node, name: string)
    requires FindNamed(n, name).Some?
    ensures PutNamed(n, name, FindNamed(n, name).value) == n
  {
  }

  // ---- Paths ----

  datatype Way = Key(key: string) | Named(name: string)
  type Path = seq<Way>

  function Follow(n: Node, way: Way): Option<Node> {
    if way.Key? then Find(n, way.key) else FindNamed(n, way.name)
  }

  function Lookup(n: Node, path: Path): Option<Node> {
    if path == [] then Some(n)
    else
      var next := Follow(n, path[0]);
      if next.Some? then Lookup(next.value, path[1..]) else None
  }

  predicate Apart(p: Path, q: Path) {
    !(p <= q) && !(q <= p)
  }
}
