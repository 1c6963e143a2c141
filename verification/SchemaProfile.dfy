/** The schema profile: a walk over a schema that follows its references, with a path set and a depth guard. */
module SchemaProfile {
  import opened Wire
  import Pointer

  /** A parsed schema; keys of an object are unique. */
  datatype Node =
    | Bool(b: bool)
    | String(s: string)
    | List(items: seq<Node>)
    | Object(fields: map<string, Node>)
    | Other

  const MAX_DEPTH: nat := 64

  const KEYWORDS: set<string> := {
    "$schema", "$id", "$defs", "$ref", "type", "properties", "required", "additionalProperties", "enum", "const",
        "minimum",
    "maximum", "exclusiveMinimum", "exclusiveMaximum", "minLength", "maxLength", "minItems", "maxItems", "items",
    "minProperties", "maxProperties", "allOf", "anyOf", "oneOf", "title", "description", "default", "examples",
    "deprecated", "readOnly", "writeOnly", "format", "pattern"
  }

  /** What may stand beside a reference in draft 07. */
  const BESIDE_REF: set<string> := {
    "$ref", "title", "description", "default", "examples", "deprecated", "readOnly", "writeOnly", "format"
  }

  const DRAFT_2020 := "https://json-schema.org/draft/2020-12/schema"
  const DRAFT_07 := "http://json-schema.org/draft-07/schema#"

  const PATTERNS: set<string> := {
    "^#([A-Fa-f0-9]{6}|[A-Fa-f0-9]{3})$", "\\S", "^(?=.*[0-9])[+]?[0-9()\\-\\s.]+$", "^[a-f0-9]{24}$",
        "^[0-9a-fA-F]{24}$", "\\D"
  }

  function Field(n: Node, key: string): Option<Node> {
    if n.Object? && key in n.fields then Some(n.fields[key]) else None
  }

  /** The two cores walk alike, but in Rust a reference may also step into a list. */
  datatype Core = Go | Rust

  function Decimal(digits: string): Option<nat> {
    if digits == [] then Some(0)
    else
      var c := digits[|digits| - 1];
      match Decimal(digits[..|digits| - 1])
      case Some(n) => if '0' <= c <= '9' then Some(10 * n + (c as int - '0' as int)) else None
      case None => None
  }

  /** A list position: digits without a needless leading zero. */
  function Index(part: string): Option<nat> {
    if part == "" || (part[0] == '0' && |part| != 1) then None else Decimal(part)
  }

  /** What one part of a reference leads to. */
  function Part(core: Core, n: Node, part: string): Option<Node> {
    if core == Rust && n.List? then
      match Index(Pointer.Unescape(part))
      case Some(i) => if i < |n.items| then Some(n.items[i]) else None
      case None => None
    else Field(n, Pointer.Unescape(part))
  }

  /** The node that the parts of a reference lead to. */
  function Descend(core: Core, n: Node, parts: seq<string>): Option<Node> {
    if parts == [] then Some(n)
    else match Part(core, n, parts[0])
      case Some(next) => Descend(core, next, parts[1..])
      case None => None
  }

  predicate IsLocal(ref: string) { |ref| >= 2 && ref[..2] == "#/" }

  function Resolve(core: Core, root: Node, ref: string): Option<Node>
    requires IsLocal(ref)
  {
    Descend(core, root, Pointer.Split(ref[2..], '/'))
  }

  /** In draft 07 a reference stands alone but for annotations. */
  predicate SiblingsOk(root: Node, fields: map<string, Node>) {
    Field(root, "$schema") == Some(String(DRAFT_07)) && "$ref" in fields ==> fields.Keys <= BESIDE_REF
  }

  /** What the walk accepts at a node. */
  predicate Accepts(core: Core, root: Node, n: Node, seen: set<string>, depth: nat)
    decreases MAX_DEPTH + 1 - depth, 1
  {
    depth <= MAX_DEPTH
    && (n.Bool?
        || (n.Object? && SiblingsOk(root, n.fields) && forall k <- n.fields ::
            KeyAccepted(core, root, k, n.fields[k], seen, depth)))
  }

  predicate KeyAccepted(core: Core, root: Node, k: string, value: Node, seen: set<string>, depth: nat)
    requires depth <= MAX_DEPTH
    decreases MAX_DEPTH + 1 - depth, 0
  {
    k in KEYWORDS
    && (k == "pattern" ==> value.String? && value.s in PATTERNS)
    && (k == "$schema" ==> value == String(DRAFT_2020) || value == String(DRAFT_07))
    && (k == "$ref" ==>
          && value.String? && IsLocal(value.s) && value.s !in seen
          && Resolve(core, root, value.s).Some?
             && Accepts(core, root, Resolve(core, root, value.s).value, seen + {value.s}, depth + 1))
    && (k == "properties" || k == "$defs" ==>
          value.Object? && forall c <- value.fields :: Accepts(core, root, value.fields[c], seen, depth + 1))
    && (k == "items" || k == "additionalProperties" ==> Accepts(core, root, value, seen, depth + 1))
    && (k == "allOf" || k == "anyOf" || k == "oneOf" ==>
          value.List? && forall i :: 0 <= i < |value.items| ==> Accepts(core, root, value.items[i], seen, depth + 1))
  }

  /* ----- The walk ----- */

  method Walk(core: Core, root: Node, n: Node, seen: set<string>, depth: nat) returns (ok: bool)
    ensures ok <==> Accepts(core, root, n, seen, depth)
    decreases MAX_DEPTH + 1 - depth, 1
  {
    if depth > MAX_DEPTH { return false; }
    if n.Bool? { return true; }
    if !n.Object? { return false; }
    var fields := n.fields;
    if Field(root, "$schema") == Some(String(DRAFT_07)) && "$ref" in fields {
      var odd := OutsideOf(fields.Keys, BESIDE_REF);
      if odd { return false; }
    }
    var rest := fields.Keys;
    while rest != {}
      invariant rest <= fields.Keys
      invariant forall k <- fields :: k !in rest ==> KeyAccepted(core, root, k, fields[k], seen, depth)
      decreases |rest|
    {
      var k :| k in rest;
      var good := WalkKey(core, root, k, fields[k], seen, depth);
      if !good { return false; }
      rest := rest - {k};
    }
    ok := true;
  }

  method OutsideOf(keys: set<string>, allowed: set<string>) returns (odd: bool)
    ensures odd <==> !(keys <= allowed)
  {
    var rest := keys;
    while rest != {}
      invariant rest <= keys && keys - rest <= allowed
      decreases |rest|
    {
      var key :| key in rest;
      if key !in allowed { return true; }
      rest := rest - {key};
    }
    odd := false;
  }

  method WalkKey(core: Core, root: Node, k: string, value: Node, seen: set<string>, depth: nat) returns (ok: bool)
    requires depth <= MAX_DEPTH
    ensures ok <==> KeyAccepted(core, root, k, value, seen, depth)
    decreases MAX_DEPTH + 1 - depth, 0
  {
    hide KEYWORDS, PATTERNS, Resolve, SiblingsOk, Accepts;
    if k !in KEYWORDS { return false; }
    if k == "pattern" {
      ok := value.String? && value.s in PATTERNS;
    } else if k == "$schema" {
      ok := value == String(DRAFT_2020) || value == String(DRAFT_07);
    } else if k == "$ref" {
      ok := WalkRef(core, root, value, seen, depth);
    } else if k == "properties" || k == "$defs" {
      if !value.Object? { return false; }
      ok := WalkMap(core, root, value.fields, seen, depth);
    } else if k == "items" || k == "additionalProperties" {
      ok := Walk(core, root, value, seen, depth + 1);
    } else if k == "allOf" || k == "anyOf" || k == "oneOf" {
      if !value.List? { return false; }
      ok := WalkList(core, root, value.items, seen, depth);
    } else {
      ok := true;
    }
  }

  method WalkRef(core: Core, root: Node, value: Node, seen: set<string>, depth: nat) returns (ok: bool)
    requires depth <= MAX_DEPTH
    ensures ok <==> value.String? && IsLocal(value.s) && value.s !in seen && Resolve(core, root, value.s).Some?
                    && Accepts(core, root, Resolve(core, root, value.s).value, seen + {value.s}, depth + 1)
    decreases MAX_DEPTH - depth, 2
  {
    hide Resolve, Accepts;
    if !value.String? || !IsLocal(value.s) || value.s in seen { return false; }
    var target := Target(core, root, value.s);
    if target.None? { return false; }
    ok := Walk(core, root, target.value, seen + {value.s}, depth + 1);
  }

  method WalkList(core: Core, root: Node, items: seq<Node>, seen: set<string>, depth: nat) returns (ok: bool)
    requires depth <= MAX_DEPTH
    ensures ok <==> forall i :: 0 <= i < |items| ==> Accepts(core, root, items[i], seen, depth + 1)
    decreases MAX_DEPTH - depth, 2
  {
    for i := 0 to |items|
      invariant forall j :: 0 <= j < i ==> Accepts(core, root, items[j], seen, depth + 1)
    {
      var good := Walk(core, root, items[i], seen, depth + 1);
      if !good { return false; }
    }
    ok := true;
  }

  /** The Go core follows a reference itself, the Rust core by its JSON library. */
  method Target(core: Core, root: Node, ref: string) returns (target: Option<Node>)
    requires IsLocal(ref)
    ensures target == Resolve(core, root, ref)
  {
    if core == Go {
      target := Follow(root, Pointer.Split(ref[2..], '/'));
    } else {
      target := Resolve(core, root, ref);
    }
  }

  method WalkMap(core: Core, root: Node, fields: map<string, Node>, seen: set<string>, depth: nat) returns (ok: bool)
    requires depth <= MAX_DEPTH
    ensures ok <==> forall c <- fields :: Accepts(core, root, fields[c], seen, depth + 1)
    decreases MAX_DEPTH - depth, 2
  {
    var rest := fields.Keys;
    while rest != {}
      invariant rest <= fields.Keys && forall c <- fields ::
                c !in rest ==> Accepts(core, root, fields[c], seen, depth + 1)
      decreases |rest|
    {
      var c :| c in rest;
      var good := Walk(core, root, fields[c], seen, depth + 1);
      if !good { return false; }
      rest := rest - {c};
    }
    ok := true;
  }

  /** Follows a reference part by part; a missing key leads nowhere. */
  method Follow(root: Node, parts: seq<string>) returns (target: Option<Node>)
    ensures target == Descend(Go, root, parts)
  {
    target := Some(root);
    for i := 0 to |parts|
      invariant target.Some? && Descend(Go, root, parts) == Descend(Go, target.value, parts[i..])
    {
      assert parts[i..][0] == parts[i] && parts[i..][1..] == parts[i + 1..];
      target := Field(target.value, Pointer.Unescape(parts[i]));
      if target.None? { return; }
    }
  }

  /* ----- What a reference means ----- */

  /** A path of object members from one node to another: each node holds the next one under its key. */
  predicate Path(nodes: seq<Node>, keys: seq<string>, start: Node, end: Node) {
    && |nodes| == |keys| + 1 && nodes[0] == start && nodes[|keys|] == end
    && forall i :: 0 <= i < |keys| ==>
         nodes[i].Object? && keys[i] in nodes[i].fields && nodes[i].fields[keys[i]] == nodes[i + 1]
  }

  lemma {:induction false} DescendPath(n: Node, parts: seq<string>, keys: seq<string>) returns (nodes: seq<Node>)
    requires Pointer.Decoded(parts) == keys && Descend(Go, n, parts).Some?
    ensures Path(nodes, keys, n, Descend(Go, n, parts).value)
  {
    nodes := [n];
    if parts != [] {
      assert Pointer.Decoded(parts[1..]) == keys[1..] && Pointer.Unescape(parts[0]) == keys[0];
      var rest := DescendPath(n.fields[keys[0]], parts[1..], keys[1..]);
      nodes := [n] + rest;
    }
  }

  lemma {:induction false} PathDescends(nodes: seq<Node>, parts: seq<string>, keys: seq<string>, end: Node)
    requires Pointer.Decoded(parts) == keys && nodes != [] && Path(nodes, keys, nodes[0], end)
    ensures Descend(Go, nodes[0], parts) == Some(end)
  {
    if parts != [] {
      assert Pointer.Decoded(parts[1..]) == keys[1..] && Pointer.Unescape(parts[0]) == keys[0];
      PathDescends(nodes[1..], parts[1..], keys[1..], end);
    }
  }

  lemma DescendsExactly(root: Node, parts: seq<string>, keys: seq<string>, target: Node)
    requires Pointer.Decoded(parts) == keys
    ensures Descend(Go, root, parts) == Some(target) <==> exists nodes :: Path(nodes, keys, root, target)
  {
    hide Descend;
    if Descend(Go, root, parts) == Some(target) { var nodes := DescendPath(root, parts, keys); }
    if nodes :| Path(nodes, keys, root, target) { PathDescends(nodes, parts, keys, target); }
  }

  /** A reference made of keys leads to a node exactly when the keys do, member by member, whatever their characters. */
  lemma ReferenceLeadsExactly(root: Node, keys: seq<string>, target: Node)
    requires keys != []
    ensures IsLocal("#" + Pointer.Pointer(keys))
    ensures Resolve(Go, root, "#" + Pointer.Pointer(keys)) == Some(target) <==>
            exists nodes :: Path(nodes, keys, root, target)
  {
    hide Descend, Path, Pointer.Pointer, Pointer.Split, Pointer.Decoded;
    Pointer.PointerStarts(keys);
    Pointer.KeysUndoPointer(keys);
    var ref := "#" + Pointer.Pointer(keys);
    assert ref[2..] == Pointer.Pointer(keys)[1..];
    DescendsExactly(root, Pointer.Split(ref[2..], '/'), keys, target);
  }

  /* ----- Chains of positions and references ----- */

  /** One step from a schema to the next: down into a subschema, or along a reference. */
  datatype Hop = Hop(ref: Option<string>, node: Node)

  predicate Leads(core: Core, root: Node, k: string, value: Node, h: Hop) {
    if h.ref.Some? then k == "$ref" && value == String(h.ref.value) && IsLocal(h.ref.value)
        && Resolve(core, root, h.ref.value) == Some(h.node)
    else
      || ((k == "properties" || k == "$defs") && value.Object? && exists c <- value.fields :: value.fields[c] == h.node)
      || ((k == "items" || k == "additionalProperties") && h.node == value)
      || ((k == "allOf" || k == "anyOf" || k == "oneOf") && value.List? && exists i ::
          0 <= i < |value.items| && value.items[i] == h.node)
  }

  predicate Edge(core: Core, root: Node, n: Node, h: Hop) {
    n.Object? && exists k <- n.fields :: Leads(core, root, k, n.fields[k], h)
  }

  function Last(root: Node, hops: seq<Hop>): Node { if hops == [] then root else hops[|hops| - 1].node }

  predicate Chain(core: Core, root: Node, hops: seq<Hop>) {
    hops == []
        || (Chain(core, root, hops[..|hops| - 1]) && Edge(core, root, Last(root, hops[..|hops| - 1]), hops[|hops| - 1]))
  }

  /** The references a chain follows. */
  function Refs(hops: seq<Hop>): set<string> {
    if hops == [] then {}
    else Refs(hops[..|hops| - 1]) + (if hops[|hops| - 1].ref.Some? then {hops[|hops| - 1].ref.value} else {})
  }

  predicate NoRepeat(hops: seq<Hop>) {
    hops == [] || (NoRepeat(hops[..|hops| - 1])
                   && (hops[|hops| - 1].ref.Some? ==> hops[|hops| - 1].ref.value !in Refs(hops[..|hops| - 1])))
  }

  predicate KeyKnown(core: Core, root: Node, k: string, value: Node) {
    && k in KEYWORDS
    && (k == "pattern" ==> value.String? && value.s in PATTERNS)
    && (k == "$schema" ==> value == String(DRAFT_2020) || value == String(DRAFT_07))
    && (k == "$ref" ==> value.String? && IsLocal(value.s) && Resolve(core, root, value.s).Some?)
    && (k == "properties" || k == "$defs" ==> value.Object?)
    && (k == "allOf" || k == "anyOf" || k == "oneOf" ==> value.List?)
  }

  /** A schema that uses only the supported vocabulary, and whose reference leads somewhere. */
  predicate Known(core: Core, root: Node, n: Node) {
    n.Bool? || (n.Object? && StandsAlone(root, n) && forall k <- n.fields :: KeyKnown(core, root, k, n.fields[k]))
  }

  /** Under a draft 07 root, whatever stands beside a reference is an annotation. */
  predicate StandsAlone(root: Node, n: Node) {
    n.Object? && "$ref" in n.fields && root.Object? && "$schema" in root.fields
        && root.fields["$schema"] == String("http://json-schema.org/draft-07/schema#") ==>
      forall k <- n.fields :: k == "$ref" || k == "title" || k == "description" || k == "default" || k == "examples"
                              || k == "deprecated" || k == "readOnly" || k == "writeOnly" || k == "format"
  }

  lemma AloneIsSiblings(root: Node, n: Node)
    requires n.Object?
    ensures StandsAlone(root, n) <==> SiblingsOk(root, n.fields)
  {
  }

  /** Every chain from the root is short, repeats no reference, and ends at a supported schema. */
  ghost predicate Sound(core: Core, root: Node) {
    forall hops :: Chain(core, root, hops)
        ==> |hops| <= 64 && NoRepeat(hops) && Known(core, root, Last(root, hops))
  }

  lemma ChainSnoc(core: Core, root: Node, hops: seq<Hop>, h: Hop)
    ensures Chain(core, root, hops + [h]) <==> Chain(core, root, hops) && Edge(core, root, Last(root, hops), h)
    ensures Last(root, hops + [h]) == h.node
    ensures Refs(hops + [h]) == Refs(hops) + (if h.ref.Some? then {h.ref.value} else {})
    ensures NoRepeat(hops + [h]) <==> NoRepeat(hops) && (h.ref.Some? ==> h.ref.value !in Refs(hops))
  {
    assert (hops + [h])[..|hops|] == hops;
  }

  lemma EdgeAccepted(core: Core, root: Node, n: Node, h: Hop, seen: set<string>, depth: nat)
    requires Accepts(core, root, n, seen, depth) && Edge(core, root, n, h)
    ensures depth < MAX_DEPTH + 1 && (h.ref.Some? ==> h.ref.value !in seen)
    ensures Accepts(core, root, h.node, seen + (if h.ref.Some? then {h.ref.value} else {}), depth + 1)
  {
    hide Resolve, SiblingsOk, IsLocal;
    var k :| k in n.fields && Leads(core, root, k, n.fields[k], h);
    assert KeyAccepted(core, root, k, n.fields[k], seen, depth);
    assert seen + {} == seen;
  }

  lemma AcceptedIsKnown(core: Core, root: Node, n: Node, seen: set<string>, depth: nat)
    requires Accepts(core, root, n, seen, depth)
    ensures depth <= MAX_DEPTH && Known(core, root, n)
  {
    hide Resolve, SiblingsOk, StandsAlone, IsLocal;
    if n.Object? {
      AloneIsSiblings(root, n);
      forall k <- n.fields ensures KeyKnown(core, root, k, n.fields[k]) {
        assert KeyAccepted(core, root, k, n.fields[k], seen, depth);
      }
    }
  }

  lemma {:induction false} ChainAccepted(core: Core, root: Node, hops: seq<Hop>)
    requires Accepts(core, root, root, {}, 0) && Chain(core, root, hops)
    ensures NoRepeat(hops) && Accepts(core, root, Last(root, hops), Refs(hops), |hops|)
  {
    hide Accepts, Edge;
    if hops != [] {
      var front := hops[..|hops| - 1];
      ChainAccepted(core, root, front);
      EdgeAccepted(core, root, Last(root, front), hops[|hops| - 1], Refs(front), |front|);
    }
  }

  lemma {:induction false} SoundAccepted(core: Core, root: Node, hops: seq<Hop>)
    requires Sound(core, root) && Chain(core, root, hops)
    ensures Accepts(core, root, Last(root, hops), Refs(hops), |hops|)
    decreases MAX_DEPTH + 1 - |hops|, 1
  {
    hide Sound, KeyAccepted;
    SoundChain(core, root, hops);
    var n := Last(root, hops);
    if n.Object? {
      forall k <- n.fields ensures KeyAccepted(core, root, k, n.fields[k], Refs(hops), |hops|) {
        SoundKey(core, root, hops, k);
      }
    }
  }

  lemma SoundChain(core: Core, root: Node, hops: seq<Hop>)
    requires Sound(core, root) && Chain(core, root, hops)
    ensures |hops| <= MAX_DEPTH && NoRepeat(hops) && Known(core, root, Last(root, hops))
  {
    hide Chain, NoRepeat, Known;
  }

  lemma {:induction false} SoundHop(core: Core, root: Node, hops: seq<Hop>, h: Hop)
    requires Sound(core, root) && Chain(core, root, hops) && Edge(core, root, Last(root, hops), h)
             && |hops| <= MAX_DEPTH
    ensures h.ref.Some? ==> h.ref.value !in Refs(hops)
    ensures Accepts(core, root, h.node, Refs(hops) + (if h.ref.Some? then {h.ref.value} else {}), |hops| + 1)
    decreases MAX_DEPTH + 1 - |hops|, -1
  {
    hide Sound, Chain, NoRepeat, Accepts, Edge, Known;
    ChainSnoc(core, root, hops, h);
    SoundChain(core, root, hops + [h]);
    SoundAccepted(core, root, hops + [h]);
  }

  lemma {:induction false} SoundKey(core: Core, root: Node, hops: seq<Hop>, k: string)
    requires Sound(core, root) && Chain(core, root, hops) && |hops| <= MAX_DEPTH
    requires Last(root, hops).Object? && k in Last(root, hops).fields
             && KeyKnown(core, root, k, Last(root, hops).fields[k])
    ensures KeyAccepted(core, root, k, Last(root, hops).fields[k], Refs(hops), |hops|)
    decreases MAX_DEPTH + 1 - |hops|, 0
  {
    hide Sound, Chain, Accepts, Resolve;
    var value := Last(root, hops).fields[k];
    assert Refs(hops) + {} == Refs(hops);
    if k == "$ref" {
      var h := Hop(Some(value.s), Resolve(core, root, value.s).value);
      assert Leads(core, root, k, value, h);
      SoundHop(core, root, hops, h);
    } else if k == "properties" || k == "$defs" {
      forall c <- value.fields ensures Accepts(core, root, value.fields[c], Refs(hops), |hops| + 1) {
        var h := Hop(None, value.fields[c]);
        assert Leads(core, root, k, value, h);
        SoundHop(core, root, hops, h);
      }
    } else if k == "items" || k == "additionalProperties" {
      var h := Hop(None, value);
      assert Leads(core, root, k, value, h);
      SoundHop(core, root, hops, h);
    } else if k == "allOf" || k == "anyOf" || k == "oneOf" {
      forall i | 0 <= i < |value.items| ensures Accepts(core, root, value.items[i], Refs(hops), |hops| + 1) {
        var h := Hop(None, value.items[i]);
        assert Leads(core, root, k, value, h);
        SoundHop(core, root, hops, h);
      }
    }
  }

  /** The profile accepts a schema exactly when every chain of positions and references from the root has at most
      64 steps, repeats no reference, and ends at a supported schema, so that every reference resolves to one. */
  lemma AcceptsExactly(core: Core, root: Node)
    ensures Accepts(core, root, root, {}, 0) <==> Sound(core, root)
  {
    hide Accepts, NoRepeat, Known;
    if Accepts(core, root, root, {}, 0) {
      forall hops | Chain(core, root, hops)
        ensures |hops| <= MAX_DEPTH && NoRepeat(hops) && Known(core, root, Last(root, hops))
      {
        ChainAccepted(core, root, hops);
        AcceptedIsKnown(core, root, Last(root, hops), Refs(hops), |hops|);
      }
    }
    if Sound(core, root) {
      SoundAccepted(core, root, []);
    }
  }

  /* ----- No cycles ----- */

  /** A stretch of one chain can follow another chain that ends where the stretch began. */
  lemma {:induction false} Graft(core: Core, root: Node, x: seq<Hop>, hops: seq<Hop>, i: nat, j: nat)
    requires Chain(core, root, x) && Chain(core, root, hops) && i <= j <= |hops|
             && Last(root, x) == Last(root, hops[..i])
    ensures Chain(core, root, x + hops[i..j]) && Last(root, x + hops[i..j]) == Last(root, hops[..j])
    decreases j
  {
    hide Edge;
    if i == j {
      assert x + hops[i..j] == x;
    } else {
      Graft(core, root, x, hops, i, j - 1);
      ChainPrefix(core, root, hops, j);
      assert hops[..j] == hops[..j - 1] + [hops[j - 1]];
      ChainSnoc(core, root, hops[..j - 1], hops[j - 1]);
      assert x + hops[i..j] == (x + hops[i..j - 1]) + [hops[j - 1]];
      ChainSnoc(core, root, x + hops[i..j - 1], hops[j - 1]);
    }
  }

  lemma {:induction false} ChainPrefix(core: Core, root: Node, hops: seq<Hop>, n: nat)
    requires Chain(core, root, hops) && n <= |hops|
    ensures Chain(core, root, hops[..n])
  {
    hide Edge;
    if n == |hops| {
      assert hops[..n] == hops;
    } else {
      assert hops[..|hops| - 1][..n] == hops[..n];
      ChainPrefix(core, root, hops[..|hops| - 1], n);
    }
  }

  /** Going round a cycle as often as one likes. */
  lemma {:induction false} Round(core: Core, root: Node, hops: seq<Hop>, i: nat, j: nat, times: nat)
      returns (x: seq<Hop>)
    requires Chain(core, root, hops) && i < j <= |hops| && Last(root, hops[..i]) == Last(root, hops[..j])
    ensures Chain(core, root, x) && |x| >= times && Last(root, x) == Last(root, hops[..i])
  {
    hide Chain, Last;
    if times == 0 {
      ChainPrefix(core, root, hops, i);
      x := hops[..i];
    } else {
      var y := Round(core, root, hops, i, j, times - 1);
      Graft(core, root, y, hops, i, j);
      x := y + hops[i..j];
    }
  }

  /** Accepted schemas have no cycle: no chain comes back to a schema it has been at. */
  lemma AcceptedIsAcyclic(core: Core, root: Node, hops: seq<Hop>, i: nat, j: nat)
    requires Accepts(core, root, root, {}, 0) && Chain(core, root, hops) && i < j <= |hops|
    ensures Last(root, hops[..i]) != Last(root, hops[..j])
  {
    hide Accepts, Chain, Last;
    AcceptsExactly(core, root);
    if Last(root, hops[..i]) == Last(root, hops[..j]) {
      var x := Round(core, root, hops, i, j, MAX_DEPTH + 1);
    }
  }

  /* ----- The two cores ----- */

  /** The reference leads somewhere, but only by way of a list. */
  predicate IntoList(root: Node, ref: string) {
    IsLocal(ref) && Resolve(Rust, root, ref).Some? && Resolve(Go, root, ref).None?
  }

  /** Where a reference leads through objects, both cores go. */
  lemma {:induction false} DescendAlike(n: Node, parts: seq<string>)
    ensures var there := Descend(Go, n, parts); there.Some? ==> Descend(Rust, n, parts) == there
  {
    if parts != [] && Field(n, Pointer.Unescape(parts[0])).Some? {
      DescendAlike(Field(n, Pointer.Unescape(parts[0])).value, parts[1..]);
    }
  }

  lemma EdgeAlike(root: Node, n: Node, h: Hop)
    ensures Edge(Go, root, n, h) ==> Edge(Rust, root, n, h)
    ensures Edge(Rust, root, n, h) && (h.ref.Some? ==> !IntoList(root, h.ref.value)) ==> Edge(Go, root, n, h)
  {
    if h.ref.Some? && IsLocal(h.ref.value) { DescendAlike(root, Pointer.Split(h.ref.value[2..], '/')); }
  }

  ghost predicate NoList(root: Node, hops: seq<Hop>) {
    forall i :: 0 <= i < |hops| && hops[i].ref.Some? ==> !IntoList(root, hops[i].ref.value)
  }

  lemma {:induction false} ChainAlike(root: Node, hops: seq<Hop>)
    ensures Chain(Go, root, hops) ==> Chain(Rust, root, hops)
    ensures Chain(Rust, root, hops) && NoList(root, hops) ==> Chain(Go, root, hops)
  {
    hide Edge, IntoList;
    if hops != [] {
      var front := hops[..|hops| - 1];
      ChainAlike(root, front);
      EdgeAlike(root, Last(root, front), hops[|hops| - 1]);
      if NoList(root, hops) {
        forall i | 0 <= i < |front| && front[i].ref.Some? ensures !IntoList(root, front[i].ref.value) {
          assert front[i] == hops[i];
        }
      }
    }
  }

  lemma KnownAlike(root: Node, n: Node)
    ensures Known(Go, root, n) ==> Known(Rust, root, n)
    ensures Known(Rust, root, n)
            && !(n.Object? && "$ref" in n.fields && n.fields["$ref"].String? && IntoList(root, n.fields["$ref"].s))
            ==> Known(Go, root, n)
  {
    hide Resolve, StandsAlone, PATTERNS, KEYWORDS;
    if n.Object? && "$ref" in n.fields && n.fields["$ref"].String? && IsLocal(n.fields["$ref"].s) {
      ResolveAlike(root, n.fields["$ref"].s);
    }
  }

  lemma ResolveAlike(root: Node, ref: string)
    requires IsLocal(ref)
    ensures Resolve(Go, root, ref).Some? ==> Resolve(Rust, root, ref) == Resolve(Go, root, ref)
  {
    DescendAlike(root, Pointer.Split(ref[2..], '/'));
  }

  /** The Go core accepts a schema exactly when the Rust core does and no reference that the Rust walk follows
      steps into a list. */
  lemma WalksAgreeExactly(root: Node)
    ensures Accepts(Go, root, root, {}, 0) <==>
            Accepts(Rust, root, root, {}, 0) && forall hops :: Chain(Rust, root, hops) ==> NoList(root, hops)
  {
    hide Accepts, Chain, NoRepeat, Known, NoList;
    AcceptsExactly(Go, root);
    AcceptsExactly(Rust, root);
    if Sound(Go, root) {
      forall hops | Chain(Rust, root, hops)
        ensures NoList(root, hops) && |hops| <= MAX_DEPTH && NoRepeat(hops) && Known(Rust, root, Last(root, hops))
      {
        SoundMeetsNoList(root, hops);
        ChainAlike(root, hops);
        KnownAlike(root, Last(root, hops));
      }
    }
    if Sound(Rust, root) && forall hops :: Chain(Rust, root, hops) ==> NoList(root, hops) {
      forall hops | Chain(Go, root, hops)
        ensures |hops| <= MAX_DEPTH && NoRepeat(hops) && Known(Go, root, Last(root, hops))
      {
        ChainAlike(root, hops);
        OnwardIsNoList(root, hops);
        KnownAlike(root, Last(root, hops));
      }
    }
  }

  lemma {:induction false} SoundMeetsNoList(root: Node, hops: seq<Hop>)
    requires Sound(Go, root) && Chain(Rust, root, hops)
    ensures NoList(root, hops)
  {
    hide Sound, Edge, IntoList, Known, NoRepeat, Chain, NoList;
    if hops == [] {
      assert NoList(root, hops) by { NoListHere(root, hops); }
    } else {
      var front, h := hops[..|hops| - 1], hops[|hops| - 1];
      ChainFront(Rust, root, hops);
      SoundMeetsNoList(root, front);
      ChainAlike(root, front);
      SoundChain(Go, root, front);
      if h.ref.Some? { KnownLeadsThroughObjects(root, Last(root, front), h); }
      NoListHere(root, hops);
    }
  }

  lemma ChainFront(core: Core, root: Node, hops: seq<Hop>)
    requires Chain(core, root, hops) && hops != []
    ensures Chain(core, root, hops[..|hops| - 1]) && Edge(core, root, Last(root, hops[..|hops| - 1]), hops[|hops| - 1])
  {
  }

  lemma NoListHere(root: Node, hops: seq<Hop>)
    requires hops != [] ==> NoList(root, hops[..|hops| - 1])
    requires hops != [] && hops[|hops| - 1].ref.Some? ==> !IntoList(root, hops[|hops| - 1].ref.value)
    ensures NoList(root, hops)
  {
    hide IntoList;
    forall i | 0 <= i < |hops| && hops[i].ref.Some? ensures !IntoList(root, hops[i].ref.value) {
      if i < |hops| - 1 { assert hops[..|hops| - 1][i] == hops[i]; }
    }
  }

  lemma KnownLeadsThroughObjects(root: Node, n: Node, h: Hop)
    requires Known(Go, root, n) && Edge(Rust, root, n, h) && h.ref.Some?
    ensures !IntoList(root, h.ref.value)
  {
    hide Resolve, StandsAlone, PATTERNS, KEYWORDS;
  }

  /** Where every chain avoids lists, so does the reference at its end. */
  lemma OnwardIsNoList(root: Node, hops: seq<Hop>)
    requires Chain(Rust, root, hops) && forall x :: Chain(Rust, root, x) ==> NoList(root, x)
    ensures var n := Last(root, hops);
            !(n.Object? && "$ref" in n.fields && n.fields["$ref"].String? && IntoList(root, n.fields["$ref"].s))
  {
    hide Chain, Last, Resolve;
    var n := Last(root, hops);
    if n.Object? && "$ref" in n.fields && n.fields["$ref"].String? && IsLocal(n.fields["$ref"].s)
       && Resolve(Rust, root, n.fields["$ref"].s).Some? {
      var h := Hop(Some(n.fields["$ref"].s), Resolve(Rust, root, n.fields["$ref"].s).value);
      assert Leads(Rust, root, "$ref", n.fields["$ref"], h);
      ChainSnoc(Rust, root, hops, h);
      assert NoList(root, hops + [h]);
      assert (hops + [h])[|hops|] == h;
    }
  }

  lemma AllOfParts()
    ensures Pointer.Split("allOf/0", '/') == ["allOf", "0"] && Pointer.Unescape("allOf") == "allOf"
            && Pointer.Unescape("0") == "0"
  {
    hide Pointer.Split;
    SplitAtZero();
    SplitStep('f', "/0", "", "0");
    assert ['f'] + "/0" == "f/0" && ['f'] + "" == "f";
    SplitStep('O', "f/0", "f", "0");
    assert ['O'] + "f/0" == "Of/0" && ['O'] + "f" == "Of";
    SplitStep('l', "Of/0", "Of", "0");
    assert ['l'] + "Of/0" == "lOf/0" && ['l'] + "Of" == "lOf";
    SplitStep('l', "lOf/0", "lOf", "0");
    assert ['l'] + "lOf/0" == "llOf/0" && ['l'] + "lOf" == "llOf";
    SplitStep('a', "llOf/0", "llOf", "0");
    assert ['a'] + "llOf/0" == "allOf/0" && ['a'] + "llOf" == "allOf";
    NothingToUnescape("allOf", '1', '/');
    NothingToUnescape("allOf", '0', '~');
  }

  lemma SplitAtZero()
    ensures Pointer.Split("/0", '/') == ["", "0"]
  {
    assert "/0"[1..] == "0" && "0"[1..] == "";
    assert Pointer.Split("0", '/') == [['0'] + ""] + [];
    assert ['0'] + "" == "0";
  }

  lemma SplitStep(c: char, s: string, first: string, second: string)
    requires c != '/' && Pointer.Split(s, '/') == [first, second]
    ensures Pointer.Split([c] + s, '/') == [[c] + first, second]
  {
    assert ([c] + s)[1..] == s;
  }

  lemma {:induction false} NothingToUnescape(s: string, b: char, other: char)
    requires '~' !in s
    ensures Pointer.ReplacePair(s, '~', b, other) == s
  {
    if |s| >= 2 { NothingToUnescape(s[1..], b, other); }
  }

  lemma AllOfResolves(root: Node, list: Node)
    requires root.Object? && "allOf" in root.fields && root.fields["allOf"] == list && list == List([Bool(true)])
    ensures IsLocal("#/allOf/0") && Resolve(Rust, root, "#/allOf/0") == Some(Bool(true))
            && Resolve(Go, root, "#/allOf/0").None?
  {
    AllOfParts();
    assert "#/allOf/0"[2..] == "allOf/0" && "#/allOf/0"[..2] == "#/";
    assert ["allOf", "0"][1..] == ["0"] && ["0"][1..] == [];
    assert Index("0") == Some(0) by { assert "0"[..0] == ""; }
    assert Part(Rust, list, "0") == Some(Bool(true)) && Part(Go, list, "0").None?;
    assert Descend(Rust, list, ["0"]) == Some(Bool(true)) && Descend(Go, list, ["0"]).None?;
    assert Part(Rust, root, "allOf") == Some(list) && Part(Go, root, "allOf") == Some(list);
  }

  /** Such a schema: a reference to the first branch of an `allOf`. */
  lemma ListReferenceParts()
    ensures var root :=
            Object(map["allOf" := List([Bool(true)]), "items" := Object(map["$ref" := String("#/allOf/0")])]);
            IntoList(root, "#/allOf/0") && Accepts(Rust, root, root, {}, 0) && !Accepts(Go, root, root, {}, 0)
  {
    var list, ref := List([Bool(true)]), String("#/allOf/0");
    var item := Object(map["$ref" := ref]);
    var root := Object(map["allOf" := list, "items" := item]);
    AllOfResolves(root, list);
    BranchAccepted(Rust, root, list);
    BranchAccepted(Go, root, list);
  }

  /** What a core says of such a schema hangs on that reference alone. */
  lemma BranchAccepted(core: Core, root: Node, list: Node)
    requires list == List([Bool(true)])
    requires root == Object(map["allOf" := list, "items" := Object(map["$ref" := String("#/allOf/0")])])
    requires IsLocal("#/allOf/0") && Resolve(core, root, "#/allOf/0") == if core == Rust then Some(Bool(true)) else None
    ensures Accepts(core, root, root, {}, 0) <==> core == Rust
  {
    hide Resolve, IsLocal, KEYWORDS, PATTERNS;
    Keywords();
    var ref := String("#/allOf/0");
    var item := root.fields["items"];
    assert item.fields["$ref"] == ref && root.fields["allOf"] == list;
    assert KeyAccepted(core, root, "$ref", ref, {}, 1) <==> core == Rust;
    assert Accepts(core, root, item, {}, 1) <==> core == Rust;
    assert KeyAccepted(core, root, "allOf", list, {}, 0);
    assert KeyAccepted(core, root, "items", item, {}, 0) <==> core == Rust;
  }

  lemma Keywords()
    ensures "$ref" in KEYWORDS && "allOf" in KEYWORDS && "items" in KEYWORDS
  {
  }
}
