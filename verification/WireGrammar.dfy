/** The texts of the wire: what spells a value, and that the parser accepts exactly those texts and returns
    exactly the values they spell. */
module WireGrammar {
  import opened Wire
  import opened WireJson

  /** A value as it stands in a text, with its white space. `body` is what is between the quotes of a literal. */
  datatype Tree =
    | Name(lead: Text, json: Json)
    | Number(lead: Text, token: Text)
    | String(lead: Text, body: Text)
    | Array(lead: Text, inner: Text, items: seq<Item>)
    | Object(lead: Text, inner: Text, pairs: seq<Pair>)

  datatype Item = Item(value: Tree, trail: Text)

  datatype Pair = Pair(lead: Text, body: Text, gap: Text, value: Tree, trail: Text)

  function WordOf(v: Json): Text {
    match v
    case Null => NULL
    case Bool(b) => if b then TRUE else FALSE
    case _ => []
  }

  function Quoted(body: Text): Text { [QUOTE] + body + [QUOTE] }

  /** The text of a tree. */
  function Yield(t: Tree): Text
    decreases t, 1
  {
    t.lead + Core(t)
  }

  /** The text without its leading white space. */
  function Core(t: Tree): Text
    decreases t, 0
  {
    match t
    case Name(_, json) => WordOf(json)
    case Number(_, token) => token
    case String(_, body) => Quoted(body)
    case Array(_, inner, items) => [OPEN_ARRAY] + (if items == [] then inner + [CLOSE_ARRAY] else YieldItems(items))
    case Object(_, inner, pairs) => [OPEN_OBJECT] + (if pairs == [] then inner + [CLOSE_OBJECT] else YieldPairs(pairs))
  }

  /** The items of an array, to its closing bracket. */
  function YieldItems(items: seq<Item>): Text
    requires items != []
  {
    Yield(items[0].value) + (items[0].trail + (if |items| == 1 then [CLOSE_ARRAY]
                                               else [COMMA] + YieldItems(items[1..])))
  }

  function YieldPair(p: Pair): Text { p.lead + (Quoted(p.body) + (p.gap + ([COLON] + (Yield(p.value) + p.trail)))) }

  function YieldPairs(pairs: seq<Pair>): Text
    requires pairs != []
  {
    YieldPair(pairs[0]) + (if |pairs| == 1 then [CLOSE_OBJECT] else [COMMA] + YieldPairs(pairs[1..]))
  }

  /** The value of a tree. */
  function ValueOf(c: Codec, t: Tree): Json {
    match t
    case Name(_, json) => json
    case Number(_, token) => if c.read(token).Some? then Num(c.read(token).value) else Null
    case String(_, body) => Str(Spelled(body))
    case Array(_, _, items) => Arr(ItemValues(c, items))
    case Object(_, _, pairs) => Obj(PairValues(c, pairs))
  }

  function Spelled(body: Text): Text { if Decode(body).Some? then Decode(body).value else [] }

  function ItemValues(c: Codec, items: seq<Item>): (r: seq<Json>)
    ensures |r| == |items|
  {
    if items == [] then [] else [ValueOf(c, items[0].value)] + ItemValues(c, items[1..])
  }

  function PairValues(c: Codec, pairs: seq<Pair>): (r: seq<Member>)
    ensures |r| == |pairs|
  {
    if pairs == [] then [] else [Member(Spelled(pairs[0].body), ValueOf(c, pairs[0].value))] + PairValues(c, pairs[1..])
  }

  /** The grammar, with the limits of the wire. */
  predicate Grammatical(cfg: Config, t: Tree, depth: nat) {
    && depth <= MAX_DEPTH && Blank(t.lead)
    && match t
       case Name(_, json) => json.Null? || json.Bool?
       case Number(_, token) => IsNumber(token) && cfg.codec.read(token).Some? && Safe(cfg.codec.read(token).value)
       case String(_, body) => Decode(body).Some?
       case Array(_, inner, items) => Blank(inner) && |items| <= cfg.maxArray && GrammaticalItems(cfg, items, depth)
       case Object(_, inner, pairs) =>
         && Blank(inner) && |pairs| <= MAX_PROPERTIES && GrammaticalPairs(cfg, pairs, depth)
         && (forall i, j :: 0 <= i < j < |pairs| ==> Spelled(pairs[i].body) != Spelled(pairs[j].body))
  }

  predicate GrammaticalItems(cfg: Config, items: seq<Item>, depth: nat) {
    items != [] ==>
      Blank(items[0].trail) && Grammatical(cfg, items[0].value, depth + 1) && GrammaticalItems(cfg, items[1..], depth)
  }

  predicate GrammaticalPairs(cfg: Config, pairs: seq<Pair>, depth: nat) {
    pairs != [] ==>
      var p := pairs[0];
      && Blank(p.lead) && Blank(p.gap) && Blank(p.trail)
      && Decode(p.body).Some? && Spelled(p.body) !in DANGEROUS
      && Grammatical(cfg, p.value, depth + 1) && GrammaticalPairs(cfg, pairs[1..], depth)
  }

  /* ----- Tokens in their context ----- */

  lemma {:induction false} TrimBlank(w: Text, t: Text)
    requires Blank(w) && (t != [] ==> !White(t[0]))
    ensures Trim(w + t) == t
  {
    if w == [] {
      assert w + t == t;
    } else {
      assert (w + t)[1..] == w[1..] + t;
      TrimBlank(w[1..], t);
    }
  }

  /** What may follow a number: nothing that could continue it. */
  predicate Stops(t: Text) { t != [] ==> White(t[0]) || t[0] == COMMA || t[0] == CLOSE_ARRAY || t[0] == CLOSE_OBJECT }

  lemma {:induction false} RunStops(t: Text, rest: Text)
    requires Stops(rest)
    ensures DigitRun(t + rest) == DigitRun(t)
  {
    if t == [] {
      assert t + rest == rest;
    } else {
      assert (t + rest)[1..] == t[1..] + rest;
      RunStops(t[1..], rest);
    }
  }

  lemma {:induction false} RunCut(t: Text, n: nat)
    requires DigitRun(t) <= n <= |t|
    ensures DigitRun(t[..n]) == DigitRun(t)
  {
    if DigitRun(t) > 0 {
      assert t[..n][1..] == t[1..][..n - 1];
      RunCut(t[1..], n - 1);
    }
  }

  /** A number ends where it stops, and cutting the text there does not change it. */
  lemma NumberStops(t: Text, rest: Text)
    requires IsNumber(t) && Stops(rest)
    ensures NumberLength(t + rest) == |t|
  {
    IntStops(t, rest);
    var i := IntLength(t);
    assert (t + rest)[i..] == t[i..] + rest;
    FracStops(t[i..], rest);
    var f := i + FracLength(t[i..]);
    assert (t + rest)[f..] == t[f..] + rest;
    ExpStops(t[f..], rest);
  }

  lemma IntStops(t: Text, rest: Text)
    requires Stops(rest)
    ensures IntLength(t + rest) == IntLength(t)
  {
    var sign := if t != [] && t[0] == 45 then 1 else 0;
    if |t| > sign {
      assert (t + rest)[sign..] == t[sign..] + rest;
      RunStops(t[sign..], rest);
    }
  }

  lemma FracStops(t: Text, rest: Text)
    requires Stops(rest)
    ensures FracLength(t + rest) == FracLength(t)
  {
    if |t| > 1 {
      assert (t + rest)[1..] == t[1..] + rest;
      RunStops(t[1..], rest);
    }
  }

  lemma ExpStops(t: Text, rest: Text)
    requires Stops(rest)
    ensures ExpLength(t + rest) == ExpLength(t)
  {
    if |t| > 0 {
      var sign := if |t| > 1 && (t[1] == 43 || t[1] == 45) then 2 else 1;
      if |t| > sign {
        assert (t + rest)[sign..] == t[sign..] + rest;
        RunStops(t[sign..], rest);
      }
    }
  }

  lemma NumberCut(t: Text)
    ensures var n := NumberLength(t); n > 0 ==> IsNumber(t[..n])
  {
    hide IntLength, FracLength, ExpLength;
    var n := NumberLength(t);
    if n > 0 {
      var i := IntLength(t);
      var f := i + FracLength(t[i..]);
      var cut := t[..n];
      IntCut(t, n);
      assert cut[i..] == t[i..][..n - i];
      FracCut(t[i..], n - i);
      assert cut[f..] == t[f..][..n - f];
      ExpCut(t[f..]);
    }
  }

  lemma IntCut(t: Text, n: nat)
    requires IntLength(t) <= n <= |t|
    ensures IntLength(t) > 0 ==> IntLength(t[..n]) == IntLength(t)
  {
    var sign := if t != [] && t[0] == 45 then 1 else 0;
    if IntLength(t) > 0 {
      assert t[..n][sign..] == t[sign..][..n - sign];
      if t[sign] != 48 { RunCut(t[sign..], n - sign); }
    }
  }

  lemma FracCut(t: Text, n: nat)
    requires FracLength(t) <= n <= |t|
    ensures FracLength(t[..n]) == FracLength(t)
  {
    if n > 1 {
      assert t[..n][1..] == t[1..][..n - 1];
      if FracLength(t) > 0 { RunCut(t[1..], n - 1); }
    }
  }

  lemma ExpCut(t: Text)
    ensures ExpLength(t[..ExpLength(t)]) == ExpLength(t)
  {
    var n := ExpLength(t);
    if n > 0 {
      var sign := if |t| > 1 && (t[1] == 43 || t[1] == 45) then 2 else 1;
      assert t[..n][sign..] == t[sign..][..n - sign];
      RunCut(t[sign..], n - sign);
    }
  }

  /** A well-formed literal closes at its own closing quote. */
  lemma {:induction false} BodyCloses(body: Text, rest: Text)
    requires Decode(body).Some?
    ensures BodyLength(body + ([QUOTE] + rest)) == Some(|body|)
    decreases |body|
  {
    var t := body + ([QUOTE] + rest);
    if body == [] {
      assert t[0] == QUOTE;
    } else if body[0] == BACKSLASH {
      assert t[2..] == body[2..] + ([QUOTE] + rest);
      if Unescaped(body[1]).Some? {
        BodyCloses(body[2..], rest);
      } else {
        HexCloses(body[2..], rest);
      }
    } else {
      assert t[1..] == body[1..] + ([QUOTE] + rest);
      BodyCloses(body[1..], rest);
    }
  }

  lemma HexCloses(hex: Text, rest: Text)
    requires |hex| >= 4 && Hex4(hex[..4]).Some? && Decode(hex[4..]).Some?
    ensures BodyLength(hex + ([QUOTE] + rest)) == Some(|hex|)
    decreases |hex|
  {
    hide Decode, BodyLength;
    var tail := hex[4..] + ([QUOTE] + rest);
    BodyCloses(hex[4..], rest);
    assert hex[..4][0] == hex[0] && hex[..4][1] == hex[1] && hex[..4][2] == hex[2] && hex[..4][3] == hex[3];
    assert hex[3..] == [hex[3]] + hex[4..] && hex[2..] == [hex[2]] + hex[3..] && hex[1..] == [hex[1]] + hex[2..]
           && hex == [hex[0]] + hex[1..];
    PlainCloses(hex[3], hex[4..], rest);
    PlainCloses(hex[2], hex[3..], rest);
    PlainCloses(hex[1], hex[2..], rest);
    PlainCloses(hex[0], hex[1..], rest);
  }

  lemma PlainCloses(u: Unit, t: Text, rest: Text)
    requires u != QUOTE && u != BACKSLASH && BodyLength(t + ([QUOTE] + rest)) == Some(|t|)
    ensures BodyLength(([u] + t) + ([QUOTE] + rest)) == Some(|t| + 1)
  {
    hide BodyLength;
    assert (([u] + t) + ([QUOTE] + rest))[1..] == t + ([QUOTE] + rest);
    ScanStep(([u] + t) + ([QUOTE] + rest));
  }

  lemma StringParses(body: Text, rest: Text)
    requires Decode(body).Some?
    ensures ParseString(Quoted(body) + rest) == Some((Spelled(body), rest))
  {
    hide Decode, BodyLength;
    var t := Quoted(body) + rest;
    BodyCloses(body, rest);
    assert t[1..] == body + ([QUOTE] + rest);
    assert t[1..|body| + 1] == body && t[|body| + 2..] == rest;
  }

  /* ----- Every grammatical text parses to its value ----- */

  lemma CoreStarts(cfg: Config, t: Tree, depth: nat)
    requires Grammatical(cfg, t, depth)
    ensures Core(t) != [] && !White(Core(t)[0]) && Core(t)[0] != CLOSE_ARRAY && Core(t)[0] != CLOSE_OBJECT
  {
    hide GrammaticalItems, GrammaticalPairs, YieldItems, YieldPairs, Decode;
  }

  lemma TrimYield(cfg: Config, t: Tree, depth: nat, rest: Text)
    requires Grammatical(cfg, t, depth)
    ensures Trim(Yield(t) + rest) == Core(t) + rest
  {
    hide Grammatical, Core;
    CoreStarts(cfg, t, depth);
    assert Yield(t) + rest == t.lead + (Core(t) + rest);
    LeadBlank(cfg, t, depth);
    TrimBlank(t.lead, Core(t) + rest);
  }

  lemma LeadBlank(cfg: Config, t: Tree, depth: nat)
    requires Grammatical(cfg, t, depth)
    ensures Blank(t.lead)
  {
  }

  lemma TrimTwice(t: Text)
    ensures Trim(Trim(t)) == Trim(t)
  {
  }

  lemma StartsApart(t: Text, word: Text)
    requires word != []
    ensures t == [] || t[0] != word[0] ==> !StartsWith(t, word)
  {
    assert StartsWith(t, word) ==> t[..|word|][0] == t[0];
  }

  lemma NumberStarts(t: Text)
    requires IsNumber(t)
    ensures t[0] == 45 || IsDigit(t[0])
  {
  }

  lemma TokenParses(c: Codec, t: Tree, rest: Text)
    requires (t.Name? && (t.json.Null? || t.json.Bool?))
             || (t.Number? && IsNumber(t.token) && c.read(t.token).Some? && Safe(c.read(t.token).value) && Stops(rest))
    ensures ParseToken(c, Core(t) + rest) == Some((ValueOf(c, t), rest))
  {
    var s := Core(t) + rest;
    if t.Number? {
      NumberStops(t.token, rest);
      StartsApart(s, TRUE);
      StartsApart(s, FALSE);
      StartsApart(s, NULL);
      assert s[0] == t.token[0] && (s[0] == 45 || IsDigit(s[0]));
      assert s[..|t.token|] == t.token && s[|t.token|..] == rest;
    } else {
      var word := WordOf(t.json);
      assert s[..|word|] == word && s[|word|..] == rest;
      StartsApart(s, TRUE);
      StartsApart(s, FALSE);
    }
  }

  lemma {:induction false} ValueParses(cfg: Config, t: Tree, depth: nat, rest: Text)
    requires Grammatical(cfg, t, depth) && (t.Number? ==> Stops(rest))
    ensures ParseValue(cfg, Yield(t) + rest, depth) == Some((ValueOf(cfg.codec, t), rest))
    decreases t, 1
  {
    hide Decode, IsNumber, Trim, DANGEROUS, ParseArray, ParseObject, ParseToken, ParseString, YieldItems, YieldPairs,
         ItemValues, PairValues;
    TrimYield(cfg, t, depth, rest);
    CoreStarts(cfg, t, depth);
    var s := Core(t) + rest;
    assert s[1..] == Core(t)[1..] + rest;
    match t {
      case Name(_, json) => TokenParses(cfg.codec, t, rest);
      case Number(_, token) =>
        NumberStarts(token);
        TokenParses(cfg.codec, t, rest);
      case String(_, body) => StringParses(body, rest);
      case Array(_, inner, items) => ArrayParses(cfg, t, depth, rest);
      case Object(_, inner, pairs) => ObjectParses(cfg, t, depth, rest);
    }
  }

  lemma ArrayParses(cfg: Config, t: Tree, depth: nat, rest: Text)
    requires t.Array? && Grammatical(cfg, t, depth)
    ensures Core(t) != [] && Core(t)[0] == OPEN_ARRAY
    ensures ParseArray(cfg, Core(t)[1..] + rest, depth) == Some((ValueOf(cfg.codec, t), rest))
    decreases t, 0
  {
    hide IsNumber, Decode, YieldPairs;
    if t.items == [] {
      assert Core(t)[1..] + rest == t.inner + ([CLOSE_ARRAY] + rest);
      TrimBlank(t.inner, [CLOSE_ARRAY] + rest);
    } else {
      assert Core(t)[1..] == YieldItems(t.items);
      var inner := Trim(YieldItems(t.items) + rest);
      TrimTwice(YieldItems(t.items) + rest);
      ItemsStart(cfg, t.items, depth, rest);
      ItemsParse(cfg, t.items, depth, [], rest);
      assert [] + ItemValues(cfg.codec, t.items) == ItemValues(cfg.codec, t.items);
    }
  }

  lemma ItemsStart(cfg: Config, items: seq<Item>, depth: nat, rest: Text)
    requires items != [] && GrammaticalItems(cfg, items, depth)
    ensures var inner := Trim(YieldItems(items) + rest); inner != [] && inner[0] != CLOSE_ARRAY
  {
    hide Grammatical, Yield, Core;
    var tail := items[0].trail + (if |items| == 1 then [CLOSE_ARRAY] else [COMMA] + YieldItems(items[1..]));
    assert YieldItems(items) + rest == Yield(items[0].value) + (tail + rest);
    TrimYield(cfg, items[0].value, depth + 1, tail + rest);
    CoreStarts(cfg, items[0].value, depth + 1);
  }

  lemma {:induction false} ItemsParse(cfg: Config, items: seq<Item>, depth: nat, done: seq<Json>, rest: Text)
    requires items != [] && GrammaticalItems(cfg, items, depth) && |done| + |items| <= cfg.maxArray
    ensures ParseItems(cfg, YieldItems(items) + rest, depth, done) ==
            Some((Arr(done + ItemValues(cfg.codec, items)), rest))
    decreases items
  {
    hide Grammatical, Yield, ParseValue, Trim;
    var item := items[0];
    var closing := if |items| == 1 then [CLOSE_ARRAY] else [COMMA] + YieldItems(items[1..]);
    var tail := item.trail + (closing + rest);
    assert YieldItems(items) + rest == Yield(item.value) + tail;
    ValueParses(cfg, item.value, depth + 1, tail);
    TrimmedParses(cfg, Yield(item.value) + tail, depth + 1);
    TrimBlank(item.trail, closing + rest);
    var v := ValueOf(cfg.codec, item.value);
    if |items| == 1 {
      assert (closing + rest)[1..] == rest;
      assert done + ItemValues(cfg.codec, items) == done + [v];
    } else {
      assert (closing + rest)[1..] == YieldItems(items[1..]) + rest;
      ItemsParse(cfg, items[1..], depth, done + [v], rest);
      assert (done + [v]) + ItemValues(cfg.codec, items[1..]) == done + ItemValues(cfg.codec, items);
    }
  }

  lemma TrimmedParses(cfg: Config, t: Text, depth: nat)
    ensures ParseValue(cfg, Trim(t), depth) == ParseValue(cfg, t, depth)
  {
    hide ParseArray, ParseObject, ParseToken, ParseString, Trim;
    TrimTwice(t);
  }

  lemma ObjectParses(cfg: Config, t: Tree, depth: nat, rest: Text)
    requires t.Object? && Grammatical(cfg, t, depth)
    ensures Core(t) != [] && Core(t)[0] == OPEN_OBJECT
    ensures ParseObject(cfg, Core(t)[1..] + rest, depth) == Some((ValueOf(cfg.codec, t), rest))
    decreases t, 0
  {
    hide IsNumber, Decode, YieldItems, Spelled, Stops;
    if t.pairs == [] {
      assert Core(t)[1..] + rest == t.inner + ([CLOSE_OBJECT] + rest);
      TrimBlank(t.inner, [CLOSE_OBJECT] + rest);
    } else {
      assert Core(t)[1..] == YieldPairs(t.pairs);
      var inner := Trim(YieldPairs(t.pairs) + rest);
      TrimTwice(YieldPairs(t.pairs) + rest);
      PairsStart(cfg, t.pairs, depth, rest);
      PairsParse(cfg, t.pairs, depth, [], rest);
      assert [] + PairValues(cfg.codec, t.pairs) == PairValues(cfg.codec, t.pairs);
    }
  }

  lemma PairsStart(cfg: Config, pairs: seq<Pair>, depth: nat, rest: Text)
    requires pairs != [] && GrammaticalPairs(cfg, pairs, depth)
    ensures var inner := Trim(YieldPairs(pairs) + rest); inner != [] && inner[0] != CLOSE_OBJECT
    ensures ParseMembers(cfg, Trim(YieldPairs(pairs) + rest), depth, []) ==
            ParseMembers(cfg, YieldPairs(pairs) + rest, depth, [])
  {
    hide Grammatical, Yield, Core, Decode, Spelled, ParseString, ParseValue;
    var p := pairs[0];
    var tail := if |pairs| == 1 then [CLOSE_OBJECT] else [COMMA] + YieldPairs(pairs[1..]);
    var core := [QUOTE] + (p.body + ([QUOTE] + (p.gap + ([COLON] + (Yield(p.value) + p.trail))))) + (tail + rest);
    assert YieldPairs(pairs) + rest == p.lead + core;
    TrimBlank(p.lead, core);
    TrimTwice(YieldPairs(pairs) + rest);
  }

  lemma {:induction false} PairsParse(cfg: Config, pairs: seq<Pair>, depth: nat, done: seq<Member>, rest: Text)
    requires pairs != [] && GrammaticalPairs(cfg, pairs, depth) && |done| + |pairs| <= MAX_PROPERTIES
    requires forall i :: 0 <= i < |pairs| ==> Spelled(pairs[i].body) !in KeysOf(done)
    requires forall i, j :: 0 <= i < j < |pairs| ==> Spelled(pairs[i].body) != Spelled(pairs[j].body)
    ensures ParseMembers(cfg, YieldPairs(pairs) + rest, depth, done) ==
            Some((Obj(done + PairValues(cfg.codec, pairs)), rest))
    decreases pairs
  {
    hide Grammatical, Yield, ParseValue, Trim, Decode, Spelled, ParseName, DANGEROUS, KeysOf, Quoted, ValueOf;
    KeysSnoc(done, Member(Spelled(pairs[0].body), ValueOf(cfg.codec, pairs[0].value)));
    var p := pairs[0];
    var closing := if |pairs| == 1 then [CLOSE_OBJECT] else [COMMA] + YieldPairs(pairs[1..]);
    var tail := p.trail + (closing + rest);
    assert YieldPairs(pairs) + rest == p.lead + (Quoted(p.body) + (p.gap + ([COLON] + (Yield(p.value) + tail))));
    NameParses(p, done, Yield(p.value) + tail);
    ValueParses(cfg, p.value, depth + 1, tail);
    TrimBlank(p.trail, closing + rest);
    var m := Member(Spelled(p.body), ValueOf(cfg.codec, p.value));
    if |pairs| == 1 {
      assert (closing + rest)[1..] == rest;
      assert done + PairValues(cfg.codec, pairs) == done + [m];
    } else {
      assert (closing + rest)[1..] == YieldPairs(pairs[1..]) + rest;
      forall i | 0 <= i < |pairs[1..]| ensures Spelled(pairs[1..][i].body) !in KeysOf(done + [m]) {
        assert pairs[1..][i] == pairs[i + 1];
      }
      PairsParse(cfg, pairs[1..], depth, done + [m], rest);
      assert (done + [m]) + PairValues(cfg.codec, pairs[1..]) == done + PairValues(cfg.codec, pairs);
    }
  }

  lemma NameParses(p: Pair, done: seq<Member>, rest: Text)
    requires Blank(p.lead) && Blank(p.gap) && Decode(p.body).Some?
    requires Spelled(p.body) !in DANGEROUS && Spelled(p.body) !in KeysOf(done) && |done| + 1 <= MAX_PROPERTIES
    ensures ParseName(p.lead + (Quoted(p.body) + (p.gap + ([COLON] + rest))), done) == Some((Spelled(p.body), rest))
  {
    hide Decode, Spelled, ParseString, Trim, DANGEROUS, KeysOf;
    var after := p.gap + ([COLON] + rest);
    TrimBlank(p.lead, Quoted(p.body) + after);
    StringParses(p.body, after);
    TrimBlank(p.gap, [COLON] + rest);
    assert ([COLON] + rest)[1..] == rest;
  }

  /* ----- Only grammatical texts parse ----- */

  /** A value that the parser read stands there as a tree, up to what follows it. */
  lemma {:induction false} ValueDerives(cfg: Config, t: Text, depth: nat) returns (tree: Tree)
    requires ParseValue(cfg, t, depth).Some?
    ensures var (v, rest) := ParseValue(cfg, t, depth).value;
            Grammatical(cfg, tree, depth) && Yield(tree) + rest == t && ValueOf(cfg.codec, tree) == v
    decreases |t|, 1
  {
    hide Grammatical, Yield, ValueOf, ParseArray, ParseObject, ParseToken, ParseString, Blank, Trim;
    var lead := LeadOf(t);
    var s := Trim(t);
    if s[0] == QUOTE {
      tree := LiteralDerives(cfg, s, depth, lead);
    } else if s[0] == OPEN_ARRAY {
      assert s == [OPEN_ARRAY] + s[1..];
      tree := ArrayDerives(cfg, s[1..], depth, lead);
    } else if s[0] == OPEN_OBJECT {
      assert s == [OPEN_OBJECT] + s[1..];
      tree := ObjectDerives(cfg, s[1..], depth, lead);
    } else {
      tree := TokenDerives(cfg, s, depth, lead);
    }
  }

  lemma LiteralDerives(cfg: Config, t: Text, depth: nat, lead: Text) returns (tree: Tree)
    requires t != [] && t[0] == QUOTE && ParseString(t).Some? && depth <= MAX_DEPTH && Blank(lead)
    ensures var (s, rest) := ParseString(t).value;
            Grammatical(cfg, tree, depth) && Yield(tree) + rest == lead + t && ValueOf(cfg.codec, tree) == Str(s)
  {
    hide Decode, ParseString, Spelled, Quoted;
    var body := StringDerives(t);
    tree := String(lead, body);
  }

  /** The white space that trimming removes. */
  lemma {:induction false} LeadOf(t: Text) returns (lead: Text)
    ensures Blank(lead) && lead + Trim(t) == t
  {
    if t != [] && White(t[0]) {
      var more := LeadOf(t[1..]);
      lead := [t[0]] + more;
    } else {
      lead := [];
    }
  }

  lemma StringDerives(t: Text) returns (body: Text)
    requires t != [] && t[0] == QUOTE && ParseString(t).Some?
    ensures Decode(body).Some? && t == Quoted(body) + ParseString(t).value.1 && ParseString(t).value.0 == Spelled(body)
  {
    hide Decode;
    var n := BodyLength(t[1..]).value;
    body := t[1..n + 1];
    assert t[n + 1] == t[1..][n];
    assert t == [t[0]] + t[1..n + 1] + [t[n + 1]] + t[n + 2..];
  }

  lemma TokenDerives(cfg: Config, t: Text, depth: nat, lead: Text) returns (tree: Tree)
    requires ParseToken(cfg.codec, t).Some? && depth <= MAX_DEPTH && Blank(lead)
    ensures var (v, rest) := ParseToken(cfg.codec, t).value;
            Grammatical(cfg, tree, depth) && Yield(tree) + rest == lead + t && ValueOf(cfg.codec, tree) == v
  {
    hide NumberLength, IsNumber, StartsWith, Blank;
    if StartsWith(t, TRUE) {
      tree := Name(lead, Bool(true));
      WordStands(t, TRUE, lead);
    } else if StartsWith(t, FALSE) {
      tree := Name(lead, Bool(false));
      WordStands(t, FALSE, lead);
    } else if StartsWith(t, NULL) {
      tree := Name(lead, Null);
      WordStands(t, NULL, lead);
    } else {
      var n := NumberLength(t);
      NumberCut(t);
      tree := Number(lead, t[..n]);
      assert t == t[..n] + t[n..];
      assert (lead + t[..n]) + t[n..] == lead + t;
    }
  }

  lemma WordStands(t: Text, word: Text, lead: Text)
    requires StartsWith(t, word)
    ensures (lead + word) + t[|word|..] == lead + t
  {
    assert t == t[..|word|] + t[|word|..];
  }

  lemma ArrayDerives(cfg: Config, t: Text, depth: nat, lead: Text) returns (tree: Tree)
    requires ParseArray(cfg, t, depth).Some? && depth <= MAX_DEPTH && Blank(lead)
    ensures var (v, rest) := ParseArray(cfg, t, depth).value;
            Grammatical(cfg, tree, depth) && Yield(tree) + rest == lead + ([OPEN_ARRAY] + t)
                && ValueOf(cfg.codec, tree) == v
    decreases |t|, 3, 1
  {
    hide ParseItems, Grammatical, Yield, ValueOf, Trim, Blank;
    var s, rest := Trim(t), ParseArray(cfg, t, depth).value.1;
    if s != [] && s[0] == CLOSE_ARRAY {
      var inner := LeadOf(t);
      assert s == [CLOSE_ARRAY] + rest;
      tree := EmptyArray(cfg, depth, lead, inner, rest);
    } else {
      tree := FullArray(cfg, t, depth, lead);
    }
  }

  lemma EmptyArray(cfg: Config, depth: nat, lead: Text, inner: Text, rest: Text) returns (tree: Tree)
    requires depth <= MAX_DEPTH && Blank(lead) && Blank(inner)
    ensures Grammatical(cfg, tree, depth)
            && Yield(tree) + rest == lead + ([OPEN_ARRAY] + (inner + ([CLOSE_ARRAY] + rest)))
    ensures ValueOf(cfg.codec, tree) == Arr([])
  {
    hide YieldItems;
    tree := Array(lead, inner, []);
  }

  lemma FullArray(cfg: Config, t: Text, depth: nat, lead: Text) returns (tree: Tree)
    requires ParseItems(cfg, Trim(t), depth, []).Some? && depth <= MAX_DEPTH && Blank(lead)
    ensures var (v, rest) := ParseItems(cfg, Trim(t), depth, []).value;
            Grammatical(cfg, tree, depth) && Yield(tree) + rest == lead + ([OPEN_ARRAY] + t)
                && ValueOf(cfg.codec, tree) == v
    decreases |t|, 3, 0
  {
    hide ParseItems, Trim, YieldItems;
    TrimmedItems(cfg, t, depth, []);
    var rest := ParseItems(cfg, t, depth, []).value.1;
    var items := ItemsDerive(cfg, t, depth, []);
    tree := Array(lead, [], items);
    assert Yield(tree) + rest == lead + ([OPEN_ARRAY] + (YieldItems(items) + rest));
    assert [] + ItemValues(cfg.codec, items) == ItemValues(cfg.codec, items);
  }

  lemma TrimmedItems(cfg: Config, t: Text, depth: nat, done: seq<Json>)
    ensures ParseItems(cfg, Trim(t), depth, done) == ParseItems(cfg, t, depth, done)
  {
    hide ParseValue, Trim;
    TrimTwice(t);
  }

  lemma {:induction false} ItemsDerive(cfg: Config, t: Text, depth: nat, done: seq<Json>) returns (items: seq<Item>)
    requires ParseItems(cfg, t, depth, done).Some?
    ensures items != [] && GrammaticalItems(cfg, items, depth) && |done| + |items| <= cfg.maxArray
    ensures YieldItems(items) + ParseItems(cfg, t, depth, done).value.1 == t
    ensures ParseItems(cfg, t, depth, done).value.0 == Arr(done + ItemValues(cfg.codec, items))
    decreases |t|, 2
  {
    hide Grammatical, ParseValue, Trim, Yield;
    TrimmedParses(cfg, t, depth + 1);
    var (v, after) := ParseValue(cfg, t, depth + 1).value;
    var tree := ValueDerives(cfg, t, depth + 1);
    var trail := LeadOf(after);
    var rest := Trim(after);
    var item := Item(tree, trail);
    if rest[0] == CLOSE_ARRAY {
      items := [item];
      assert YieldItems(items) + rest[1..] == Yield(tree) + (trail + ([CLOSE_ARRAY] + rest[1..]));
      assert rest == [CLOSE_ARRAY] + rest[1..];
      assert done + ItemValues(cfg.codec, items) == done + [v];
    } else {
      var more := ItemsDerive(cfg, rest[1..], depth, done + [v]);
      items := [item] + more;
      assert items[1..] == more;
      var final := ParseItems(cfg, t, depth, done).value.1;
      assert YieldItems(items) + final == Yield(tree) + (trail + ([COMMA] + (YieldItems(more) + final)));
      assert rest == [COMMA] + rest[1..];
      assert (done + [v]) + ItemValues(cfg.codec, more) == done + ItemValues(cfg.codec, items);
    }
  }

  lemma ObjectDerives(cfg: Config, t: Text, depth: nat, lead: Text) returns (tree: Tree)
    requires ParseObject(cfg, t, depth).Some? && depth <= MAX_DEPTH && Blank(lead)
    ensures var (v, rest) := ParseObject(cfg, t, depth).value;
            Grammatical(cfg, tree, depth) && Yield(tree) + rest == lead + ([OPEN_OBJECT] + t)
                && ValueOf(cfg.codec, tree) == v
    decreases |t|, 3, 1
  {
    hide ParseMembers, Grammatical, Yield, ValueOf, Trim, Blank;
    var s, rest := Trim(t), ParseObject(cfg, t, depth).value.1;
    if s != [] && s[0] == CLOSE_OBJECT {
      var inner := LeadOf(t);
      assert s == [CLOSE_OBJECT] + rest;
      tree := EmptyObject(cfg, depth, lead, inner, rest);
    } else {
      tree := MembersDerive(cfg, t, depth, lead);
    }
  }

  lemma EmptyObject(cfg: Config, depth: nat, lead: Text, inner: Text, rest: Text) returns (tree: Tree)
    requires depth <= MAX_DEPTH && Blank(lead) && Blank(inner)
    ensures Grammatical(cfg, tree, depth)
            && Yield(tree) + rest == lead + ([OPEN_OBJECT] + (inner + ([CLOSE_OBJECT] + rest)))
    ensures ValueOf(cfg.codec, tree) == Obj([])
  {
    hide YieldPairs;
    tree := Object(lead, inner, []);
  }

  lemma MembersDerive(cfg: Config, t: Text, depth: nat, lead: Text) returns (tree: Tree)
    requires ParseMembers(cfg, Trim(t), depth, []).Some? && depth <= MAX_DEPTH && Blank(lead)
    ensures var (v, rest) := ParseMembers(cfg, Trim(t), depth, []).value;
            Grammatical(cfg, tree, depth) && Yield(tree) + rest == lead + ([OPEN_OBJECT] + t)
                && ValueOf(cfg.codec, tree) == v
    decreases |t|, 3, 0
  {
    hide ParseMembers, Trim, YieldPairs, Decode, Spelled;
    TrimmedMembers(cfg, t, depth, []);
    var rest := ParseMembers(cfg, t, depth, []).value.1;
    var pairs := PairsDerive(cfg, t, depth, []);
    tree := Object(lead, [], pairs);
    assert Yield(tree) + rest == lead + ([OPEN_OBJECT] + (YieldPairs(pairs) + rest));
    assert [] + PairValues(cfg.codec, pairs) == PairValues(cfg.codec, pairs);
  }

  lemma TrimmedMembers(cfg: Config, t: Text, depth: nat, done: seq<Member>)
    ensures ParseMembers(cfg, Trim(t), depth, done) == ParseMembers(cfg, t, depth, done)
  {
    hide ParseValue, Trim, ParseString;
    TrimTwice(t);
  }

  lemma NameDerives(t: Text, done: seq<Member>) returns (lead: Text, body: Text, gap: Text)
    requires ParseName(t, done).Some?
    ensures var (key, rest) := ParseName(t, done).value;
            && Blank(lead) && Blank(gap) && Decode(body).Some? && key == Spelled(body)
            && key !in DANGEROUS && key !in KeysOf(done) && |done| + 1 <= MAX_PROPERTIES
            && t == lead + (Quoted(body) + (gap + ([COLON] + rest)))
  {
    hide Decode, Spelled, ParseString, Trim, DANGEROUS, KeysOf;
    lead := LeadOf(t);
    var s := Trim(t);
    body := StringDerives(s);
    var after := ParseString(s).value.1;
    gap := LeadOf(after);
    var colon := Trim(after);
    assert colon == [COLON] + colon[1..];
  }

  lemma {:induction false} PairsDerive(cfg: Config, t: Text, depth: nat, done: seq<Member>) returns (pairs: seq<Pair>)
    requires ParseMembers(cfg, t, depth, done).Some?
    ensures pairs != [] && GrammaticalPairs(cfg, pairs, depth) && |done| + |pairs| <= MAX_PROPERTIES
    ensures forall i :: 0 <= i < |pairs| ==> Spelled(pairs[i].body) !in KeysOf(done)
    ensures forall i, j :: 0 <= i < j < |pairs| ==> Spelled(pairs[i].body) != Spelled(pairs[j].body)
    ensures YieldPairs(pairs) + ParseMembers(cfg, t, depth, done).value.1 == t
    ensures ParseMembers(cfg, t, depth, done).value.0 == Obj(done + PairValues(cfg.codec, pairs))
    decreases |t|, 2
  {
    hide Grammatical, ParseValue, Trim, Yield, ParseName, Decode, Spelled, DANGEROUS, KeysOf, Quoted, YieldPair,
         ValueOf;
    var lead, body, gap := NameDerives(t, done);
    var (key, afterColon) := ParseName(t, done).value;
    var (v, after) := ParseValue(cfg, afterColon, depth + 1).value;
    var tree := ValueDerives(cfg, afterColon, depth + 1);
    var trail := LeadOf(after);
    var rest := Trim(after);
    var p := Pair(lead, body, gap, tree, trail);
    var final := ParseMembers(cfg, t, depth, done).value.1;
    if rest[0] == CLOSE_OBJECT {
      pairs := [p];
      PairText(p, [CLOSE_OBJECT] + final);
      assert YieldPairs(pairs) + final == YieldPair(p) + ([CLOSE_OBJECT] + final);
      assert rest == [CLOSE_OBJECT] + rest[1..];
      assert done + PairValues(cfg.codec, pairs) == done + [Member(key, v)];
    } else {
      var more := PairsDerive(cfg, rest[1..], depth, done + [Member(key, v)]);
      pairs := [p] + more;
      assert pairs[1..] == more;
      PairText(p, [COMMA] + (YieldPairs(more) + final));
      assert YieldPairs(pairs) + final == YieldPair(p) + ([COMMA] + (YieldPairs(more) + final));
      assert rest == [COMMA] + rest[1..];
      assert (done + [Member(key, v)]) + PairValues(cfg.codec, more) == done + PairValues(cfg.codec, pairs);
      KeysSnoc(done, Member(key, v));
      forall i, j | 0 <= i < j < |pairs| ensures Spelled(pairs[i].body) != Spelled(pairs[j].body) {
        assert pairs[j] == more[j - 1];
        if i > 0 { assert pairs[i] == more[i - 1]; }
      }
    }
  }

  lemma PairText(p: Pair, rest: Text)
    ensures YieldPair(p) + rest == p.lead + (Quoted(p.body) + (p.gap + ([COLON] + (Yield(p.value) + (p.trail + rest)))))
  {
    hide Yield;
  }

  /* ----- Main results ----- */

  /** A text spells a value: it is a grammatical tree of the value and white space. */
  predicate Spells(cfg: Config, t: Text, v: Json, tree: Tree, trail: Text) {
    Grammatical(cfg, tree, 0) && Blank(trail) && t == Yield(tree) + trail && ValueOf(cfg.codec, tree) == v
  }

  /** The parser returns a value exactly on the texts that spell it. */
  lemma ParsesExactly(cfg: Config, t: Text, v: Json)
    ensures Parse(cfg, t) == Some(v) <==> exists tree, trail :: Spells(cfg, t, v, tree, trail)
  {
    hide Grammatical, Yield, ValueOf, ParseValue;
    if Parse(cfg, t) == Some(v) {
      var tree := ValueDerives(cfg, t, 0);
      var trail := LeadOf(ParseValue(cfg, t, 0).value.1);
      assert Spells(cfg, t, v, tree, trail);
    }
    if tree, trail :| Spells(cfg, t, v, tree, trail) {
      ValueParses(cfg, tree, 0, trail);
      TrimBlank(trail, []);
      assert trail + [] == trail;
    }
  }

  lemma {:induction false} TreeNative(cfg: Config, t: Tree, depth: nat)
    requires Grammatical(cfg, t, depth) && Faithful(cfg.codec)
    ensures Native(cfg.codec, ValueOf(cfg.codec, t))
            && Sendable(ValueOf(cfg.codec, t), Limits(cfg.maxArray, MAX_PROPERTIES), depth)
    decreases t
  {
    hide Decode, IsNumber, DANGEROUS, Representable;
    match t {
      case Name(_, _) =>
      case Number(_, _) =>
      case String(_, _) =>
      case Array(_, _, items) => ItemsNative(cfg, items, depth);
      case Object(_, _, pairs) =>
        PairsNative(cfg, pairs, depth);
        PairKeys(cfg.codec, pairs);
    }
  }

  lemma {:induction false} ItemsNative(cfg: Config, items: seq<Item>, depth: nat)
    requires GrammaticalItems(cfg, items, depth) && Faithful(cfg.codec)
    ensures forall v <- ItemValues(cfg.codec, items) ::
              Native(cfg.codec, v) && Sendable(v, Limits(cfg.maxArray, MAX_PROPERTIES), depth + 1)
    decreases items
  {
    hide Grammatical, ValueOf, Native, Sendable, Faithful;
    if items != [] {
      TreeNative(cfg, items[0].value, depth + 1);
      ItemsNative(cfg, items[1..], depth);
    }
  }

  lemma {:induction false} PairsNative(cfg: Config, pairs: seq<Pair>, depth: nat)
    requires GrammaticalPairs(cfg, pairs, depth) && Faithful(cfg.codec)
    ensures forall m <- PairValues(cfg.codec, pairs) ::
              m.key !in DANGEROUS && Native(cfg.codec, m.value)
                  && Sendable(m.value, Limits(cfg.maxArray, MAX_PROPERTIES), depth + 1)
    decreases pairs
  {
    hide Grammatical, ValueOf, Native, Sendable, Faithful, Decode, Spelled, DANGEROUS;
    if pairs != [] {
      TreeNative(cfg, pairs[0].value, depth + 1);
      PairsNative(cfg, pairs[1..], depth);
    }
  }

  lemma {:induction false} PairKeys(c: Codec, pairs: seq<Pair>)
    ensures forall i :: 0 <= i < |pairs| ==> PairValues(c, pairs)[i].key == Spelled(pairs[i].body)
  {
    hide ValueOf, Spelled;
    if pairs != [] {
      PairKeys(c, pairs[1..]);
      forall i | 0 <= i < |pairs| ensures PairValues(c, pairs)[i].key == Spelled(pairs[i].body) {
        if i > 0 { assert pairs[i] == pairs[1..][i - 1]; }
      }
    }
  }

  /** Every value the parser returns is one the checker accepts. */
  lemma ParsedIsSendable(cfg: Config, t: Text)
    requires Faithful(cfg.codec) && Parse(cfg, t).Some?
    ensures Native(cfg.codec, Parse(cfg, t).value)
    ensures Sendable(Parse(cfg, t).value, Limits(cfg.maxArray, MAX_PROPERTIES), 0)
  {
    hide Faithful, Grammatical, Yield, ValueOf, ParseValue, Native, Sendable;
    var tree := ValueDerives(cfg, t, 0);
    TreeNative(cfg, tree, 0);
  }

  /* ----- Printing ----- */

  function HexDigit(n: int): Unit
    requires 0 <= n < 16
  {
    if n < 10 then (48 + n) as Unit else (87 + n) as Unit
  }

  function HexEscape(u: Unit): Text {
    var n := u as int;
    [BACKSLASH, LOWER_U, HexDigit(n / 16 / 16 / 16), HexDigit(n / 16 / 16 % 16), HexDigit(n / 16 % 16),
     HexDigit(n % 16)]
  }

  predicate Leading(u: Unit) { 0xD800 <= u < 0xDC00 }

  predicate Trailing(u: Unit) { 0xDC00 <= u < 0xE000 }

  /** The text between the quotes that stands for a string; a surrogate without its partner is escaped. */
  function Escape(s: Text): Text {
    if s == [] then []
    else if |s| > 1 && Leading(s[0]) && Trailing(s[1]) then [s[0], s[1]] + Escape(s[2..])
    else EscapeUnit(s[0]) + Escape(s[1..])
  }

  function EscapeUnit(u: Unit): Text {
    if u == QUOTE || u == BACKSLASH then [BACKSLASH, u]
    else if u == 8 then [BACKSLASH, 98]
    else if u == 9 then [BACKSLASH, 116]
    else if u == 10 then [BACKSLASH, 110]
    else if u == 12 then [BACKSLASH, 102]
    else if u == 13 then [BACKSLASH, 114]
    else if u < 32 || Leading(u) || Trailing(u) then HexEscape(u)
    else [u]
  }

  lemma HexReads(u: Unit)
    ensures Hex4(HexEscape(u)[2..6]) == Some(u)
  {
    hide HexDigit, HexValue;
    var n := u as int;
    HexDigitReads(n / 16 / 16 / 16);
    HexDigitReads(n / 16 / 16 % 16);
    HexDigitReads(n / 16 % 16);
    HexDigitReads(n % 16);
  }

  lemma HexDigitReads(n: int)
    requires 0 <= n < 16
    ensures HexValue(HexDigit(n)) == Some(n as Unit)
  {
  }

  lemma UnitReads(u: Unit, rest: Text)
    ensures Decode(EscapeUnit(u) + rest) == Prepend(u, Decode(rest))
  {
    hide HexEscape, Hex4;
    var t := EscapeUnit(u) + rest;
    if EscapeUnit(u) == HexEscape(u) {
      HexUnitReads(u, rest);
    } else if |EscapeUnit(u)| == 2 {
      assert t[2..] == rest;
    } else {
      assert t[1..] == rest;
    }
  }

  lemma HexUnitReads(u: Unit, rest: Text)
    ensures Decode(HexEscape(u) + rest) == Prepend(u, Decode(rest))
  {
    hide Hex4, HexDigit;
    HexReads(u);
    var t := HexEscape(u) + rest;
    assert t[2..6] == HexEscape(u)[2..6] && t[6..] == rest;
  }

  lemma PlainReads(u: Unit, rest: Text)
    requires u >= 32 && u != QUOTE && u != BACKSLASH
    ensures Decode([u] + rest) == Prepend(u, Decode(rest))
  {
    assert ([u] + rest)[1..] == rest;
  }

  lemma {:induction false} EscapeReads(s: Text)
    ensures Decode(Escape(s)) == Some(s)
  {
    hide EscapeUnit, Decode;
    if s == [] {
      EmptyReads();
    } else if |s| > 1 && Leading(s[0]) && Trailing(s[1]) {
      var rest := Escape(s[2..]);
      EscapeReads(s[2..]);
      PlainReads(s[1], rest);
      PlainReads(s[0], [s[1]] + rest);
      assert Escape(s) == [s[0]] + ([s[1]] + rest);
      assert s == [s[0]] + ([s[1]] + s[2..]);
    } else {
      EscapeReads(s[1..]);
      UnitReads(s[0], Escape(s[1..]));
      assert s == [s[0]] + s[1..];
    }
  }

  lemma EmptyReads()
    ensures Decode([]) == Some([])
  {
  }

  /** The tree that printing without white space writes. */
  function PrintTree(c: Codec, v: Json): Tree {
    match v
    case Num(n) => Number([], c.show(n))
    case Str(s) => String([], Escape(s))
    case Arr(items) => Array([], [], PrintItems(c, items))
    case Obj(members) => Object([], [], PrintPairs(c, members))
    case _ => Name([], v)
  }

  function PrintItems(c: Codec, items: seq<Json>): (r: seq<Item>)
    ensures |r| == |items|
  {
    if items == [] then [] else [Item(PrintTree(c, items[0]), [])] + PrintItems(c, items[1..])
  }

  function PrintPairs(c: Codec, members: seq<Member>): (r: seq<Pair>)
    ensures |r| == |members|
  {
    if members == [] then []
    else [Pair([], Escape(members[0].key), [], PrintTree(c, members[0].value), [])] + PrintPairs(c, members[1..])
  }

  function Print(c: Codec, v: Json): Text { Yield(PrintTree(c, v)) }

  lemma {:induction false} PrintsGrammatically(cfg: Config, v: Json, depth: nat)
    requires Native(cfg.codec, v) && Sendable(v, Limits(cfg.maxArray, MAX_PROPERTIES), depth)
    ensures Grammatical(cfg, PrintTree(cfg.codec, v), depth) && ValueOf(cfg.codec, PrintTree(cfg.codec, v)) == v
    decreases v
  {
    hide IsNumber, DANGEROUS;
    match v {
      case Str(s) => EscapeReads(s);
      case Arr(items) => ItemsPrint(cfg, items, depth);
      case Obj(members) => PairsPrint(cfg, members, depth); PrintedKeys(cfg.codec, members);
      case _ =>
    }
  }

  lemma {:induction false} ItemsPrint(cfg: Config, items: seq<Json>, depth: nat)
    requires forall v <- items :: Native(cfg.codec, v) && Sendable(v, Limits(cfg.maxArray, MAX_PROPERTIES), depth + 1)
    ensures GrammaticalItems(cfg, PrintItems(cfg.codec, items), depth)
            && ItemValues(cfg.codec, PrintItems(cfg.codec, items)) == items
    decreases items
  {
    hide Grammatical, ValueOf, Native, Sendable, PrintTree;
    if items != [] {
      PrintsGrammatically(cfg, items[0], depth + 1);
      ItemsPrint(cfg, items[1..], depth);
      assert PrintItems(cfg.codec, items)[1..] == PrintItems(cfg.codec, items[1..]);
    }
  }

  lemma {:induction false} PairsPrint(cfg: Config, members: seq<Member>, depth: nat)
    requires forall m <- members ::
               m.key !in DANGEROUS && Native(cfg.codec, m.value)
                   && Sendable(m.value, Limits(cfg.maxArray, MAX_PROPERTIES), depth + 1)
    ensures GrammaticalPairs(cfg, PrintPairs(cfg.codec, members), depth)
            && PairValues(cfg.codec, PrintPairs(cfg.codec, members)) == members
    decreases members
  {
    hide Grammatical, ValueOf, Native, Sendable, PrintTree, Decode, Escape, DANGEROUS;
    if members != [] {
      PrintsGrammatically(cfg, members[0].value, depth + 1);
      EscapeReads(members[0].key);
      PairsPrint(cfg, members[1..], depth);
      assert PrintPairs(cfg.codec, members)[1..] == PrintPairs(cfg.codec, members[1..]);
    }
  }

  lemma {:induction false} PrintedKeys(c: Codec, members: seq<Member>)
    ensures forall i :: 0 <= i < |members| ==> Spelled(PrintPairs(c, members)[i].body) == members[i].key
  {
    hide Escape, Decode, PrintTree;
    if members != [] {
      EscapeReads(members[0].key);
      PrintedKeys(c, members[1..]);
      forall i | 0 <= i < |members| ensures Spelled(PrintPairs(c, members)[i].body) == members[i].key {
        if i > 0 { assert members[i] == members[1..][i - 1]; }
      }
    }
  }

  /** Parsing undoes printing, for every value the checker accepts. */
  lemma ParseUndoesPrint(cfg: Config, v: Json)
    requires Native(cfg.codec, v) && Sendable(v, Limits(cfg.maxArray, MAX_PROPERTIES), 0)
    ensures Parse(cfg, Print(cfg.codec, v)) == Some(v)
  {
    hide Native, Sendable, Grammatical, ValueOf, Yield, PrintTree, ParseValue;
    PrintsGrammatically(cfg, v, 0);
    ValueParses(cfg, PrintTree(cfg.codec, v), 0, []);
    assert Print(cfg.codec, v) + [] == Print(cfg.codec, v);
  }
}
