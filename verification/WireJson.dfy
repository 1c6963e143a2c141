/** The bounded JSON of the wire: the grammar of section 2 onward of RFC 8259 with limits, the recursive-descent
    parser over UTF-16 code units, and the separate check of values. */
module WireJson {
  import opened Wire

  /* ----- Text ----- */

  /** A UTF-16 code unit. */
  newtype Unit = x: int | 0 <= x < 0x1_0000

  type Text = seq<Unit>

  const QUOTE: Unit := 34
  const COMMA: Unit := 44
  const COLON: Unit := 58
  const OPEN_ARRAY: Unit := 91
  const BACKSLASH: Unit := 92
  const CLOSE_ARRAY: Unit := 93
  const LOWER_U: Unit := 117
  const OPEN_OBJECT: Unit := 123
  const CLOSE_OBJECT: Unit := 125

  const TRUE: Text := [116, 114, 117, 101]
  const FALSE: Text := [102, 97, 108, 115, 101]
  const NULL: Text := [110, 117, 108, 108]

  /** __proto__, prototype, constructor */
  const DANGEROUS: set<Text> := {
    [95, 95, 112, 114, 111, 116, 111, 95, 95],
    [112, 114, 111, 116, 111, 116, 121, 112, 101],
    [99, 111, 110, 115, 116, 114, 117, 99, 116, 111, 114]
  }

  predicate White(u: Unit) { u == 9 || u == 10 || u == 13 || u == 32 }

  predicate IsDigit(u: Unit) { 48 <= u <= 57 }

  predicate Blank(t: Text) { forall u <- t :: White(u) }

  /** Leading white space removed. */
  function Trim(t: Text): (r: Text)
    ensures |r| <= |t| && (r != [] ==> !White(r[0]))
  {
    if t != [] && White(t[0]) then Trim(t[1..]) else t
  }

  /* ----- Values ----- */

  datatype Json =
    | Null
    | Bool(b: bool)
    | Num(n: real)
    | Str(s: Text)
    | Arr(items: seq<Json>)
    | Obj(members: seq<Member>)

  /** Members in the order of their keys' first appearance. */
  datatype Member = Member(key: Text, value: Json)

  /** The platform's numbers: the value of a numeric token, none when it is not finite, and the text of a number. */
  datatype Codec = Codec(read: Text -> Option<real>, show: real -> Text)

  const MAX_SAFE: real := 9007199254740991.0

  predicate Safe(n: real) { n.Floor as real == n ==> -MAX_SAFE <= n <= MAX_SAFE }

  predicate Representable(c: Codec, n: real) { IsNumber(c.show(n)) && c.read(c.show(n)) == Some(n) }

  /** Numbers that were read print and read back the same. */
  ghost predicate Faithful(c: Codec) { forall t :: c.read(t).Some? ==> Representable(c, c.read(t).value) }

  datatype Limits = Limits(maxArray: nat, maxProperties: nat)

  const MAX_DEPTH: nat := 32

  function KeysOf(members: seq<Member>): set<Text> { set m <- members :: m.key }

  lemma KeysSnoc(done: seq<Member>, m: Member)
    ensures KeysOf(done + [m]) == KeysOf(done) + {m.key}
  {
    forall k ensures k in KeysOf(done + [m]) <==> k in KeysOf(done) + {m.key} {
      if k == m.key { assert (done + [m])[|done|] == m; }
      assert forall x :: x in done + [m] <==> x in done || x == m;
    }
  }

  predicate DistinctKeys(members: seq<Member>) {
    forall i, j :: 0 <= i < j < |members| ==> members[i].key != members[j].key
  }

  /** A value of the platform: its numbers are the platform's and no object has a key twice. */
  predicate Native(c: Codec, v: Json) {
    match v
    case Num(n) => Representable(c, n)
    case Arr(items) => forall i :: 0 <= i < |items| ==> Native(c, items[i])
    case Obj(members) => DistinctKeys(members) && forall i :: 0 <= i < |members| ==> Native(c, members[i].value)
    case _ => true
  }

  /** The values that may be sent: safe numbers, bounded depth and width, harmless keys. */
  predicate Sendable(v: Json, limits: Limits, depth: nat) {
    depth <= MAX_DEPTH
    && match v
       case Num(n) => Safe(n)
       case Arr(items) => |items| <= limits.maxArray && forall i :: 0 <= i < |items| ==>
         Sendable(items[i], limits, depth + 1)
       case Obj(members) =>
         && |members| <= limits.maxProperties
         && forall i :: 0 <= i < |members| ==>
              members[i].key !in DANGEROUS && Sendable(members[i].value, limits, depth + 1)
       case _ => true
  }

  /** The separate checker of values. */
  method JsonValue(v: Json, limits: Limits, depth: nat) returns (ok: bool)
    ensures ok <==> Sendable(v, limits, depth)
  {
    if depth > MAX_DEPTH { return false; }
    match v {
      case Null => return true;
      case Str(_) => return true;
      case Bool(_) => return true;
      case Num(n) => return Safe(n);
      case Arr(items) =>
        if |items| > limits.maxArray { return false; }
        for i := 0 to |items|
          invariant forall j :: 0 <= j < i ==> Sendable(items[j], limits, depth + 1)
        {
          var good := JsonValue(items[i], limits, depth + 1);
          if !good { return false; }
        }
        return true;
      case Obj(members) =>
        if |members| > limits.maxProperties { return false; }
        for i := 0 to |members|
          invariant forall j ::
                    0 <= j < i ==> members[j].key !in DANGEROUS && Sendable(members[j].value, limits, depth + 1)
        {
          if members[i].key in DANGEROUS { return false; }
          var good := JsonValue(members[i].value, limits, depth + 1);
          if !good { return false; }
        }
        return true;
    }
  }

  /* ----- Strings ----- */

  function Prepend(u: Unit, rest: Option<Text>): Option<Text> {
    match rest case Some(t) => Some([u] + t) case None => None
  }

  /** The unit that a one-letter escape stands for. */
  function Unescaped(u: Unit): Option<Unit> {
    if u == QUOTE || u == BACKSLASH || u == 47 then Some(u)
    else if u == 98 then Some(8)
    else if u == 102 then Some(12)
    else if u == 110 then Some(10)
    else if u == 114 then Some(13)
    else if u == 116 then Some(9)
    else None
  }

  function HexValue(u: Unit): Option<Unit> {
    if 48 <= u <= 57 then Some(u - 48)
    else if 65 <= u <= 70 then Some(u - 55)
    else if 97 <= u <= 102 then Some(u - 87)
    else None
  }

  function Hex4(t: Text): Option<Unit>
    requires |t| == 4
  {
    match (HexValue(t[0]), HexValue(t[1]), HexValue(t[2]), HexValue(t[3]))
    case (Some(a), Some(b), Some(c), Some(d)) =>
      var n := a as int * 4096 + b as int * 256 + c as int * 16 + d as int;
      if n < 0x1_0000 then Some(n as Unit) else None
    case _ => None
  }

  /** The text a string literal stands for, given what is between its quotes. */
  function Decode(body: Text): Option<Text> {
    if body == [] then Some([])
    else if body[0] == BACKSLASH then
      if |body| < 2 then None
      else if Unescaped(body[1]).Some? then Prepend(Unescaped(body[1]).value, Decode(body[2..]))
      else if body[1] == LOWER_U && |body| >= 6 && Hex4(body[2..6]).Some?
      then Prepend(Hex4(body[2..6]).value, Decode(body[6..]))
      else None
    else if body[0] == QUOTE || body[0] < 32 then None
    else Prepend(body[0], Decode(body[1..]))
  }

  /** How many units, after the opening quote, up to but not including the closing one. */
  function BodyLength(t: Text): (n: Option<nat>)
    ensures n.Some? ==> n.value < |t| && t[n.value] == QUOTE
  {
    if t == [] then None
    else if t[0] == QUOTE then Some(0)
    else if t[0] == BACKSLASH then
      if |t| < 2 then None else match BodyLength(t[2..]) case Some(n) => Some(n + 2) case None => None
    else match BodyLength(t[1..]) case Some(n) => Some(n + 1) case None => None
  }

  function Later(n: Option<nat>, more: nat): Option<nat> {
    match n case Some(k) => Some(k + more) case None => None
  }

  /** One turn of the scan for a closing quote. */
  lemma ScanStep(t: Text)
    ensures BodyLength(t) ==
            if t == [] then None
            else if t[0] == QUOTE then Some(0)
            else if t[0] == BACKSLASH then if |t| < 2 then None else Later(BodyLength(t[2..]), 2)
            else Later(BodyLength(t[1..]), 1)
  {
  }

  /** A string literal at the start of a text, and what follows it. */
  function ParseString(t: Text): (r: Option<(Text, Text)>)
    requires t != [] && t[0] == QUOTE
    ensures r.Some? ==> |r.value.1| < |t|
  {
    match BodyLength(t[1..])
    case None => None
    case Some(n) =>
      match Decode(t[1..n + 1])
      case None => None
      case Some(s) => Some((s, t[n + 2..]))
  }

  /* ----- Numbers ----- */

  function DigitRun(t: Text): (n: nat)
    ensures n <= |t|
  {
    if t != [] && IsDigit(t[0]) then 1 + DigitRun(t[1..]) else 0
  }

  /** Length of the integer part at the start of a text. */
  function IntLength(t: Text): (n: nat)
    ensures n <= |t|
  {
    var sign := if t != [] && t[0] == 45 then 1 else 0;
    if |t| == sign || !IsDigit(t[sign]) then 0
    else if t[sign] == 48 then sign + 1
    else sign + DigitRun(t[sign..])
  }

  function FracLength(t: Text): (n: nat)
    ensures n <= |t|
  {
    if |t| > 1 && t[0] == 46 && IsDigit(t[1]) then 1 + DigitRun(t[1..]) else 0
  }

  function ExpLength(t: Text): (n: nat)
    ensures n <= |t|
  {
    if t == [] || (t[0] != 69 && t[0] != 101) then 0
    else
      var sign := if |t| > 1 && (t[1] == 43 || t[1] == 45) then 2 else 1;
      if |t| == sign || !IsDigit(t[sign]) then 0 else sign + DigitRun(t[sign..])
  }

  /** Length of the longest number at the start of a text; zero when there is none. */
  function NumberLength(t: Text): (n: nat)
    ensures n <= |t|
  {
    var i := IntLength(t);
    if i == 0 then 0
    else
      var f := i + FracLength(t[i..]);
      f + ExpLength(t[f..])
  }

  predicate IsNumber(t: Text) { t != [] && NumberLength(t) == |t| }

  /* ----- The parser ----- */

  datatype Config = Config(codec: Codec, maxArray: nat)

  const MAX_PROPERTIES: nat := 256

  type Parsed = Option<(Json, Text)>

  predicate StartsWith(t: Text, word: Text) { |word| <= |t| && t[..|word|] == word }

  /** A literal name or a number at the start of a text, and what follows it. */
  function ParseToken(c: Codec, t: Text): (r: Parsed)
    ensures r.Some? ==> |r.value.1| < |t|
  {
    if StartsWith(t, TRUE) then Some((Bool(true), t[4..]))
    else if StartsWith(t, FALSE) then Some((Bool(false), t[5..]))
    else if StartsWith(t, NULL) then Some((Null, t[4..]))
    else
      var n := NumberLength(t);
      if n == 0 then None
      else match c.read(t[..n])
        case None => None
        case Some(x) => if Safe(x) then Some((Num(x), t[n..])) else None
  }

  /** A value at the start of a text, and what follows it. */
  function ParseValue(cfg: Config, t: Text, depth: nat): (r: Parsed)
    ensures r.Some? ==> |r.value.1| < |t|
    decreases |t|, 1
  {
    if depth > MAX_DEPTH then None
    else
      var s := Trim(t);
      if s == [] then None
      else if s[0] == QUOTE then
        match ParseString(s) case Some((text, rest)) => Some((Str(text), rest)) case None => None
      else if s[0] == OPEN_ARRAY then ParseArray(cfg, s[1..], depth)
      else if s[0] == OPEN_OBJECT then ParseObject(cfg, s[1..], depth)
      else ParseToken(cfg.codec, s)
  }

  /** An array whose opening bracket is already read. */
  function ParseArray(cfg: Config, t: Text, depth: nat): (r: Parsed)
    ensures r.Some? ==> |r.value.1| < |t|
    decreases |t|, 3
  {
    var inner := Trim(t);
    if inner != [] && inner[0] == CLOSE_ARRAY then Some((Arr([]), inner[1..])) else ParseItems(cfg, inner, depth, [])
  }

  function ParseObject(cfg: Config, t: Text, depth: nat): (r: Parsed)
    ensures r.Some? ==> |r.value.1| < |t|
    decreases |t|, 3
  {
    var inner := Trim(t);
    if inner != [] && inner[0] == CLOSE_OBJECT then Some((Obj([]), inner[1..])) else ParseMembers(cfg, inner, depth, [])
  }

  /** The rest of an array whose first items are already read. */
  function ParseItems(cfg: Config, t: Text, depth: nat, done: seq<Json>): (r: Parsed)
    ensures r.Some? ==> |r.value.1| < |t|
    decreases |t|, 2
  {
    match ParseValue(cfg, Trim(t), depth + 1)
    case None => None
    case Some((v, after)) =>
      var items, rest := done + [v], Trim(after);
      if |items| > cfg.maxArray || rest == [] then None
      else if rest[0] == CLOSE_ARRAY then Some((Arr(items), rest[1..]))
      else if rest[0] == COMMA then ParseItems(cfg, rest[1..], depth, items)
      else None
  }

  /** A member's key with its colon. */
  function ParseName(t: Text, done: seq<Member>): (r: Option<(Text, Text)>)
    ensures r.Some? ==> |r.value.1| < |t|
  {
    var s := Trim(t);
    if s == [] || s[0] != QUOTE then None
    else match ParseString(s)
      case None => None
      case Some((key, after)) =>
        var colon := Trim(after);
        if key in KeysOf(done) || key in DANGEROUS || |done| + 1 > MAX_PROPERTIES || colon == [] || colon[0] != COLON
        then None
        else Some((key, colon[1..]))
  }

  /** The rest of an object whose first members are already read. */
  function ParseMembers(cfg: Config, t: Text, depth: nat, done: seq<Member>): (r: Parsed)
    ensures r.Some? ==> |r.value.1| < |t|
    decreases |t|, 2
  {
    match ParseName(t, done)
    case None => None
    case Some((key, afterColon)) =>
      match ParseValue(cfg, afterColon, depth + 1)
      case None => None
      case Some((v, after)) =>
        var members, rest := done + [Member(key, v)], Trim(after);
        if rest == [] then None
        else if rest[0] == CLOSE_OBJECT then Some((Obj(members), rest[1..]))
        else if rest[0] == COMMA then ParseMembers(cfg, rest[1..], depth, members)
        else None
  }

  /** A whole text. */
  function Parse(cfg: Config, t: Text): Option<Json> {
    match ParseValue(cfg, t, 0)
    case Some((v, rest)) => if Trim(rest) == [] then Some(v) else None
    case None => None
  }
}
