/** The parser as it runs: one shared position moving forward over the text. */
module WireParser {
  import opened Wire
  import opened WireJson

  class Parser {
    const text: Text
    const cfg: Config
    var position: nat

    ghost predicate Valid()
      reads this
    {
      position <= |text|
    }

    /** What is still to be read. */
    ghost function Rest(): Text
      reads this
      requires Valid()
    {
      text[position..]
    }

    constructor (text: Text, cfg: Config)
      ensures this.text == text && this.cfg == cfg && Valid() && position == 0 && Rest() == text
    {
      this.text, this.cfg, position := text, cfg, 0;
    }

    method Space()
      requires Valid()
      modifies this
      ensures Valid() && position >= old(position) && Rest() == Trim(old(Rest()))
    {
      ghost var start := Rest();
      while position < |text| && White(text[position])
        invariant Valid() && position >= old(position) && Trim(Rest()) == Trim(start)
      {
        assert Rest()[1..] == text[position + 1..];
        position := position + 1;
      }
    }

    /** Moves past the closing quote of a literal whose opening quote is already read. */
    method Close() returns (ok: bool)
      requires Valid()
      modifies this
      ensures ok <==> BodyLength(old(Rest())).Some?
      ensures ok ==> Valid() && position == old(position) + BodyLength(old(Rest())).value + 1
    {
      hide BodyLength;
      ghost var start, tail := position, Rest();
      while position < |text|
        invariant start <= position <= |text| + 1
        invariant BodyLength(tail) ==
                  if position > |text| then None else Later(BodyLength(text[position..]), position - start)
      {
        ghost var ahead := text[position..];
        ScanStep(ahead);
        var c := text[position];
        position := position + 1;
        assert ahead[1..] == text[position..];
        if c == BACKSLASH {
          position := position + 1;
          assert position <= |text| ==> ahead[2..] == text[position..];
        } else if c == QUOTE {
          return true;
        }
      }
      if position == |text| { ScanStep([]); }
      ok := false;
    }

    /** Reads a string literal that starts here; on failure the parse is over. */
    method String() returns (r: Option<Text>)
      requires Valid() && position < |text| && text[position] == QUOTE
      modifies this
      ensures match ParseString(old(Rest()))
              case Some((s, rest)) => r == Some(s) && Valid() && position > old(position) && Rest() == rest
              case None => r.None?
    {
      hide BodyLength, Decode;
      ghost var t := Rest();
      var start := position;
      position := position + 1;
      assert Rest() == t[1..];
      var closed := Close();
      if !closed { return None; }
      var body := text[start + 1..position - 1];
      assert body == t[1..position - 1 - start];
      assert Rest() == t[position - start..];
      r := Decode(body);
    }

    method Token() returns (r: Option<Json>)
      requires Valid()
      modifies this
      ensures match ParseToken(cfg.codec, old(Rest()))
              case Some((v, rest)) => r == Some(v) && Valid() && position > old(position) && Rest() == rest
              case None => r.None?
    {
      var ahead := text[position..];
      if StartsWith(ahead, TRUE) { position := position + 4; return Some(Bool(true)); }
      if StartsWith(ahead, FALSE) { position := position + 5; return Some(Bool(false)); }
      if StartsWith(ahead, NULL) { position := position + 4; return Some(Null); }
      var length := NumberLength(ahead);
      if length == 0 { return None; }
      position := position + length;
      var parsed := cfg.codec.read(ahead[..length]);
      if parsed.None? || !Safe(parsed.value) { return None; }
      r := Some(Num(parsed.value));
    }

    method Value(depth: nat) returns (r: Option<Json>)
      requires Valid()
      modifies this
      ensures match ParseValue(cfg, old(Rest()), depth)
              case Some((v, rest)) => r == Some(v) && Valid() && position > old(position) && Rest() == rest
              case None => r.None?
      decreases |text| - position, 1
    {
      if depth > MAX_DEPTH { return None; }
      Space();
      if position == |text| { return None; }
      var c := text[position];
      if c == QUOTE {
        var s := String();
        return if s.Some? then Some(Str(s.value)) else None;
      }
      if c == OPEN_ARRAY || c == OPEN_OBJECT {
        ghost var s := Rest();
        position := position + 1;
        assert Rest() == s[1..];
        Space();
        if position < |text| && text[position] == (if c == OPEN_OBJECT then CLOSE_OBJECT else CLOSE_ARRAY) {
          ghost var inner := Rest();
          position := position + 1;
          assert Rest() == inner[1..];
          return Some(if c == OPEN_OBJECT then Obj([]) else Arr([]));
        }
        if c == OPEN_OBJECT { r := Members(depth); } else { r := Items(depth); }
        return;
      }
      r := Token();
    }

    /** The loop over an array's items. */
    method Items(depth: nat) returns (r: Option<Json>)
      requires Valid()
      modifies this
      ensures match ParseItems(cfg, old(Rest()), depth, [])
              case Some((v, rest)) => r == Some(v) && Valid() && position > old(position) && Rest() == rest
              case None => r.None?
      decreases |text| - position, 2
    {
      ghost var start := Rest();
      var items: seq<Json> := [];
      while position < |text|
        invariant Valid() && position >= old(position)
        invariant ParseItems(cfg, start, depth, []) == ParseItems(cfg, Rest(), depth, items)
        decreases |text| - position
      {
        Space();
        var item := Value(depth + 1);
        if item.None? { return None; }
        items := items + [item.value];
        if |items| > cfg.maxArray { return None; }
        Space();
        if position == |text| { return None; }
        var separator := text[position];
        ghost var rest := Rest();
        position := position + 1;
        assert Rest() == rest[1..];
        if separator == CLOSE_ARRAY { return Some(Arr(items)); }
        if separator != COMMA { return None; }
      }
      r := None;
    }

    /** A member's key, new and harmless, with its colon. */
    method Name(keys: set<Text>, ghost done: seq<Member>) returns (r: Option<Text>)
      requires Valid() && keys == KeysOf(done) && |keys| == |done|
      modifies this
      ensures match ParseName(old(Rest()), done)
              case Some((key, rest)) =>
                r == Some(key) && key !in keys && Valid() && position > old(position) && Rest() == rest
              case None => r.None?
    {
      Space();
      if position == |text| || text[position] != QUOTE { return None; }
      var key := String();
      if key.None? { return None; }
      if key.value in keys || key.value in DANGEROUS { return None; }
      if |keys + {key.value}| > MAX_PROPERTIES { return None; }
      Space();
      if position == |text| { return None; }
      var colon := text[position];
      ghost var rest := Rest();
      position := position + 1;
      assert Rest() == rest[1..];
      if colon != COLON { return None; }
      r := key;
    }

    /** The loop over an object's members. */
    method Members(depth: nat) returns (r: Option<Json>)
      requires Valid()
      modifies this
      ensures match ParseMembers(cfg, old(Rest()), depth, [])
              case Some((v, rest)) => r == Some(v) && Valid() && position > old(position) && Rest() == rest
              case None => r.None?
      decreases |text| - position, 2
    {
      hide ParseName, ParseValue, Trim, KeysOf;
      ghost var start := Rest();
      NoKeys();
      var members: seq<Member>, keys: set<Text> := [], {};
      while position < |text|
        invariant Valid() && position >= old(position) && keys == KeysOf(members) && |keys| == |members|
        invariant ParseMembers(cfg, start, depth, []) == ParseMembers(cfg, Rest(), depth, members)
        decreases |text| - position
      {
        var key := Name(keys, members);
        if key.None? { return None; }
        keys := keys + {key.value};
        var value := Value(depth + 1);
        if value.None? { return None; }
        KeysSnoc(members, Member(key.value, value.value));
        members := members + [Member(key.value, value.value)];
        Space();
        if position == |text| { return None; }
        var separator := text[position];
        ghost var rest := Rest();
        position := position + 1;
        assert Rest() == rest[1..];
        if separator == CLOSE_OBJECT { return Some(Obj(members)); }
        if separator != COMMA { return None; }
      }
      r := None;
    }
  }

  lemma NoKeys()
    ensures KeysOf([]) == {}
  {
  }

  method ParseWireJson(text: Text, cfg: Config) returns (r: Option<Json>)
    ensures r == Parse(cfg, text)
  {
    var parser := new Parser(text, cfg);
    var result := parser.Value(0);
    if result.None? { return None; }
    parser.Space();
    if parser.position != |text| { return None; }
    r := result;
  }
}
