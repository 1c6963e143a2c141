/** JSON Pointers, after section 4 of RFC 6901: the two-pass encoder and the two-pass decoder. */
module Pointer {

  /** Every occurrence of one character replaced by a text. */
  function ReplaceChar(s: string, c: char, other: string): string {
    if s == [] then [] else (if s[0] == c then other else [s[0]]) + ReplaceChar(s[1..], c, other)
  }

  /** Every occurrence of a two-character text replaced by a character, left to right. */
  function ReplacePair(s: string, a: char, b: char, other: char): string {
    if |s| < 2 then s
    else if s[0] == a && s[1] == b then [other] + ReplacePair(s[2..], a, b, other)
    else [s[0]] + ReplacePair(s[1..], a, b, other)
  }

  /** The encoder's two passes: first "~", then "/". */
  function Escape(key: string): string { ReplaceChar(ReplaceChar(key, '~', "~0"), '/', "~1") }

  /** The decoder's two passes: first "~1", then "~0". */
  function Unescape(part: string): string { ReplacePair(ReplacePair(part, '~', '1', '/'), '~', '0', '~') }

  /** The pointer of a list of keys. */
  function Pointer(keys: seq<string>): string {
    if keys == [] then "" else Pointer(keys[..|keys| - 1]) + ("/" + Escape(keys[|keys| - 1]))
  }

  method BuildPointer(parts: seq<string>) returns (result: string)
    ensures result == Pointer(parts)
  {
    result := "";
    for i := 0 to |parts|
      invariant result == Pointer(parts[..i])
    {
      assert parts[..i + 1][..i] == parts[..i];
      result := result + ("/" + ReplaceChar(ReplaceChar(parts[i], '~', "~0"), '/', "~1"));
    }
    assert parts[..|parts|] == parts;
  }

  /** The parts between separators; at least one. */
  function Split(s: string, c: char): (parts: seq<string>)
    ensures parts != []
  {
    if s == [] then [""]
    else
      var rest := Split(s[1..], c);
      if s[0] == c then [""] + rest else [[s[0]] + rest[0]] + rest[1..]
  }

  /** The keys that a pointer stands for. */
  function Keys(pointer: string): seq<string>
    requires pointer != ""
  {
    Decoded(Split(pointer[1..], '/'))
  }

  function Decoded(parts: seq<string>): seq<string> {
    seq(|parts|, i requires 0 <= i < |parts| => Unescape(parts[i]))
  }

  /* ----- They undo each other ----- */

  lemma ReplaceOne(u: char, rest: string, c: char, other: string)
    ensures ReplaceChar([u] + rest, c, other) == (if u == c then other else [u]) + ReplaceChar(rest, c, other)
  {
    assert ([u] + rest)[1..] == rest;
  }

  lemma EscapeOne(c: char, rest: string)
    ensures Escape([c] + rest) == (if c == '~' then "~0" else if c == '/' then "~1" else [c]) + Escape(rest)
  {
    hide ReplaceChar;
    var inner := ReplaceChar(rest, '~', "~0");
    ReplaceOne(c, rest, '~', "~0");
    ReplaceOne(c, inner, '/', "~1");
    if c == '~' {
      assert "~0" + inner == ['~'] + (['0'] + inner);
      ReplaceOne('~', ['0'] + inner, '/', "~1");
      ReplaceOne('0', inner, '/', "~1");
    }
  }

  lemma {:induction false} EscapeHasNoSlash(key: string)
    ensures '/' !in Escape(key)
  {
    if key != [] {
      EscapeHasNoSlash(key[1..]);
      EscapeOne(key[0], key[1..]);
      assert key == [key[0]] + key[1..];
    }
  }

  lemma PairSkips(c: char, t: string, a: char, b: char, other: char)
    requires c != a || t == [] || t[0] != b
    ensures ReplacePair([c] + t, a, b, other) == [c] + ReplacePair(t, a, b, other)
  {
    assert ([c] + t)[1..] == t;
  }

  lemma PairTakes(t: string, a: char, b: char, other: char)
    ensures ReplacePair([a, b] + t, a, b, other) == [other] + ReplacePair(t, a, b, other)
  {
    assert ([a, b] + t)[2..] == t;
  }

  /** After the first decoding pass only the tilde escapes are left. */
  lemma {:induction false} FirstPass(key: string)
    ensures ReplacePair(Escape(key), '~', '1', '/') == ReplaceChar(key, '~', "~0")
  {
    if key != [] {
      FirstPass(key[1..]);
      FirstPassOne(key[0], key[1..]);
      assert key == [key[0]] + key[1..];
    }
  }

  lemma FirstPassOne(c: char, rest: string)
    requires ReplacePair(Escape(rest), '~', '1', '/') == ReplaceChar(rest, '~', "~0")
    ensures ReplacePair(Escape([c] + rest), '~', '1', '/') == ReplaceChar([c] + rest, '~', "~0")
  {
    hide ReplacePair, ReplaceChar, Escape;
    EscapeOne(c, rest);
    ReplaceOne(c, rest, '~', "~0");
    var t := Escape(rest);
    if c == '~' {
      assert "~0" + t == ['~'] + (['0'] + t);
      PairSkips('~', ['0'] + t, '~', '1', '/');
      PairSkips('0', t, '~', '1', '/');
      assert ['~'] + (['0'] + ReplaceChar(rest, '~', "~0")) == "~0" + ReplaceChar(rest, '~', "~0");
    } else if c == '/' {
      PairTakes(t, '~', '1', '/');
    } else {
      PairSkips(c, t, '~', '1', '/');
    }
  }

  lemma {:induction false} SecondPass(key: string)
    ensures ReplacePair(ReplaceChar(key, '~', "~0"), '~', '0', '~') == key
  {
    hide ReplacePair;
    if key == [] {
      PairOfNothing();
    } else {
      var t := ReplaceChar(key[1..], '~', "~0");
      SecondPass(key[1..]);
      assert key == [key[0]] + key[1..];
      if key[0] == '~' { PairTakes(t, '~', '0', '~'); } else { PairSkips(key[0], t, '~', '0', '~'); }
    }
  }

  lemma PairOfNothing()
    ensures ReplacePair([], '~', '0', '~') == []
  {
  }

  lemma UnescapeUndoesEscape(key: string)
    ensures Unescape(Escape(key)) == key
  {
    FirstPass(key);
    SecondPass(key);
  }

  lemma {:induction false} SplitAppend(s: string, t: string, c: char)
    requires c !in t
    ensures Split(s + ([c] + t), c) == Split(s, c) + [t]
  {
    if s == [] {
      SplitPlain(t, c);
      assert s + ([c] + t) == [c] + t && ([c] + t)[1..] == t;
    } else {
      assert (s + ([c] + t))[1..] == s[1..] + ([c] + t);
      SplitAppend(s[1..], t, c);
    }
  }

  lemma {:induction false} SplitPlain(t: string, c: char)
    requires c !in t
    ensures Split(t, c) == [t]
  {
    if t != [] {
      SplitPlain(t[1..], c);
      assert t == [t[0]] + t[1..];
    }
  }

  lemma {:induction false} PointerStarts(keys: seq<string>)
    requires keys != []
    ensures Pointer(keys) != "" && Pointer(keys)[0] == '/'
  {
    if |keys| > 1 { PointerStarts(keys[..|keys| - 1]); }
  }

  /** Decoding a pointer gives back the keys it was made from, for every list of at least one key. */
  lemma {:induction false} KeysUndoPointer(keys: seq<string>)
    requires keys != []
    ensures Pointer(keys) != "" && Keys(Pointer(keys)) == keys
  {
    hide Escape, Unescape, Split;
    PointerStarts(keys);
    var front, last := keys[..|keys| - 1], keys[|keys| - 1];
    var p := Pointer(keys);
    EscapeHasNoSlash(last);
    UnescapeUndoesEscape(last);
    if front == [] {
      assert Pointer(front) == "";
      assert p == ['/'] + Escape(last) && p[1..] == Escape(last);
      SplitPlain(Escape(last), '/');
    } else {
      KeysUndoPointer(front);
      PointerStarts(front);
      var q := Pointer(front);
      assert p == q + (['/'] + Escape(last)) && p[1..] == q[1..] + (['/'] + Escape(last));
      SplitAppend(q[1..], Escape(last), '/');
      assert Keys(p) == Keys(q) + [last];
    }
    assert keys == front + [last];
  }

  /** Two lists of keys never share a pointer. */
  lemma PointersDiffer(a: seq<string>, b: seq<string>)
    requires Pointer(a) == Pointer(b)
    ensures a == b
  {
    if a != [] {
      KeysUndoPointer(a);
      if b != [] { KeysUndoPointer(b); }
    } else if b != [] {
      KeysUndoPointer(b);
    }
  }
}
