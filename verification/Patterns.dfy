/** The six supported patterns: what ECMAScript says they accept, and the hand-written matchers. */
module Patterns {

  /** A Unicode code point. */
  newtype Rune = x: int | 0 <= x <= 0x10_FFFF

  type Text = seq<Rune>

  /* ----- Regular expressions, after section 22.2.2 of ECMA-262 ----- */

  datatype Regex =
    | Empty
    | Class(test: Rune -> bool)
    | Then(first: Regex, second: Regex)
    | Either(left: Regex, right: Regex)
    | Star(body: Regex)
    | Look(ahead: Regex)
    | Start
    | End

  /** The expression can match exactly the stretch from i to j. A repetition never matches an empty stretch twice. */
  ghost predicate Matches(r: Regex, s: Text, i: nat, j: nat)
    requires i <= j <= |s|
    decreases r, j - i
  {
    match r
    case Empty => i == j
    case Class(test) => j == i + 1 && test(s[i])
    case Then(a, b) => exists k | i <= k <= j :: Matches(a, s, i, k) && Matches(b, s, k, j)
    case Either(a, b) => Matches(a, s, i, j) || Matches(b, s, i, j)
    case Star(a) => i == j || exists k | i < k <= j :: Matches(a, s, i, k) && Matches(r, s, k, j)
    case Look(a) => i == j && exists k | i <= k <= |s| :: Matches(a, s, i, k)
    case Start => i == j == 0
    case End => i == j == |s|
  }

  /** A search: the expression matches somewhere. */
  ghost predicate Accepts(r: Regex, s: Text) {
    exists i: nat, j: nat | i <= j <= |s| :: Matches(r, s, i, j)
  }

  function Char(c: Rune): Regex { Class(x => x == c) }

  function Times(r: Regex, n: nat): Regex { if n == 0 then Empty else Then(r, Times(r, n - 1)) }

  function Plus(r: Regex): Regex { Then(r, Star(r)) }

  function Optional(r: Regex): Regex { Either(r, Empty) }

  predicate IsDigit(c: Rune) { 48 <= c <= 57 }

  predicate IsHex(c: Rune) { IsDigit(c) || 65 <= c <= 70 || 97 <= c <= 102 }

  predicate IsLowerHex(c: Rune) { IsDigit(c) || 97 <= c <= 102 }

  predicate IsLineTerminator(c: Rune) { c == 0x0A || c == 0x0D || c == 0x2028 || c == 0x2029 }

  /** The space separators of Unicode. */
  predicate IsSpaceSeparator(c: Rune) {
    c == 0x20 || c == 0xA0 || c == 0x1680 || 0x2000 <= c <= 0x200A || c == 0x202F || c == 0x205F || c == 0x3000
  }

  /** What \s stands for: white space and line terminators. */
  predicate IsSpace(c: Rune) {
    c == 0x09 || c == 0x0B || c == 0x0C || c == 0xFEFF || IsSpaceSeparator(c) || IsLineTerminator(c)
  }

  const NOT_SPACE: Regex := Class(c => !IsSpace(c))
  const NOT_DIGIT: Regex := Class(c => !IsDigit(c))
  const DOT: Regex := Class(c => !IsLineTerminator(c))
  const HEX: Regex := Class(IsHex)
  const LOWER_HEX: Regex := Class(IsLowerHex)
  const DIGIT: Regex := Class(IsDigit)

  /** Digits, parentheses, hyphen, white space, full stop. */
  predicate IsPhoneChar(c: Rune) { IsDigit(c) || c == 40 || c == 41 || c == 45 || IsSpace(c) || c == 46 }

  datatype Pattern = Colour | NotSpace | Phone | LowerId | AnyId | NotDigit

  /** The expression of each pattern. */
  function Meaning(p: Pattern): Regex {
    match p
    case Colour => Then(Start, Then(Char(35), Then(Either(Times(HEX, 6), Times(HEX, 3)), End)))
    case NotSpace => NOT_SPACE
    case Phone =>
      Then(Start, Then(Look(Then(Star(DOT), DIGIT)), Then(Optional(Char(43)), Then(Plus(Class(IsPhoneChar)), End))))
    case LowerId => Then(Start, Then(Times(LOWER_HEX, 24), End))
    case AnyId => Then(Start, Then(Times(HEX, 24), End))
    case NotDigit => NOT_DIGIT
  }

  /* ----- The matchers ----- */

  predicate EcmaSpace(r: Rune) {
    r in {0x09, 0x0A, 0x0B, 0x0C, 0x0D, 0x20, 0xA0, 0x1680, 0x2000, 0x2001, 0x2002, 0x2003, 0x2004, 0x2005, 0x2006,
          0x2007,
          0x2008, 0x2009, 0x200A, 0x2028, 0x2029, 0x202F, 0x205F, 0x3000, 0xFEFF}
  }

  predicate EcmaLine(r: Rune) { r == 0x0A || r == 0x0D || r == 0x2028 || r == 0x2029 }

  /** The length of a string in bytes of UTF-8. */
  function Bytes(s: Text): nat {
    if s == [] then 0
    else (if s[0] < 0x80 then 1 else if s[0] < 0x800 then 2 else if s[0] < 0x1_0000 then 3 else 4) + Bytes(s[1..])
  }

  lemma {:induction false} BytesOfAscii(s: Text)
    requires forall c <- s :: c < 0x80
    ensures Bytes(s) == |s|
  {
    if s != [] {
      assert s[0] in s && forall c <- s[1..] :: c in s;
      BytesOfAscii(s[1..]);
    }
  }

  method Hex(s: Text, upper: bool) returns (ok: bool)
    ensures ok <==> forall c <- s :: if upper then IsHex(c) else IsLowerHex(c)
  {
    for i := 0 to |s|
      invariant forall c <- s[..i] :: if upper then IsHex(c) else IsLowerHex(c)
    {
      var r := s[i];
      assert s[..i + 1] == s[..i] + [r];
      if !(48 <= r <= 57 || 97 <= r <= 102 || (upper && 65 <= r <= 70)) {
        assert r in s;
        return false;
      }
    }
    assert s[..|s|] == s;
    ok := true;
  }

  /** Some digit before the first line terminator. */
  predicate DigitAhead(s: Text) {
    exists k | 0 <= k < |s| :: IsDigit(s[k]) && forall i | 0 <= i < k :: !IsLineTerminator(s[i])
  }

  method ScanDigit(s: Text) returns (digit: bool)
    ensures digit <==> DigitAhead(s)
  {
    digit := false;
    for k := 0 to |s|
      invariant forall i | 0 <= i < k :: !IsLineTerminator(s[i])
      invariant digit <==> exists j | 0 <= j < k :: IsDigit(s[j])
    {
      if EcmaLine(s[k]) {
        return;
      }
      if 48 <= s[k] <= 57 { digit := true; }
    }
  }

  method MatchString(p: Pattern, s: Text) returns (ok: bool)
    ensures ok <==> Accepts(Meaning(p), s)
  {
    match p {
      case NotSpace =>
        for i := 0 to |s|
          invariant forall k | 0 <= k < i :: IsSpace(s[k])
        {
          if !EcmaSpace(s[i]) {
            ClassAccepts(NOT_SPACE.test, s);
            return true;
          }
        }
        ClassAccepts(NOT_SPACE.test, s);
        return false;
      case NotDigit =>
        for i := 0 to |s|
          invariant forall k | 0 <= k < i :: IsDigit(s[k])
        {
          if s[i] < 48 || s[i] > 57 {
            ClassAccepts(NOT_DIGIT.test, s);
            return true;
          }
        }
        ClassAccepts(NOT_DIGIT.test, s);
        return false;
      case Phone =>
        PhoneAccepts(s);
        var digit := ScanDigit(s);
        if !digit { return false; }
        var t := if |s| > 0 && s[0] == 43 then s[1..] else s;
        if |t| == 0 { return false; }
        for i := 0 to |t|
          invariant forall k | 0 <= k < i :: IsPhoneChar(t[k])
        {
          var r := t[i];
          if !(48 <= r <= 57 || r == 40 || r == 41 || r == 45 || r == 46 || r == 32 || EcmaSpace(r)) { return false; }
        }
        return true;
      case Colour =>
        ColourAccepts(s);
        if |s| == 0 || s[0] != 35 { return false; }
        if Bytes(s) != 4 && Bytes(s) != 7 {
          ColourBytes(s);
          return false;
        }
        var hex := Hex(s[1..], true);
        if hex { ColourBytes(s); }
        return hex;
      case LowerId =>
        IdAccepts(IsLowerHex, s);
        if Bytes(s) != 24 {
          IdBytes(s);
          return false;
        }
        ok := Hex(s, false);
        if ok { IdBytes(s); }
      case AnyId =>
        IdAccepts(IsHex, s);
        if Bytes(s) != 24 {
          IdBytes(s);
          return false;
        }
        ok := Hex(s, true);
        if ok { IdBytes(s); }
    }
  }

  /* ----- What the expressions accept ----- */

  lemma ClassAccepts(test: Rune -> bool, s: Text)
    ensures Accepts(Class(test), s) <==> exists k | 0 <= k < |s| :: test(s[k])
  {
    if k :| 0 <= k < |s| && test(s[k]) { assert Matches(Class(test), s, k, k + 1); }
  }

  lemma {:induction false} TimesMatches(test: Rune -> bool, n: nat, s: Text, i: nat, j: nat)
    requires i <= j <= |s|
    ensures Matches(Times(Class(test), n), s, i, j) <==> j == i + n && forall k | i <= k < j :: test(s[k])
  {
    if n > 0 {
      if i < j {
        TimesMatches(test, n - 1, s, i + 1, j);
        if j == i + n && forall k | i <= k < j :: test(s[k]) {
          assert Matches(Class(test), s, i, i + 1);
        }
      }
    }
  }

  lemma {:induction false} StarMatches(test: Rune -> bool, s: Text, i: nat, j: nat)
    requires i <= j <= |s|
    ensures Matches(Star(Class(test)), s, i, j) <==> forall k | i <= k < j :: test(s[k])
    decreases j - i
  {
    if i < j {
      StarMatches(test, s, i + 1, j);
      if forall k | i <= k < j :: test(s[k]) { assert Matches(Class(test), s, i, i + 1); }
    }
  }

  lemma ThenSplits(a: Regex, b: Regex, s: Text, i: nat, j: nat) returns (k: nat)
    requires i <= j <= |s| && Matches(Then(a, b), s, i, j)
    ensures i <= k <= j && Matches(a, s, i, k) && Matches(b, s, k, j)
  {
    k :| i <= k <= j && Matches(a, s, i, k) && Matches(b, s, k, j);
  }

  lemma LookSees(a: Regex, s: Text, i: nat) returns (k: nat)
    requires i <= |s| && Matches(Look(a), s, i, i)
    ensures i <= k <= |s| && Matches(a, s, i, k)
  {
    k :| i <= k <= |s| && Matches(a, s, i, k);
  }

  ghost predicate FromStart(r: Regex, s: Text) { exists j: nat | j <= |s| :: Matches(r, s, 0, j) }

  lemma StartAccepts(r: Regex, s: Text)
    ensures Accepts(Then(Start, r), s) <==> FromStart(r, s)
  {
    if j: nat :| j <= |s| && Matches(r, s, 0, j) {
      assert Matches(Start, s, 0, 0);
      assert Matches(Then(Start, r), s, 0, j);
    }
    if i: nat, j: nat :| i <= j <= |s| && Matches(Then(Start, r), s, i, j) {
      var k := ThenSplits(Start, r, s, i, j);
      assert i == k == 0;
      assert Matches(r, s, 0, j);
    }
  }

  lemma EndMatches(r: Regex, s: Text, i: nat, j: nat)
    requires i <= j <= |s|
    ensures Matches(Then(r, End), s, i, j) <==> j == |s| && Matches(r, s, i, j)
  {
    if j == |s| && Matches(r, s, i, j) { assert Matches(End, s, j, j); }
    if Matches(Then(r, End), s, i, j) {
      var k := ThenSplits(r, End, s, i, j);
    }
  }

  /** An expression between both anchors accepts what it matches from end to end. */
  lemma AnchoredAccepts(r: Regex, s: Text)
    ensures Accepts(Then(Start, Then(r, End)), s) <==> Matches(r, s, 0, |s|)
  {
    StartAccepts(Then(r, End), s);
    EndMatches(r, s, 0, |s|);
    if j: nat :| j <= |s| && Matches(Then(r, End), s, 0, j) { EndMatches(r, s, 0, j); }
  }

  lemma OptionalThen(c: Rune, r: Regex, s: Text, i: nat, j: nat)
    requires i <= j <= |s|
    ensures Matches(Then(Optional(Char(c)), r), s, i, j)
            <==> Matches(r, s, i, j) || (i < j && s[i] == c && Matches(r, s, i + 1, j))
  {
    var optional := Optional(Char(c));
    if Matches(r, s, i, j) {
      assert Matches(Empty, s, i, i);
      assert Matches(optional, s, i, i);
    }
    if i < j && s[i] == c && Matches(r, s, i + 1, j) {
      assert Matches(Char(c), s, i, i + 1);
      assert Matches(optional, s, i, i + 1);
    }
    if Matches(Then(optional, r), s, i, j) {
      var k := ThenSplits(optional, r, s, i, j);
      assert Matches(Char(c), s, i, k) || Matches(Empty, s, i, k);
    }
  }

  lemma PlusMatches(test: Rune -> bool, s: Text, i: nat, j: nat)
    requires i <= j <= |s|
    ensures Matches(Plus(Class(test)), s, i, j) <==> i < j && forall k | i <= k < j :: test(s[k])
  {
    var c := Class(test);
    if i < j {
      StarMatches(test, s, i + 1, j);
      if forall k | i <= k < j :: test(s[k]) { assert Matches(c, s, i, i + 1); }
    }
    if Matches(Plus(c), s, i, j) {
      var k := ThenSplits(c, Star(c), s, i, j);
    }
  }

  lemma IdAccepts(test: Rune -> bool, s: Text)
    ensures Accepts(Then(Start, Then(Times(Class(test), 24), End)), s) <==> |s| == 24 && forall c <- s :: test(c)
  {
    AnchoredAccepts(Times(Class(test), 24), s);
    TimesMatches(test, 24, s, 0, |s|);
  }

  lemma IdBytes(s: Text)
    ensures (forall c <- s :: IsHex(c)) ==> Bytes(s) == |s|
  {
    if forall c <- s :: IsHex(c) { BytesOfAscii(s); }
  }

  lemma ColourAccepts(s: Text)
    ensures Accepts(Meaning(Colour), s) <==>
            (|s| == 4 || |s| == 7) && s[0] == 35 && forall c <- s[1..] :: IsHex(c)
  {
    hide Accepts;
    var digits := Either(Times(HEX, 6), Times(HEX, 3));
    var tail := Then(Char(35), Then(digits, End));
    StartAccepts(tail, s);
    forall j: nat | j <= |s|
      ensures Matches(tail, s, 0, j) <==> 0 < j && s[0] == 35 && j == |s| && Matches(digits, s, 1, j)
    {
      if 0 < j { EndMatches(digits, s, 1, j); }
    }
    assert Meaning(Colour) == Then(Start, tail);
    assert FromStart(tail, s) <==> 0 < |s| && s[0] == 35 && Matches(digits, s, 1, |s|);
    if |s| > 0 {
      assert Matches(digits, s, 1, |s|) <==> Matches(Times(HEX, 6), s, 1, |s|) || Matches(Times(HEX, 3), s, 1, |s|);
      TimesMatches(IsHex, 6, s, 1, |s|);
      TimesMatches(IsHex, 3, s, 1, |s|);
      assert (forall k | 1 <= k < |s| :: IsHex(s[k])) <==> (forall c <- s[1..] :: IsHex(c));
    }
  }

  lemma ColourBytes(s: Text)
    requires |s| > 0 && s[0] == 35
    ensures (forall c <- s[1..] :: IsHex(c)) ==> Bytes(s) == |s|
  {
    if forall c <- s[1..] :: IsHex(c) {
      forall c <- s ensures c < 0x80 { assert c == s[0] || c in s[1..]; }
      BytesOfAscii(s);
    }
  }

  lemma DigitLooks(s: Text)
    ensures Matches(Look(Then(Star(DOT), DIGIT)), s, 0, 0) <==> DigitAhead(s)
  {
    var a := Then(Star(DOT), DIGIT);
    if Matches(Look(a), s, 0, 0) {
      var k := LookSees(a, s, 0);
      var d := ThenSplits(Star(DOT), DIGIT, s, 0, k);
      StarMatches(DOT.test, s, 0, d);
      assert IsDigit(s[d]) && forall i | 0 <= i < d :: DOT.test(s[i]);
    }
    if DigitAhead(s) {
      var d :| 0 <= d < |s| && IsDigit(s[d]) && forall i | 0 <= i < d :: !IsLineTerminator(s[i]);
      StarMatches(DOT.test, s, 0, d);
      assert Matches(DIGIT, s, d, d + 1);
      assert Matches(a, s, 0, d + 1);
    }
  }

  lemma PhoneAccepts(s: Text)
    ensures Accepts(Meaning(Phone), s) <==>
            var t := if |s| > 0 && s[0] == 43 then s[1..] else s;
            DigitAhead(s) && t != [] && forall k | 0 <= k < |t| :: IsPhoneChar(t[k])
  {
    hide Accepts, DigitAhead;
    var body := Then(Plus(Class(IsPhoneChar)), End);
    var number := Then(Optional(Char(43)), body);
    var look := Look(Then(Star(DOT), DIGIT));
    StartAccepts(Then(look, number), s);
    DigitLooks(s);
    forall j: nat | j <= |s|
      ensures Matches(Then(look, number), s, 0, j)
              <==> DigitAhead(s) && j == |s| && (PhoneFrom(s, 0) || (0 < |s| && s[0] == 43 && PhoneFrom(s, 1)))
    {
      OptionalThen(43, body, s, 0, j);
      BodyMatches(s, 0, j);
      if 0 < j { BodyMatches(s, 1, j); }
    }
    assert Meaning(Phone) == Then(Start, Then(look, number));
    assert Matches(Then(look, number), s, 0, |s|) ==> FromStart(Then(look, number), s);
    assert FromStart(Then(look, number), s)
           <==> DigitAhead(s) && (PhoneFrom(s, 0) || (0 < |s| && s[0] == 43 && PhoneFrom(s, 1)));
  }

  predicate PhoneFrom(s: Text, i: nat) { i < |s| && forall k | i <= k < |s| :: IsPhoneChar(s[k]) }

  lemma BodyMatches(s: Text, i: nat, j: nat)
    requires i <= j <= |s|
    ensures Matches(Then(Plus(Class(IsPhoneChar)), End), s, i, j) <==> j == |s| && PhoneFrom(s, i)
  {
    EndMatches(Plus(Class(IsPhoneChar)), s, i, j);
    PlusMatches(IsPhoneChar, s, i, j);
  }
}
