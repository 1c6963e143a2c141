/** The single-Choice profile: one question over all candidates, first over at most 32, then over all. */
module SingleChoice {
  import opened Wire
  import opened Sorting
  import opened Operation
  import opened Selector

  /* ----- Option keys ----- */

  /** As many tools as four digits name. */
  const NAMED: nat := 9999

  function Digit(n: nat): char
    requires n < 10
  {
    '0' + n as char
  }

  function Decimal(n: nat): (digits: string)
    ensures |digits| >= 1 && (|digits| == 1 <==> n < 10)
  {
    if n < 10 then [Digit(n)] else Decimal(n / 10) + [Digit(n % 10)]
  }

  /** At least four digits. */
  function Pad(digits: string): string
    decreases 4 - |digits|
  {
    if |digits| < 4 then Pad(['0'] + digits) else digits
  }

  /** The n-th tool's key. */
  function Key(n: nat): string { ['t'] + Pad(Decimal(n)) }

  function DigitValue(c: char): Option<nat> {
    if '0' <= c <= '9' then Some(c as int - '0' as int) else None
  }

  function Number(digits: string): Option<nat> {
    if digits == [] then Some(0)
    else match (Number(digits[..|digits| - 1]), DigitValue(digits[|digits| - 1]))
      case (Some(n), Some(d)) => Some(10 * n + d)
      case _ => None
  }

  /** The tool number read from a key, of which no more than four digits are looked at. */
  function KeyNumber(key: string): Option<nat> {
    if |key| >= 5 && key[0] == 't' then Number(key[1..5]) else None
  }

  lemma {:induction false} DecimalNumber(n: nat)
    ensures Number(Decimal(n)) == Some(n)
  {
    DigitReads(n % 10);
    if n >= 10 {
      DecimalNumber(n / 10);
      assert Decimal(n)[..|Decimal(n)| - 1] == Decimal(n / 10);
    } else {
      assert Decimal(n)[..0] == [];
    }
  }

  lemma DigitReads(n: nat)
    requires n < 10
    ensures DigitValue(Digit(n)) == Some(n)
  {
  }

  lemma DecimalLength(n: nat)
    ensures |Decimal(n)| <= 4 <==> n <= NAMED
  {
    hide Digit;
    if n >= 1000 {
      var a := n / 10;
      var b := a / 10;
      var c := b / 10;
      assert |Decimal(n)| == 1 + |Decimal(a)| && |Decimal(a)| == 1 + |Decimal(b)| && |Decimal(b)| == 1 + |Decimal(c)|;
      assert c < 10 <==> n <= NAMED;
    }
  }

  lemma {:induction false} LeadingZero(digits: string)
    ensures Number(['0'] + digits) == Number(digits)
  {
    var s := ['0'] + digits;
    if digits != [] {
      assert s[..|s| - 1] == ['0'] + digits[..|digits| - 1];
      LeadingZero(digits[..|digits| - 1]);
    } else {
      assert s[..0] == [];
    }
  }

  lemma {:induction false} PadNumber(digits: string)
    ensures Number(Pad(digits)) == Number(digits) && |Pad(digits)| == if |digits| < 4 then 4 else |digits|
    decreases 4 - |digits|
  {
    if |digits| < 4 {
      LeadingZero(digits);
      PadNumber(['0'] + digits);
    }
  }

  /** All digits of a key tell its number. */
  lemma KeyDigits(n: nat)
    ensures Number(Key(n)[1..]) == Some(n) && |Key(n)| >= 5 && (|Key(n)| == 5 <==> n <= NAMED)
  {
    hide Number, Decimal, Pad;
    DecimalNumber(n);
    DecimalLength(n);
    PadNumber(Decimal(n));
    assert Key(n)[1..] == Pad(Decimal(n));
  }

  lemma KeyRoundTrip(n: nat)
    requires n <= NAMED
    ensures KeyNumber(Key(n)) == Some(n)
  {
    KeyDigits(n);
    assert Key(n)[1..5] == Key(n)[1..];
  }

  /** The first number with five digits is misread. */
  lemma LongKeyMisread()
    ensures KeyNumber(Key(NAMED + 1)) == Some(1000)
  {
    assert Decimal(10) == ['1', '0'];
    assert Decimal(100) == ['1', '0', '0'];
    assert Decimal(1000) == ['1', '0', '0', '0'];
    assert Decimal(10000) == ['1', '0', '0', '0', '0'];
    assert Key(10000)[1..5] == Decimal(1000);
    DecimalNumber(1000);
  }

  function Keys(n: nat): (keys: seq<string>)
    ensures |keys| == n + 1 && keys[0] == "none"
  {
    ["none"] + seq(n, i requires 0 <= i < n => Key(i + 1))
  }

  lemma KeysDistinct(n: nat)
    ensures Distinct(Keys(n))
  {
    hide Key;
    forall i, j | 0 <= i < j < |Keys(n)| ensures Keys(n)[i] != Keys(n)[j] {
      KeyDigits(j);
      if i > 0 { KeyDigits(i); } else { NoneIsNoKey(j); }
    }
  }

  lemma NoneIsNoKey(n: nat)
    ensures Key(n) != "none"
  {
    assert Key(n)[0] == 't' && "none"[0] == 'n';
  }

  /* ----- One pass ----- */

  /** More probable keys first, equal ones in key order. */
  function Ranks(p: Probabilities): (string, string) -> bool {
    (a, b) => if Prob(p, a) == Prob(p, b) then Before(a, b) else Prob(p, a) > Prob(p, b)
  }

  function Ranked(p: Probabilities, keys: seq<string>): (r: seq<string>)
    ensures multiset(r) == multiset(keys) && |r| == |keys|
  {
    Sort(Ranks(p), keys)
  }

  function ToolOf(subset: seq<Tool>, key: string): Result<Tool, Failure> {
    match KeyNumber(key)
    case Some(n) => if 1 <= n <= |subset| then Ok(subset[n - 1]) else Err(INVALID)
    case None => Err(INVALID)
  }

  /** The tool at the top of the ranking, if it clears threshold and margin. */
  function Winner(subset: seq<Tool>, p: Probabilities, ranked: seq<string>): Result<Option<Tool>, Failure>
    requires ranked != []
  {
    if ranked[0] == "none" then Ok(None)
    else match ToolOf(subset, ranked[0])
      case Err(f) => Err(f)
      case Ok(tool) =>
        var second := if |ranked| > 1 then Prob(p, ranked[1]) else 0.0;
        if Prob(p, ranked[0]) >= Threshold(tool.effect) && Prob(p, ranked[0]) - second >= Margin(tool.effect)
        then Ok(Some(tool)) else Ok(None)
  }

  /** Up to five candidates in ranking order, after those already found. */
  function Offers(subset: seq<Tool>, ranked: seq<string>, found: seq<Candidate>): Result<seq<Candidate>, Failure>
    decreases ranked
  {
    if ranked == [] || |found| == 5 then Ok(found)
    else if ranked[0] == "none" then Offers(subset, ranked[1..], found)
    else match ToolOf(subset, ranked[0])
      case Err(f) => Err(f)
      case Ok(tool) => Offers(subset, ranked[1..], found + [AsCandidate(tool)])
  }

  function Undecided(subset: seq<Tool>, ranked: seq<string>): Result<Selection, Failure>
    requires ranked != []
  {
    if ranked[0] == "none" then Ok(Abstained("selector_abstained"))
    else match Offers(subset, ranked, [])
      case Err(f) => Err(f)
      case Ok(choices) =>
        if |choices| < 2 then Ok(Abstained("selector_abstained")) else Ok(Ambiguous(choices, "low_confidence"))
  }

  function Answer(reply: Result<Envelope, Failure>, n: nat): Result<ChoiceResult, Failure>
  {
    match reply case Err(f) => Err(f) case Ok(e) => Decoded(e, Keys(n))
  }

  /** The whole selection. `first` and `second` are the selector's replies to the narrow and the full question. */
  function Choose(candidates: seq<Tool>, first: Result<Envelope, Failure>, second: Result<Envelope,
                  Failure>): Result<Selection, Failure>
  {
    if candidates == [] then Ok(Abstained("no_retrieval_match"))
    else if |candidates| <= 32 then Last(candidates, first)
    else match Answer(first, 32)
      case Err(f) => Err(f)
      case Ok(a) =>
        match Winner(candidates[..32], a.probabilities, Ranked(a.probabilities, Keys(32)))
        case Err(f) => Err(f)
        case Ok(Some(tool)) => Ok(Chosen(tool))
        case Ok(None) => Last(candidates, second)
  }

  function Last(subset: seq<Tool>, reply: Result<Envelope, Failure>): Result<Selection, Failure>
  {
    match Answer(reply, |subset|)
    case Err(f) => Err(f)
    case Ok(a) =>
      var ranked := Ranked(a.probabilities, Keys(|subset|));
      match Winner(subset, a.probabilities, ranked)
      case Err(f) => Err(f)
      case Ok(Some(tool)) => Ok(Chosen(tool))
      case Ok(None) => Undecided(subset, ranked)
  }

  /** The keys of an answer in whatever order the map yields them. */
  method AnswerKeys(p: Probabilities) returns (keys: seq<string>)
    ensures Distinct(keys) && Elements(keys) == p.Keys
  {
    keys := [];
    var rest := p.Keys;
    while rest != {}
      invariant Distinct(keys) && rest <= p.Keys && Elements(keys) == p.Keys - rest
      decreases |rest|
    {
      var key :| key in rest;
      assert key !in Elements(keys) && forall k <- keys :: k in Elements(keys);
      ElementsSnoc(keys, key);
      keys := keys + [key];
      rest := rest - {key};
    }
  }

  lemma SameMultiset(a: seq<string>, b: seq<string>)
    requires Distinct(a) && Distinct(b) && Elements(a) == Elements(b)
    ensures multiset(a) == multiset(b)
  {
    forall x ensures x in a <==> x in b {
      assert x in a <==> x in Elements(a);
      assert x in b <==> x in Elements(b);
    }
    SameSet(a, b);
  }

  lemma RanksOrders(p: Probabilities, keys: seq<string>)
    ensures Orders(Ranks(p), keys)
  {
    var less := Ranks(p);
    forall x <- keys ensures !less(x, x) { BeforeIrreflexive(x); }
    forall x <- keys, y <- keys | x != y ensures less(x, y) || less(y, x) { BeforeConnects(x, y); }
    forall x <- keys, y <- keys, z <- keys | less(x, y) && less(y, z) ensures less(x, z) {
      if Prob(p, x) == Prob(p, y) == Prob(p, z) { BeforeTransitive(x, y, z); }
    }
  }

  /** Decodes a reply and ranks its keys; the order in which the map yields them does not matter. */
  method Ask(subset: seq<Tool>, reply: Result<Envelope, Failure>)
      returns (r: Result<(Probabilities, seq<string>), Failure>)
    ensures r == match Answer(reply, |subset|)
                 case Err(f) => Err(f)
                 case Ok(a) => Ok((a.probabilities, Ranked(a.probabilities, Keys(|subset|))))
    ensures r.Ok? ==> r.value.1 != []
  {
    hide Acceptable, Distinct;
    if reply.Err? { return Err(reply.error); }
    var known := Keys(|subset|);
    KeysDistinct(|subset|);
    var decoded := DecodeChoice(reply.value, known);
    if decoded.Err? { return Err(decoded.error); }
    var p := decoded.value.probabilities;
    DecodedKeys(reply.value, known);
    var keys := AnswerKeys(p);
    SameMultiset(keys, known);
    RanksOrders(p, keys);
    SortForgetsOrder(Ranks(p), keys, known);
    keys := Sort(Ranks(p), keys);
    r := Ok((p, keys));
  }

  lemma DecodedKeys(e: Envelope, keys: seq<string>)
    requires Decoded(e, keys).Ok?
    ensures Decoded(e, keys).value.probabilities.Keys == Elements(keys)
  {
  }

  method Win(subset: seq<Tool>, p: Probabilities, keys: seq<string>) returns (r: Result<Option<Tool>, Failure>)
    requires keys != []
    ensures r == Winner(subset, p, keys)
  {
    var top := keys[0];
    if top == "none" { return Ok(None); }
    var named := ToolOf(subset, top);
    if named.Err? { return Err(named.error); }
    var tool := named.value;
    var threshold, margin := 0.70, 0.15;
    if tool.effect != Read { threshold, margin := 0.85, 0.25; }
    var probability := Prob(p, top);
    var second := 0.0;
    if |keys| > 1 { second := Prob(p, keys[1]); }
    r := Ok(if probability >= threshold && probability - second >= margin then Some(tool) else None);
  }

  method OfferLoop(subset: seq<Tool>, keys: seq<string>) returns (r: Result<seq<Candidate>, Failure>)
    ensures r == Offers(subset, keys, [])
  {
    var choices: seq<Candidate>, i := [], 0;
    while i < |keys| && |choices| < 5
      invariant 0 <= i <= |keys| && |choices| <= 5
      invariant Offers(subset, keys, []) == Offers(subset, keys[i..], choices)
    {
      if keys[i] != "none" {
        var tool := ToolOf(subset, keys[i]);
        if tool.Err? { return Err(tool.error); }
        choices := choices + [AsCandidate(tool.value)];
      }
      i := i + 1;
    }
    r := Ok(choices);
  }

  method SelectTools(candidates: seq<Tool>, first: Result<Envelope, Failure>, second: Result<Envelope, Failure>)
    returns (r: Result<Selection, Failure>)
    ensures r == Choose(candidates, first, second)
  {
    hide Winner, Answer, Ranked, Offers;
    if |candidates| == 0 { return Ok(Abstained("no_retrieval_match")); }
    var limit := |candidates|;
    if limit > 32 { limit := 32; }
    for pass := 0 to 2
      invariant limit == if pass == 0 && |candidates| > 32 then 32 else |candidates|
      invariant pass == 1 ==> |candidates| > 32 && Choose(candidates, first, second) == Last(candidates, second)
      invariant pass < 2
    {
      var subset := candidates[..limit];
      assert limit == |candidates| ==> subset == candidates;
      var asked := Ask(subset, if pass == 0 then first else second);
      if asked.Err? { return Err(asked.error); }
      var keys := asked.value.1;
      var won := Win(subset, asked.value.0, keys);
      if won.Err? { return Err(won.error); }
      if won.value.Some? { return Ok(Chosen(won.value.value)); }
      if pass == 0 && |candidates| > limit {
        limit := |candidates|;
        continue;
      }
      if keys[0] == "none" { return Ok(Abstained("selector_abstained")); }
      var choices := OfferLoop(subset, keys);
      if choices.Err? { return Err(choices.error); }
      if |choices.value| < 2 { return Ok(Abstained("selector_abstained")); }
      return Ok(Ambiguous(choices.value, "low_confidence"));
    }
    r := Ok(Abstained("selector_abstained"));
  }

  /* ----- What acceptance means ----- */

  lemma {:induction false} SumAtLeast(p: Probabilities, keys: seq<string>, x: string)
    requires (forall k <- keys :: k in p && p[k] >= 0.0) && x in keys
    ensures Sum(p, keys) >= p[x] >= 0.0
  {
    var front, last := keys[..|keys| - 1], keys[|keys| - 1];
    assert keys == front + [last];
    if x in front { SumAtLeast(p, front, x); } else { SumNonNegative(p, front); }
  }

  lemma {:induction false} SumNonNegative(p: Probabilities, keys: seq<string>)
    requires forall k <- keys :: k in p && p[k] >= 0.0
    ensures Sum(p, keys) >= 0.0
  {
    if keys != [] { SumNonNegative(p, keys[..|keys| - 1]); }
  }

  /** Two options never share more than the whole. */
  lemma {:induction false} SumOfTwo(p: Probabilities, keys: seq<string>, x: string, y: string)
    requires (forall k <- keys :: k in p && p[k] >= 0.0) && x in keys && y in keys && x != y
    ensures Sum(p, keys) >= p[x] + p[y]
  {
    var front, last := keys[..|keys| - 1], keys[|keys| - 1];
    assert keys == front + [last];
    if x == last {
      SumAtLeast(p, front, y);
    } else if y == last {
      SumAtLeast(p, front, x);
    } else {
      SumOfTwo(p, front, x, y);
    }
  }

  /** Every key of a full question but "none" names a tool, each its own. */
  lemma KeyNames(n: nat, key: string)
    requires n <= NAMED && key in Keys(n) && key != "none"
    ensures KeyNumber(key).Some? && 1 <= KeyNumber(key).value <= n && key == Key(KeyNumber(key).value)
  {
    var i :| 0 <= i < |Keys(n)| && Keys(n)[i] == key;
    KeyRoundTrip(i);
  }

  /** The ranking of a closed answer starts with a most probable key and loses none. */
  lemma RankedClosed(choice: string, p: Probabilities, n: nat)
    requires Closed(choice, p, Keys(n))
    ensures var ranked := Ranked(p, Keys(n));
            && Distinct(ranked) && |ranked| == n + 1 && (forall k :: k in ranked <==> k in Keys(n))
            && Ascending(Ranks(p), ranked)
            && p[ranked[0]] == p[choice]
  {
    hide Sum, Distinct, Orders, Sort, Keys;
    var keys := Keys(n);
    var ranked := Ranked(p, keys);
    KeysDistinct(n);
    RanksOrders(p, keys);
    SortAscends(Ranks(p), keys);
    DistinctForgetsOrder(keys, ranked);
    SameElements(ranked, keys);
    var i :| 0 <= i < |ranked| && ranked[i] == choice;
    assert i == 0 || Ranks(p)(ranked[0], ranked[i]);
    assert ranked[0] in keys;
  }

  /** A closed answer selects a tool exactly when the option it names is that tool and clears the tool's threshold:
      the margin is then always cleared too, the ranking puts the named option first, and no key is ever out of
      range. */
  lemma AcceptsExactly(subset: seq<Tool>, choice: string, p: Probabilities)
    requires |subset| <= NAMED && Closed(choice, p, Keys(|subset|))
    ensures choice != "none" ==> ToolOf(subset, choice).Ok?
    ensures Winner(subset, p, Ranked(p, Keys(|subset|))) ==
            Ok(if choice != "none" && p[choice] >= Threshold(ToolOf(subset, choice).value.effect)
               then Some(ToolOf(subset, choice).value) else None)
  {
    hide Ranked, Keys, KeyNumber, Distinct, Sum, Elements, Ascending, Key;
    var n := |subset|;
    var ranked := Ranked(p, Keys(n));
    RankedClosed(choice, p, n);
    var top := ranked[0];
    assert top in ranked;
    if choice != "none" { KeyNames(n, choice); }
    if top != "none" { KeyNames(n, top); }
    if top != choice { SumOfTwo(p, Keys(n), top, choice); }
    if |ranked| > 1 {
      assert ranked[1] in ranked;
      assert ranked[1] != top by { TwoDiffer(ranked); }
      SumOfTwo(p, Keys(n), top, ranked[1]);
    }
  }

  /** With more options than four digits name, an answer that names the ten-thousandth tool selects another. */
  lemma LongKeyNamesAnother(subset: seq<Tool>)
    requires |subset| > NAMED
    ensures Key(NAMED + 1) in Keys(|subset|) && ToolOf(subset, Key(NAMED + 1)) == Ok(subset[999])
  {
    hide Key, KeyNumber;
    LongKeyMisread();
    assert Keys(|subset|)[NAMED + 1] == Key(NAMED + 1);
  }

  lemma TwoDiffer(s: seq<string>)
    requires Distinct(s) && |s| > 1
    ensures s[0] != s[1]
  {
  }

  /* ----- What is offered ----- */

  /** The candidates that keys name, in their order. */
  function Named(subset: seq<Tool>, ranked: seq<string>): seq<Candidate> {
    if ranked == [] then []
    else if ranked[0] == "none" || ToolOf(subset, ranked[0]).Err? then Named(subset, ranked[1..])
    else [AsCandidate(ToolOf(subset, ranked[0]).value)] + Named(subset, ranked[1..])
  }

  /** The offer is the first five tools of the ranking. */
  lemma {:induction false} OffersFirstFive(subset: seq<Tool>, ranked: seq<string>, found: seq<Candidate>)
    requires |found| <= 5 && forall k <- ranked :: k != "none" ==> ToolOf(subset, k).Ok?
    ensures var all := found + Named(subset, ranked);
            Offers(subset, ranked, found) == Ok(if |all| <= 5 then all else all[..5])
    decreases ranked
  {
    hide ToolOf;
    if ranked == [] {
      assert found + [] == found;
    } else if |found| == 5 {
      var all := found + Named(subset, ranked);
      assert all[..5] == found && (|all| == 5 ==> all == found);
    } else {
      assert ranked[0] in ranked;
      if ranked[0] == "none" {
        OffersFirstFive(subset, ranked[1..], found);
      } else {
        var c := AsCandidate(ToolOf(subset, ranked[0]).value);
        OffersFirstFive(subset, ranked[1..], found + [c]);
        assert (found + [c]) + Named(subset, ranked[1..]) == found + Named(subset, ranked);
      }
    }
  }

  lemma {:induction false} NamedFrom(subset: seq<Tool>, ranked: seq<string>, c: Candidate)
    requires c in Named(subset, ranked)
    ensures exists k <- ranked :: k != "none" && ToolOf(subset, k).Ok? && c == AsCandidate(ToolOf(subset, k).value)
  {
    hide ToolOf;
    assert ranked[0] in ranked;
    if !(ranked[0] != "none" && ToolOf(subset, ranked[0]).Ok? && c == AsCandidate(ToolOf(subset, ranked[0]).value)) {
      NamedFrom(subset, ranked[1..], c);
      var k :| k in ranked[1..] && k != "none" && ToolOf(subset, k).Ok? && c == AsCandidate(ToolOf(subset, k).value);
      assert k in ranked;
    }
  }

  lemma KeysNameApart(subset: seq<Tool>, a: string, b: string)
    requires |subset| <= NAMED && DistinctTools(subset) && a in Keys(|subset|) && b in Keys(|subset|)
    requires a != b && a != "none" && b != "none"
    ensures ToolOf(subset, a).Ok? && ToolOf(subset, b).Ok? && ToolOf(subset, a).value.id != ToolOf(subset, b).value.id
  {
    hide Keys, KeyNumber;
    KeyNames(|subset|, a);
    KeyNames(|subset|, b);
  }

  lemma {:induction false} NamedDistinct(subset: seq<Tool>, ranked: seq<string>)
    requires |subset| <= NAMED && DistinctTools(subset) && Distinct(ranked) && forall k <- ranked :: k in Keys(|subset|)
    ensures DistinctCandidates(Named(subset, ranked))
  {
    hide Keys, ToolOf, DistinctTools;
    if ranked != [] {
      var first, rest := ranked[0], ranked[1..];
      assert ranked == [first] + rest;
      assert forall k <- rest :: k in ranked && k != first;
      NamedDistinct(subset, rest);
      if first != "none" && ToolOf(subset, first).Ok? {
        forall c <- Named(subset, rest) ensures c.id != ToolOf(subset, first).value.id {
          NamedFrom(subset, rest, c);
          var k :| k in rest && k != "none" && ToolOf(subset, k).Ok? && c == AsCandidate(ToolOf(subset, k).value);
          KeysNameApart(subset, first, k);
        }
      }
    }
  }

  /** Every outcome is drawn from the catalog, and an offer has two to five distinct tools. */
  lemma ChooseSelectable(tools: seq<Tool>, candidates: seq<Tool>, first: Result<Envelope, Failure>,
                         second: Result<Envelope, Failure>)
    requires |candidates| <= NAMED && DistinctTools(candidates) && forall t <- candidates :: t in tools
    requires Choose(candidates, first, second).Ok?
    ensures Selectable(tools, Choose(candidates, first, second).value)
  {
    hide Ranked, Keys, Closed, Winner, Offers, Selectable;
    if candidates == [] {
      assert Selectable(tools, Abstained("no_retrieval_match")) by { NothingSelectable(tools, "no_retrieval_match"); }
    } else if |candidates| <= 32 {
      LastSelectable(tools, candidates, first);
    } else {
      var a := Answer(first, 32).value;
      AcceptsExactly(candidates[..32], a.choice, a.probabilities);
      var won := Winner(candidates[..32], a.probabilities, Ranked(a.probabilities, Keys(32)));
      if won.value.Some? {
        ChosenSelectable(tools, candidates[..32], a.choice);
      } else {
        LastSelectable(tools, candidates, second);
      }
    }
  }

  lemma NothingSelectable(tools: seq<Tool>, reason: string)
    ensures Selectable(tools, Abstained(reason))
  {
  }

  lemma ChosenSelectable(tools: seq<Tool>, subset: seq<Tool>, key: string)
    requires ToolOf(subset, key).Ok? && forall t <- subset :: t in tools
    ensures Selectable(tools, Chosen(ToolOf(subset, key).value))
  {
    hide KeyNumber;
  }

  lemma LastSelectable(tools: seq<Tool>, subset: seq<Tool>, reply: Result<Envelope, Failure>)
    requires |subset| <= NAMED && DistinctTools(subset) && forall t <- subset :: t in tools
    requires Last(subset, reply).Ok?
    ensures Selectable(tools, Last(subset, reply).value)
  {
    hide Ranked, Keys, Closed, Winner, Offers, Distinct, Ascending, KeyNumber, Named, ToolOf, DistinctTools;
    var a := Answer(reply, |subset|).value;
    var ranked := Ranked(a.probabilities, Keys(|subset|));
    AcceptsExactly(subset, a.choice, a.probabilities);
    if Winner(subset, a.probabilities, ranked).value.Some? {
      ChosenSelectable(tools, subset, a.choice);
    } else {
      RankedClosed(a.choice, a.probabilities, |subset|);
      OfferSelectable(tools, subset, ranked);
    }
  }

  lemma OfferSelectable(tools: seq<Tool>, subset: seq<Tool>, ranked: seq<string>)
    requires |subset| <= NAMED && DistinctTools(subset) && forall t <- subset :: t in tools
    requires ranked != [] && Distinct(ranked) && forall k <- ranked :: k in Keys(|subset|)
    ensures Undecided(subset, ranked).Ok? && Selectable(tools, Undecided(subset, ranked).value)
  {
    hide Keys, KeyNumber, Distinct, Named, Offers;
    forall k <- ranked | k != "none" ensures ToolOf(subset, k).Ok? { KeyNames(|subset|, k); }
    OffersFirstFive(subset, ranked, []);
    NamedDistinct(subset, ranked);
    var all := Named(subset, ranked);
    assert [] + all == all;
    forall c <- all ensures c.id in ToolIds(tools) {
      NamedFrom(subset, ranked, c);
      var k :| k in ranked && k != "none" && ToolOf(subset, k).Ok? && c == AsCandidate(ToolOf(subset, k).value);
    }
  }

  /* ----- What the whole selection answers, told by the answers' options and probabilities ----- */

  /** The option of the tool at a position. */
  function OptionOf(i: nat): string { Key(i + 1) }

  lemma OptionFacts(n: nat, i: nat)
    ensures Before("none", OptionOf(i)) && !Before(OptionOf(i), "none") && OptionOf(i) != "none"
    ensures i < NAMED ==> KeyNumber(OptionOf(i)) == Some(i + 1)
    ensures i < n ==> OptionOf(i) in Keys(n)
  {
    hide KeyNumber;
    assert Key(i + 1)[0] == 't' && "none"[0] == 'n';
    if i < NAMED { KeyRoundTrip(i + 1); }
    if i < n { assert Keys(n)[i + 1] == OptionOf(i); }
  }

  lemma OptionIndex(n: nat, key: string) returns (i: nat)
    requires n <= NAMED && key in Keys(n) && key != "none"
    ensures i < n && key == OptionOf(i)
  {
    hide Keys;
    KeyNames(n, key);
    i := KeyNumber(key).value - 1;
  }

  /** The answer names this tool with enough probability: seventy per cent, or eighty-five if it does not only read. */
  ghost predicate Settles(subset: seq<Tool>, a: ChoiceResult, t: Tool) {
    exists i :: 0 <= i < |subset| && subset[i] == t && Sure(subset, a, i)
  }

  predicate Sure(subset: seq<Tool>, a: ChoiceResult, i: nat)
    requires i < |subset|
  {
    && a.choice == OptionOf(i) && OptionOf(i) in a.probabilities
    && a.probabilities[OptionOf(i)] >= if subset[i].effect == Read then 0.70 else 0.85
  }

  lemma WinnerSettles(subset: seq<Tool>, a: ChoiceResult, t: Tool)
    requires |subset| <= NAMED && Closed(a.choice, a.probabilities, Keys(|subset|))
    ensures var won := Winner(subset, a.probabilities, Ranked(a.probabilities, Keys(|subset|)));
            won.Ok? && (won.value == Some(t) <==> Settles(subset, a, t))
  {
    hide Ranked, Keys, KeyNumber, Winner, OptionOf;
    AcceptsExactly(subset, a.choice, a.probabilities);
    forall i | 0 <= i < |subset|
      ensures OptionOf(i) != "none" && KeyNumber(OptionOf(i)) == Some(i + 1)
    {
      OptionFacts(|subset|, i);
    }
    if a.choice != "none" {
      var n := OptionIndex(|subset|, a.choice);
      assert ToolOf(subset, a.choice) == Ok(subset[n]);
      if a.probabilities[a.choice] >= Threshold(subset[n].effect) { assert Sure(subset, a, n); }
      forall i | 0 <= i < |subset| && Sure(subset, a, i) ensures i == n {}
    }
  }

  /** One tool is more probable than another, or as probable with the earlier option. */
  predicate Likelier(p: Probabilities, i: nat, j: nat) {
    || Prob(p, OptionOf(i)) > Prob(p, OptionOf(j))
    || (Prob(p, OptionOf(i)) == Prob(p, OptionOf(j)) && Before(OptionOf(i), OptionOf(j)))
  }

  /** The five likeliest tools, or all if there are no more, likeliest first. */
  ghost predicate Likeliest(subset: seq<Tool>, p: Probabilities, choices: seq<Candidate>, best: seq<nat>) {
    && |choices| == |best| == (if |subset| < 5 then |subset| else 5)
    && (forall j :: 0 <= j < |best| ==> best[j] < |subset| && choices[j] == AsCandidate(subset[best[j]]))
    && (forall j, k :: 0 <= j < k < |best| ==> Likelier(p, best[j], best[k]))
    && (forall i, j :: 0 <= i < |subset| && 0 <= j < |best| && i !in best ==> Likelier(p, best[j], i))
  }

  /** No tool is more probable than "none". */
  predicate NoneLeads(p: Probabilities, n: nat) {
    forall i :: 0 <= i < n ==> Prob(p, "none") >= Prob(p, OptionOf(i))
  }

  lemma NoneFirst(p: Probabilities, n: nat, ranked: seq<string>)
    requires n <= NAMED && Ascending(Ranks(p), ranked) && ranked != [] && forall k :: k in ranked <==> k in Keys(n)
    ensures ranked[0] == "none" <==> NoneLeads(p, n)
  {
    hide OptionOf, Keys;
    assert ranked[0] in ranked && "none" in ranked by { assert Keys(n)[0] in Keys(n); }
    if ranked[0] == "none" {
      forall i | 0 <= i < n ensures Prob(p, "none") >= Prob(p, OptionOf(i)) {
        OptionFacts(n, i);
        var j :| 0 <= j < |ranked| && ranked[j] == OptionOf(i);
      }
    } else {
      var i := OptionIndex(n, ranked[0]);
      OptionFacts(n, i);
      var j :| 0 <= j < |ranked| && ranked[j] == "none";
      assert Ranks(p)(ranked[0], ranked[j]);
    }
  }

  /** The positions of the tools of a ranking, in its order. */
  function Positions(ranked: seq<string>): seq<nat> {
    if ranked == [] then []
    else
      var rest := Positions(ranked[1..]);
      match KeyNumber(ranked[0])
      case Some(n) => if ranked[0] != "none" && n > 0 then [n - 1] + rest else rest
      case None => rest
  }

  /** How a ranking's positions begin. */
  lemma PositionsStart(n: nat, ranked: seq<string>) returns (m: Option<nat>)
    requires n <= NAMED && ranked != [] && ranked[0] in Keys(n)
    ensures m.None? <==> ranked[0] == "none"
    ensures m.Some? ==> m.value < n && ranked[0] == OptionOf(m.value) && KeyNumber(ranked[0]) == Some(m.value + 1)
    ensures Positions(ranked) == (if m.Some? then [m.value] else []) + Positions(ranked[1..])
  {
    hide Keys, KeyNumber;
    if ranked[0] == "none" {
      NoneHasNoNumber();
      m := None;
    } else {
      var i := OptionIndex(n, ranked[0]);
      OptionFacts(n, i);
      m := Some(i);
    }
  }

  lemma {:induction false} PositionsFollow(p: Probabilities, n: nat, ranked: seq<string>)
    requires n <= NAMED && Ascending(Ranks(p), ranked) && forall k <- ranked :: k in Keys(n)
    ensures forall i: nat :: i in Positions(ranked) ==> i < n && OptionOf(i) in ranked
    ensures forall j, k :: 0 <= j < k < |Positions(ranked)| ==> Likelier(p, Positions(ranked)[j], Positions(ranked)[k])
  {
    hide OptionOf, KeyNumber, Keys, Positions;
    if ranked == [] {
      assert Positions(ranked) == [] by { NoPositions(); }
    } else {
      var rest := ranked[1..];
      assert ranked == [ranked[0]] + rest && ranked[0] in ranked;
      AscendingTail(Ranks(p), ranked);
      PositionsFollow(p, n, rest);
      var m := PositionsStart(n, ranked);
      if m.Some? {
        forall k | 0 <= k < |Positions(rest)| ensures Likelier(p, m.value, Positions(rest)[k]) {
          assert Positions(rest)[k] in Positions(rest);
          var l :| 0 <= l < |rest| && rest[l] == OptionOf(Positions(rest)[k]);
          assert Ranks(p)(ranked[0], ranked[l + 1]);
        }
      }
    }
  }

  lemma NoPositions()
    ensures Positions([]) == []
  {
  }

  /** Every ranked tool has its position. */
  lemma {:induction false} PositionsHold(n: nat, ranked: seq<string>, i: nat)
    requires n <= NAMED && i < n && OptionOf(i) in ranked && forall k <- ranked :: k in Keys(n)
    ensures i in Positions(ranked)
  {
    hide OptionOf, KeyNumber, Keys, Positions;
    assert ranked == [ranked[0]] + ranked[1..];
    assert ranked[0] in ranked;
    var m := PositionsStart(n, ranked);
    OptionFacts(n, i);
    if ranked[0] != OptionOf(i) { PositionsHold(n, ranked[1..], i); }
  }

  lemma {:induction false} NamedPositions(subset: seq<Tool>, ranked: seq<string>)
    requires |subset| <= NAMED && forall k <- ranked :: k in Keys(|subset|)
    ensures var s := Positions(ranked);
            && |Named(subset, ranked)| == |s|
            && (forall j :: 0 <= j < |s| ==> s[j] < |subset| && Named(subset, ranked)[j] == AsCandidate(subset[s[j]]))
  {
    hide OptionOf, KeyNumber, Keys, Positions, AsCandidate, ToolOf, Named;
    NamedStart(subset, ranked);
    if ranked == [] {
      NoPositions();
    } else {
      assert ranked[0] in ranked;
      NamedPositions(subset, ranked[1..]);
      var m := PositionsStart(|subset|, ranked);
      if m.Some? { NamesTool(subset, ranked[0], m.value); }
    }
  }

  lemma NamedStart(subset: seq<Tool>, ranked: seq<string>)
    ensures ranked == [] ==> Named(subset, ranked) == []
    ensures ranked != [] ==>
              Named(subset, ranked) ==
              (if ranked[0] == "none" || ToolOf(subset, ranked[0]).Err? then []
               else [AsCandidate(ToolOf(subset, ranked[0]).value)]) + Named(subset, ranked[1..])
  {
    hide ToolOf, AsCandidate;
    if ranked != [] { assert [] + Named(subset, ranked[1..]) == Named(subset, ranked[1..]); }
  }

  lemma NamesTool(subset: seq<Tool>, key: string, i: nat)
    requires i < |subset| && KeyNumber(key) == Some(i + 1)
    ensures ToolOf(subset, key) == Ok(subset[i])
  {
  }

  lemma NoneHasNoNumber()
    ensures KeyNumber("none").None?
  {
  }

  /** A ranking of all options ranks every tool once. */
  lemma AllPositions(p: Probabilities, n: nat, s: seq<nat>)
    requires (forall i: nat :: i in s <==> i < n) && forall j, k :: 0 <= j < k < |s| ==> Likelier(p, s[j], s[k])
    ensures |s| == n
  {
    hide OptionOf;
    forall j, k | 0 <= j < k < |s| ensures s[j] != s[k] { BeforeIrreflexive(OptionOf(s[j])); }
    var all := Range(n);
    forall i: nat ensures i in s <==> i in all { assert i < n ==> all[i] == i; }
    assert Distinct(all);
    SameSet(s, all);
    assert |multiset(s)| == |multiset(all)|;
  }

  /** Without a winner, the last answer makes the selection abstain exactly when "none" leads or there is only one tool;
      else the five likeliest tools are offered. */
  lemma UndecidedExactly(subset: seq<Tool>, a: ChoiceResult) returns (best: seq<nat>)
    requires 0 < |subset| <= NAMED && Closed(a.choice, a.probabilities, Keys(|subset|))
    ensures var r := Undecided(subset, Ranked(a.probabilities, Keys(|subset|)));
            && r.Ok?
            && (r == Ok(Abstained("selector_abstained")) <==> NoneLeads(a.probabilities, |subset|) || |subset| == 1)
            && (r != Ok(Abstained("selector_abstained")) ==>
                  && r.value.Ambiguous? && r.value.reason == "low_confidence"
                  && Likeliest(subset, a.probabilities, r.value.choices, best))
  {
    hide Ranked, Keys, OptionOf, KeyNumber, Closed, Named, Offers, Distinct, NoneLeads, Ascending, Likeliest;
    var p, n := a.probabilities, |subset|;
    var ranked := Ranked(p, Keys(n));
    RankedClosed(a.choice, p, n);
    NoneFirst(p, n, ranked);
    forall k <- ranked | k != "none" ensures ToolOf(subset, k).Ok? { KeyNames(n, k); }
    OffersFirstFive(subset, ranked, []);
    var all := Named(subset, ranked);
    assert [] + all == all;
    best := RanksTools(subset, p, ranked);
  }

  /** The first five tools of a full ranking are the likeliest. */
  lemma RanksTools(subset: seq<Tool>, p: Probabilities, ranked: seq<string>) returns (best: seq<nat>)
    requires |subset| <= NAMED && Ascending(Ranks(p), ranked) && forall k :: k in ranked <==> k in Keys(|subset|)
    ensures var all := Named(subset, ranked);
            |all| == |subset| && Likeliest(subset, p, if |all| <= 5 then all else all[..5], best)
  {
    hide Keys, OptionOf, KeyNumber, Named, Likelier, Positions, Ascending, AsCandidate;
    var n := |subset|;
    PositionsFollow(p, n, ranked);
    NamedPositions(subset, ranked);
    var s := Positions(ranked);
    forall i: nat | i < n ensures i in s {
      OptionFacts(n, i);
      PositionsHold(n, ranked, i);
    }
    AllPositions(p, n, s);
    best := if n <= 5 then s else s[..5];
    FirstAreLikeliest(p, n, s, best);
  }

  lemma FirstAreLikeliest(p: Probabilities, n: nat, s: seq<nat>, best: seq<nat>)
    requires best <= s && (forall i: nat :: i in s <==> i < n)
    requires forall j, k :: 0 <= j < k < |s| ==> Likelier(p, s[j], s[k])
    ensures forall i, j :: 0 <= i < n && 0 <= j < |best| && i !in best ==> Likelier(p, best[j], i)
  {
    hide Likelier;
    forall i, j | 0 <= i < n && 0 <= j < |best| && i !in best ensures Likelier(p, best[j], i) {
      assert i in s;
      var k :| 0 <= k < |s| && s[k] == i;
      assert forall l :: 0 <= l < |best| ==> best[l] in best;
      assert best[j] == s[j];
    }
  }

  /** The answer to the first question, over at most 32 tools. */
  function Narrow(candidates: seq<Tool>): seq<Tool> { if |candidates| > 32 then candidates[..32] else candidates }

  /** A tool is selected exactly when the first answer settles it among the first 32, or the first settles none of them
      and, if there are more, the second answer settles it among all. When nothing is settled the last answer decides
      between abstention and an offer of the five likeliest tools. */
  lemma ChoosesExactly(candidates: seq<Tool>, first: Result<Envelope, Failure>, second: Result<Envelope, Failure>,
                       t: Tool)
    returns (best: seq<nat>)
    requires 0 < |candidates| <= NAMED && Answer(first, |Narrow(candidates)|).Ok?
    requires |candidates| > 32 ==> Answer(second, |candidates|).Ok?
    ensures var r := Choose(candidates, first, second);
            var a := Answer(first, |Narrow(candidates)|).value;
            var b := if |candidates| > 32 then Answer(second, |candidates|).value else a;
            var early := exists u :: Settles(Narrow(candidates), a, u);
            && r.Ok?
            && (r.value == Chosen(t) <==>
                  Settles(Narrow(candidates), a, t) || (|candidates| > 32 && !early && Settles(candidates, b, t)))
            && (!r.value.Chosen? <==> !early && !exists u :: Settles(candidates, b, u))
            && (!r.value.Chosen? ==>
                  var p := b.probabilities;
                  && (r.value == Abstained("selector_abstained") <==> NoneLeads(p, |candidates|) || |candidates| == 1)
                  && (r.value != Abstained("selector_abstained") ==>
                        && r.value.Ambiguous? && r.value.reason == "low_confidence"
                        && Likeliest(candidates, p, r.value.choices, best)))
  {
    hide Ranked, Keys, Closed, Winner, Undecided, Settles, NoneLeads, Likeliest;
    var subset := Narrow(candidates);
    var a := Answer(first, |subset|).value;
    var won := Winner(subset, a.probabilities, Ranked(a.probabilities, Keys(|subset|)));
    forall u ensures won.Ok? && (won.value == Some(u) <==> Settles(subset, a, u)) { WinnerSettles(subset, a, u); }
    var b := if |candidates| > 32 then Answer(second, |candidates|).value else a;
    var last := Winner(candidates, b.probabilities, Ranked(b.probabilities, Keys(|candidates|)));
    forall u ensures last.Ok? && (last.value == Some(u) <==> Settles(candidates, b, u)) {
      WinnerSettles(candidates, b, u);
    }
    best := UndecidedExactly(candidates, b);
    WinnerSettles(subset, a, t);
    WinnerSettles(candidates, b, t);
    if won.value.Some? { assert Settles(subset, a, won.value.value); }
    if last.value.Some? { assert Settles(candidates, b, last.value.value); }
  }

  /** Without candidates nothing is asked, and an invalid answer is the outcome whenever it is asked for. */
  lemma ChooseRefusesExactly(candidates: seq<Tool>, first: Result<Envelope, Failure>, second: Result<Envelope,
                             Failure>, f: Failure)
    requires |candidates| <= NAMED
    ensures var r := Choose(candidates, first, second);
            && (candidates == [] <==> r == Ok(Abstained("no_retrieval_match")))
            && (r == Err(f) <==>
                  candidates != []
                  && var a := Answer(first, |Narrow(candidates)|);
                     a == Err(f)
                     || (a.Ok? && |candidates| > 32 && Answer(second, |candidates|) == Err(f)
                         && !exists u :: Settles(Narrow(candidates), a.value, u)))
  {
    hide Ranked, Keys, Closed, Winner, Undecided, Settles;
    if candidates != [] {
      var subset := Narrow(candidates);
      var a := Answer(first, |subset|);
      if a.Ok? {
        var won := Winner(subset, a.value.probabilities, Ranked(a.value.probabilities, Keys(|subset|)));
        forall u ensures won.Ok? && (won.value == Some(u) <==> Settles(subset, a.value, u)) {
          WinnerSettles(subset, a.value, u);
        }
        WinnerSettles(subset, a.value, candidates[0]);
        if won.value.Some? { assert Settles(subset, a.value, won.value.value); }
        if |candidates| > 32 {
          var b := Answer(second, |candidates|);
          if b.Ok? {
            WinnerSettles(candidates, b.value, candidates[0]);
            var best := UndecidedExactly(candidates, b.value);
            UndecidedReason(candidates, b.value);
          }
        } else {
          var best := UndecidedExactly(candidates, a.value);
          UndecidedReason(candidates, a.value);
        }
      }
    }
  }

  lemma UndecidedReason(subset: seq<Tool>, a: ChoiceResult)
    requires 0 < |subset|
    ensures Undecided(subset, Ranked(a.probabilities, Keys(|subset|))) != Ok(Abstained("no_retrieval_match"))
  {
    hide Ranked, Keys, Offers;
    assert "selector_abstained"[0] != "no_retrieval_match"[0];
  }
}
