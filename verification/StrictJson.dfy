/** The strict readers of the two cores, over the tree of tokens of a request. Go checks its limits while it reads;
    Rust reads first and bounds afterwards. */
module StrictJson {
  import opened WireJson

  const WIDE := Limits(10000, 10000)
  const ARGUMENTS := Limits(1000, 256)

  /** The JSON library of the Rust core opens no more than this many lists and objects inside one another. */
  const LIBRARY_DEPTH: nat := 127

  /** No object has a key twice. */
  predicate Unique(v: Json) {
    match v
    case Arr(items) => forall i :: 0 <= i < |items| ==> Unique(items[i])
    case Obj(members) => DistinctKeys(members) && forall i :: 0 <= i < |members| ==> Unique(members[i].value)
    case _ => true
  }

  /** What a core accepts. */
  predicate Strict(v: Json, depth: nat) { Sendable(v, WIDE, depth) && Unique(v) }

  /* ----- Go ----- */

  method GoParse(v: Json, depth: nat) returns (ok: bool)
    ensures ok <==> Strict(v, depth)
    decreases v
  {
    hide DANGEROUS;
    if depth > MAX_DEPTH { return false; }
    match v {
      case Obj(members) => ok := GoMembers(members, depth);
      case Arr(items) =>
        for i := 0 to |items|
          invariant i <= WIDE.maxArray && forall j :: 0 <= j < i ==> Strict(items[j], depth + 1)
        {
          var child := GoParse(items[i], depth + 1);
          if !child { return false; }
          if i + 1 > 10000 { return false; }
        }
        ok := true;
      case Num(n) => ok := Safe(n);
      case _ => ok := true;
    }
  }

  method GoMembers(members: seq<Member>, depth: nat) returns (ok: bool)
    ensures ok <==> |members| <= 10000 && DistinctUpTo(members, |members|)
                    && forall j :: 0 <= j < |members| ==>
                         members[j].key !in DANGEROUS && Strict(members[j].value, depth + 1)
    decreases members
  {
    hide DANGEROUS, Strict, KeysOf, DistinctUpTo;
    NoKeysYet(members);
    var keys: set<Text> := {};
    for i := 0 to |members|
      invariant keys == KeysOf(members[..i]) && |keys| == i <= 10000 && DistinctUpTo(members, i)
      invariant forall j :: 0 <= j < i ==> members[j].key !in DANGEROUS && Strict(members[j].value, depth + 1)
    {
      var m := members[i];
      NextKey(members, i);
      if m.key in DANGEROUS || m.key in keys { return false; }
      var child := GoParse(m.value, depth + 1);
      if !child { return false; }
      keys := keys + {m.key};
      if |keys| > 10000 { return false; }
    }
    ok := true;
  }

  /** The first n keys differ. */
  predicate DistinctUpTo(members: seq<Member>, n: nat)
    requires n <= |members|
  {
    forall i, j :: 0 <= i < j < n ==> members[i].key != members[j].key
  }

  lemma NoKeysYet(members: seq<Member>)
    ensures KeysOf(members[..0]) == {} && DistinctUpTo(members, 0)
  {
  }

  /** One more key: seen before exactly when it repeats, and a repeated key stays repeated. */
  lemma NextKey(members: seq<Member>, i: nat)
    requires i < |members| && DistinctUpTo(members, i)
    ensures KeysOf(members[..i + 1]) == KeysOf(members[..i]) + {members[i].key}
    ensures DistinctUpTo(members, i + 1) <==> members[i].key !in KeysOf(members[..i])
    ensures DistinctUpTo(members, |members|) ==> members[i].key !in KeysOf(members[..i])
  {
    assert members[..i + 1] == members[..i] + [members[i]];
    KeysSnoc(members[..i], members[i]);
    if members[i].key in KeysOf(members[..i]) {
      var m :| m in members[..i] && m.key == members[i].key;
      var j :| 0 <= j < i && members[..i][j] == m;
      assert members[j].key == members[i].key;
    } else {
      forall j | 0 <= j < i ensures members[j].key != members[i].key { assert members[..i][j] in members[..i]; }
    }
  }

  /** The profile of arguments and schemas, after reading. */
  predicate Profiled(v: Json, depth: nat) {
    depth <= MAX_DEPTH
    && match v
       case Obj(members) =>
         |members| <= ARGUMENTS.maxProperties
         && forall i :: 0 <= i < |members| ==> members[i].key !in DANGEROUS && Profiled(members[i].value, depth + 1)
       case Arr(items) => |items| <= ARGUMENTS.maxArray && forall i :: 0 <= i < |items| ==>
         Profiled(items[i], depth + 1)
       case _ => true
  }

  /* ----- Rust ----- */

  /** What the visitor lets through: everything but the depth the cores allow. */
  predicate Visited(v: Json, depth: nat) {
    && (v.Arr? || v.Obj? ==> depth < LIBRARY_DEPTH)
    && match v
       case Num(n) => Safe(n)
       case Arr(items) => |items| <= 10000 && forall i :: 0 <= i < |items| ==> Visited(items[i], depth + 1)
       case Obj(members) =>
         && |members| <= 10000 && DistinctKeys(members)
         && forall i :: 0 <= i < |members| ==> members[i].key !in DANGEROUS && Visited(members[i].value, depth + 1)
       case _ => true
  }

  method RustVisit(v: Json, depth: nat) returns (ok: bool)
    ensures ok <==> Visited(v, depth)
    decreases v
  {
    hide DANGEROUS;
    if (v.Arr? || v.Obj?) && depth >= LIBRARY_DEPTH { return false; }
    match v {
      case Arr(items) =>
        var values := 0;
        for i := 0 to |items|
          invariant values == i <= 10000 && forall j :: 0 <= j < i ==> Visited(items[j], depth + 1)
        {
          var child := RustVisit(items[i], depth + 1);
          if !child { return false; }
          if values >= 10000 { return false; }
          values := values + 1;
        }
        ok := true;
      case Obj(members) => ok := RustVisitMap(members, depth);
      case Num(n) => ok := Safe(n);
      case _ => ok := true;
    }
  }

  method RustVisitMap(members: seq<Member>, depth: nat) returns (ok: bool)
    ensures ok <==> |members| <= 10000 && DistinctUpTo(members, |members|)
                    && forall j :: 0 <= j < |members| ==>
                         members[j].key !in DANGEROUS && Visited(members[j].value, depth + 1)
    decreases members
  {
    hide DANGEROUS, Visited, KeysOf, DistinctUpTo;
    NoKeysYet(members);
    var values: set<Text> := {};
    for i := 0 to |members|
      invariant values == KeysOf(members[..i]) && |values| == i <= 10000 && DistinctUpTo(members, i)
      invariant forall j :: 0 <= j < i ==> members[j].key !in DANGEROUS && Visited(members[j].value, depth + 1)
    {
      var m := members[i];
      NextKey(members, i);
      if |values| >= 10000 || m.key in values || m.key in DANGEROUS { return false; }
      var child := RustVisit(m.value, depth + 1);
      if !child { return false; }
      values := values + {m.key};
    }
    ok := true;
  }

  predicate Within(v: Json, depth: nat, limits: Limits) {
    depth <= MAX_DEPTH
    && match v
       case Obj(members) =>
         |members| <= limits.maxProperties && forall i ::
             0 <= i < |members| ==> Within(members[i].value, depth + 1, limits)
       case Arr(items) => |items| <= limits.maxArray && forall i :: 0 <= i < |items| ==>
         Within(items[i], depth + 1, limits)
       case _ => true
  }

  method RustBounded(v: Json, depth: nat, args: bool) returns (ok: bool)
    ensures ok <==> Within(v, depth, if args then ARGUMENTS else WIDE)
  {
    if depth > MAX_DEPTH { return false; }
    match v {
      case Obj(members) =>
        if |members| > (if args then 256 else 10000) { return false; }
        for i := 0 to |members|
          invariant forall j :: 0 <= j < i ==> Within(members[j].value, depth + 1, if args then ARGUMENTS else WIDE)
        {
          var child := RustBounded(members[i].value, depth + 1, args);
          if !child { return false; }
        }
        ok := true;
      case Arr(items) =>
        if |items| > (if args then 1000 else 10000) { return false; }
        for i := 0 to |items|
          invariant forall j :: 0 <= j < i ==> Within(items[j], depth + 1, if args then ARGUMENTS else WIDE)
        {
          var child := RustBounded(items[i], depth + 1, args);
          if !child { return false; }
        }
        ok := true;
      case _ => ok := true;
    }
  }

  /** Reading strictly in Rust: visit, then bound. */
  method RustStrict(v: Json) returns (ok: bool)
    ensures ok <==> Strict(v, 0)
  {
    VisitThenBound(v, 0);
    var visited := RustVisit(v, 0);
    if !visited { return false; }
    ok := RustBounded(v, 0, false);
  }

  /* ----- Both accept the same ----- */

  lemma {:induction false} VisitThenBound(v: Json, depth: nat)
    ensures Visited(v, depth) && Within(v, depth, WIDE) <==> Strict(v, depth)
    decreases v
  {
    hide DANGEROUS;
    match v {
      case Arr(items) => forall i | 0 <= i < |items| { VisitThenBound(items[i], depth + 1); }
      case Obj(members) => forall i | 0 <= i < |members| { VisitThenBound(members[i].value, depth + 1); }
      case _ =>
    }
  }

  /** On what was read strictly, the profile of arguments is in Go what bounding is in Rust, and it is the SDK's
      own check of values. */
  lemma {:induction false} ProfilesAgree(v: Json, depth: nat)
    requires Strict(v, depth)
    ensures Profiled(v, depth) <==> Within(v, depth, ARGUMENTS)
    ensures Profiled(v, depth) <==> Sendable(v, ARGUMENTS, depth)
    decreases v
  {
    hide DANGEROUS;
    match v {
      case Arr(items) => forall i | 0 <= i < |items| { ProfilesAgree(items[i], depth + 1); }
      case Obj(members) => forall i | 0 <= i < |members| { ProfilesAgree(members[i].value, depth + 1); }
      case _ =>
    }
  }
}
