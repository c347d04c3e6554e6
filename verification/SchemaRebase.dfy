/**
 Moving a tool's input schema under a plugin operation: every local reference is rebased so
 that it means in the wrapping document what it meant in its own.
 */
module SchemaRebase {
  import opened Wrappers

  datatype Member = Member(key: string, value: Json)

  /** Numbers stand for themselves; an object's members keep their order. */
  datatype Json =
    Null | Bool(b: bool) | Number(text: string) | Str(s: string) | Arr(items: seq<Json>) | Obj(members: seq<Member>)

  const REF := "$ref"

  // ---- rebasing -------------------------------------------------------------------------

  predicate IsLocal(reference: string) {
    reference == "#" || (|reference| >= 2 && reference[..2] == "#/")
  }

  function RebaseReference(reference: string, base: string): string {
    if reference == "#" then base
    else if |reference| >= 2 && reference[..2] == "#/" then base + reference[1..]
    else reference
  }

  function RebaseMember(m: Member, base: string): Member
    decreases m, 0
  {
    if m.key == REF && m.value.Str? then Member(m.key, Str(RebaseReference(m.value.s, base)))
    else Member(m.key, Rebase(m.value, base))
  }

  function Rebase(v: Json, base: string): Json
    decreases v
  {
    match v
    case Arr(items) => Arr(seq(|items|, i requires 0 <= i < |items| => Rebase(items[i], base)))
    case Obj(members) => Obj(seq(|members|, i requires 0 <= i < |members| => RebaseMember(members[i], base)))
    case _ => v
  }

  /** The references this value holds at any depth that rebasing touches. */
  predicate HasLocal(v: Json)
    decreases v
  {
    match v
    case Arr(items) => exists i :: 0 <= i < |items| && HasLocal(items[i])
    case Obj(members) =>
      exists i :: 0 <= i < |members|
        && if members[i].key == REF && members[i].value.Str? then IsLocal(members[i].value.s)
             else HasLocal(members[i].value)
    case _ => false
  }

  // ---- JSON Pointer (RFC 6901, sections 3 and 4) ----------------------------------------

  function SegmentEnd(p: string, from: nat): (n: nat)
    requires from <= |p|
    ensures from <= n <= |p| && (n < |p| ==> p[n] == '/')
    decreases |p| - from
  {
    if from == |p| || p[from] == '/' then from else SegmentEnd(p, from + 1)
  }

  function Unescape(s: string): string {
    if s == [] then []
    else if |s| >= 2 && s[..2] == "~1" then "/" + Unescape(s[2..])
    else if |s| >= 2 && s[..2] == "~0" then "~" + Unescape(s[2..])
    else [s[0]] + Unescape(s[1..])
  }

  predicate IsPointer(p: string) { |p| > 0 ==> p[0] == '/' }

  /** The reference tokens of a pointer. */
  function Tokens(p: string): seq<string>
    requires IsPointer(p)
    decreases |p|
  {
    if |p| == 0 then []
    else
      var n := SegmentEnd(p, 1);
      [Unescape(p[1..n])] + Tokens(p[n..])
  }

  predicate IsIndexText(token: string) {
    && token != "" && (forall i :: 0 <= i < |token| ==> '0' <= token[i] <= '9')
    && (token[0] == '0' ==> |token| == 1)
  }

  function IndexOf(token: string): nat
    requires forall i :: 0 <= i < |token| ==> '0' <= token[i] <= '9'
  {
    if token == "" then 0 else 10 * IndexOf(token[..|token| - 1]) + (token[|token| - 1] as int - '0' as int)
  }

  function Find(members: seq<Member>, key: string): Option<Json> {
    if members == [] then None
    else if members[0].key == key then Some(members[0].value)
    else Find(members[1..], key)
  }

  function Child(v: Json, token: string): Option<Json> {
    match v
    case Obj(members) => Find(members, token)
    case Arr(items) => if IsIndexText(token) && IndexOf(token) < |items| then Some(items[IndexOf(token)]) else None
    case _ => None
  }

  function Evaluate(v: Json, tokens: seq<string>): Option<Json>
    decreases |tokens|
  {
    if tokens == [] then Some(v)
    else match Child(v, tokens[0])
      case None => None
      case Some(child) => Evaluate(child, tokens[1..])
  }

  /** What a local reference points at. */
  function Resolve(document: Json, reference: string): Option<Json>
    requires IsLocal(reference)
  {
    Evaluate(document, Tokens(reference[1..]))
  }

  // ---- the wrapped schema ---------------------------------------------------------------

  const PROPERTIES := "properties"
  const ARGUMENTS := "arguments"
  const BASE := "#" + ("/" + PROPERTIES) + ("/" + ARGUMENTS)

  function Wrapped(name: string, schema: Json): Json {
    Obj([Member("type", Str("object")),
         Member("required", Arr([Str("name"), Str("arguments")])),
         Member(PROPERTIES, Obj([Member("name", Obj([Member("const", Str(name))])),
                                   Member(ARGUMENTS, Rebase(schema, BASE))])),
         Member("additionalProperties", Bool(false))])
  }

  /** A pointer into the wrapped schema starts with the way to the arguments. */
  lemma {:induction false} TokensConcat(a: string, b: string)
    requires IsPointer(a) && IsPointer(b)
    ensures IsPointer(a + b) && Tokens(a + b) == Tokens(a) + Tokens(b)
    decreases |a|
  {
    hide Unescape, SegmentEnd, Tokens;
    if a == "" {
      NoTokens();
      assert a + b == b;
    } else {
      var n := SegmentEnd(a, 1);
      SegmentEndConcat(a, b, 1);
      SlicesConcat(a, b, n);
      TokensOnce(a);
      TokensOnce(a + b);
      TokensConcat(a[n..], b);
    }
  }

  lemma NoTokens()
    ensures Tokens("") == []
  {
  }

  lemma TokensOnce(p: string)
    requires p != "" && IsPointer(p)
    ensures var n := SegmentEnd(p, 1); Tokens(p) == [Unescape(p[1..n])] + Tokens(p[n..])
  {
  }

  lemma SlicesConcat(a: string, b: string, n: nat)
    requires 1 <= n <= |a|
    ensures (a + b)[1..n] == a[1..n] && (a + b)[n..] == a[n..] + b
  {
  }

  lemma {:induction false} SegmentEndConcat(a: string, b: string, from: nat)
    requires from <= |a| && IsPointer(b)
    ensures SegmentEnd(a + b, from) == SegmentEnd(a, from)
    decreases |a| - from
  {
    if from < |a| && a[from] != '/' {
      SegmentEndConcat(a, b, from + 1);
    }
  }

  // ---- tokens written out and read back -------------------------------------------------

  function Escape(s: string): string {
    if s == [] then []
    else (if s[0] == '~' then "~0" else if s[0] == '/' then "~1" else [s[0]]) + Escape(s[1..])
  }

  function PointerOf(tokens: seq<string>): string {
    if tokens == [] then "" else "/" + Escape(tokens[0]) + PointerOf(tokens[1..])
  }

  lemma {:induction false} UnescapeEscaped(s: string)
    ensures Unescape(Escape(s)) == s
    ensures forall i :: 0 <= i < |Escape(s)| ==> Escape(s)[i] != '/'
  {
    if s != [] {
      UnescapeEscaped(s[1..]);
      var e, rest := Escape(s), Escape(s[1..]);
      if s[0] == '~' || s[0] == '/' {
        assert e[..2] == (if s[0] == '~' then "~0" else "~1") && e[2..] == rest;
      } else {
        assert e[0] == s[0] && e[1..] == rest;
        assert |e| >= 2 ==> e[..2][0] != '~';
      }
      assert [s[0]] + s[1..] == s;
    }
  }

  lemma FirstToken(escaped: string, rest: string)
    requires IsPointer(rest) && forall i :: 0 <= i < |escaped| ==> escaped[i] != '/'
    ensures var p := "/" + escaped + rest;
            && IsPointer(p) && SegmentEnd(p, 1) == 1 + |escaped|
            && p[1..1 + |escaped|] == escaped && p[1 + |escaped|..] == rest
  {
    var first := "/" + escaped;
    NoSlash(first, 1);
    SegmentEndConcat(first, rest, 1);
  }

  /** Any tokens, written as a pointer with their escapes, are read back. */
  lemma {:induction false} TokensOfPointer(tokens: seq<string>)
    ensures IsPointer(PointerOf(tokens)) && Tokens(PointerOf(tokens)) == tokens
  {
    if tokens == [] {
      NoTokens();
    } else {
      var rest := PointerOf(tokens[1..]);
      TokensOfPointer(tokens[1..]);
      UnescapeEscaped(tokens[0]);
      FirstToken(Escape(tokens[0]), rest);
      hide Unescape, SegmentEnd, Escape;
      TokensOnce(PointerOf(tokens));
    }
  }

  function Digit(d: nat): char
    requires d < 10
  {
    ('0' as int + d) as char
  }

  function Digits(n: nat): string {
    (if n < 10 then "" else Digits(n / 10)) + [Digit(n % 10)]
  }

  /** An array index is a number in plain digits, each number in just one way. */
  lemma {:induction false} IndexOfDigits(n: nat)
    ensures IsIndexText(Digits(n)) && IndexOf(Digits(n)) == n
    ensures n > 0 ==> Digits(n)[0] != '0'
  {
    var front := if n < 10 then "" else Digits(n / 10);
    if n >= 10 {
      IndexOfDigits(n / 10);
    }
    assert Digits(n)[..|Digits(n)| - 1] == front;
  }

  lemma DigitsNext(front: nat, d: nat)
    requires front > 0 && d < 10
    ensures Digits(10 * front + d) == Digits(front) + [Digit(d)]
  {
  }

  lemma FrontIsIndex(token: string)
    requires IsIndexText(token) && |token| > 1
    ensures var front := token[..|token| - 1]; IsIndexText(front) && front != "0"
  {
    assert token[0] == token[..|token| - 1][0];
  }

  /** And every index text is some number's digits. */
  lemma {:induction false} IndexIsDigits(token: string) returns (n: nat)
    requires IsIndexText(token)
    ensures token == Digits(n) && (token != "0" ==> n > 0)
    decreases |token|
  {
    var front, d := token[..|token| - 1], token[|token| - 1] as int - '0' as int;
    assert token == front + [Digit(d)];
    if |token| == 1 {
      n := d;
    } else {
      FrontIsIndex(token);
      hide IsIndexText, Digits, Digit;
      var m := IndexIsDigits(front);
      DigitsNext(m, d);
      n := 10 * m + d;
    }
  }

  predicate IsWord(s: string) {
    forall i :: 0 <= i < |s| ==> s[i] != '/' && s[i] != '~'
  }

  lemma WordToken(word: string)
    requires IsWord(word)
    ensures IsPointer("/" + word) && Tokens("/" + word) == [word]
  {
    var p := "/" + word;
    NoSlash(p, 1);
    NoTilde(word);
    assert p[1..|p|] == word && p[|p|..] == [];
    assert Tokens(p[|p|..]) == [];
  }

  lemma BaseWords()
    ensures IsWord(PROPERTIES) && IsWord(ARGUMENTS)
  {
  }

  lemma BaseTokens()
    ensures IsPointer(BASE[1..]) && Tokens(BASE[1..]) == [PROPERTIES, ARGUMENTS]
  {
    hide PROPERTIES, ARGUMENTS, IsWord, Tokens;
    BaseWords();
    WordToken(PROPERTIES);
    WordToken(ARGUMENTS);
    TokensConcat("/" + PROPERTIES, "/" + ARGUMENTS);
    BaseText(PROPERTIES, ARGUMENTS);
  }

  lemma BaseText(p: string, q: string)
    ensures ("#" + ("/" + p) + ("/" + q))[1..] == ("/" + p) + ("/" + q)
    ensures ("#" + ("/" + p) + ("/" + q))[..2] == "#/"
  {
  }

  lemma {:induction false} NoSlash(p: string, from: nat)
    requires from <= |p| && forall i :: from <= i < |p| ==> p[i] != '/'
    ensures SegmentEnd(p, from) == |p|
    decreases |p| - from
  {
    if from < |p| {
      NoSlash(p, from + 1);
    }
  }

  lemma {:induction false} NoTilde(s: string)
    requires forall i :: 0 <= i < |s| ==> s[i] != '~'
    ensures Unescape(s) == s
  {
    if s != [] {
      NoTilde(s[1..]);
      assert s == [s[0]] + s[1..];
    }
  }

  // ---- the rebased document mirrors the original ----------------------------------------

  /** `b` is what rebasing makes of `a` where it stands. */
  ghost predicate Mirrors(a: Json, b: Json, base: string) {
    b == Rebase(a, base) || (a.Str? && b.Str?)
  }

  lemma {:induction false} FindRebased(members: seq<Member>, rebased: seq<Member>, key: string, base: string)
    requires |members| == |rebased| && forall i :: 0 <= i < |members| ==> rebased[i] == RebaseMember(members[i], base)
    ensures Find(members, key).Some? <==> Find(rebased, key).Some?
    ensures Find(members, key).Some? ==> Mirrors(Find(members, key).value, Find(rebased, key).value, base)
  {
    hide Rebase;
    if members != [] {
      assert rebased[0] == RebaseMember(members[0], base);
      FindRebased(members[1..], rebased[1..], key, base);
    }
  }

  lemma ChildRebased(a: Json, token: string, base: string)
    ensures Child(a, token).Some? <==> Child(Rebase(a, base), token).Some?
    ensures Child(a, token).Some? ==> Mirrors(Child(a, token).value, Child(Rebase(a, base), token).value, base)
  {
    if a.Obj? {
      FindRebased(a.members, Rebase(a, base).members, token, base);
    }
  }

  /** A pointer resolves in the rebased document exactly when it does in the original. */
  lemma {:induction false} EvaluateRebased(a: Json, tokens: seq<string>, base: string)
    ensures Evaluate(a, tokens).Some? <==> Evaluate(Rebase(a, base), tokens).Some?
    ensures Evaluate(a, tokens).Some? ==>
              Mirrors(Evaluate(a, tokens).value, Evaluate(Rebase(a, base), tokens).value, base)
    decreases |tokens|
  {
    hide Child, Rebase;
    if tokens != [] {
      ChildRebased(a, tokens[0], base);
      if Child(a, tokens[0]).Some? {
        var child := Child(a, tokens[0]).value;
        var image := Child(Rebase(a, base), tokens[0]).value;
        if image == Rebase(child, base) {
          EvaluateRebased(child, tokens[1..], base);
        } else {
          TextIsLeaf(child, tokens[1..]);
          TextIsLeaf(image, tokens[1..]);
        }
      }
    }
  }

  lemma TextIsLeaf(a: Json, tokens: seq<string>)
    requires a.Str?
    ensures Evaluate(a, tokens) == if tokens == [] then Some(a) else None
  {
  }

  lemma RebasedReference(reference: string)
    requires IsLocal(reference)
    ensures IsLocal(RebaseReference(reference, BASE))
    ensures Tokens(RebaseReference(reference, BASE)[1..]) == [PROPERTIES, ARGUMENTS] + Tokens(reference[1..])
  {
    hide Tokens, PROPERTIES, ARGUMENTS;
    BaseTokens();
    BaseText(PROPERTIES, ARGUMENTS);
    TokensConcat(BASE[1..], reference[1..]);
    hide BASE;
    LocalText(BASE, reference);
    var rebased := RebaseReference(reference, BASE);
  }

  lemma LocalText(base: string, reference: string)
    requires |base| >= 2 && base[..2] == "#/" && IsLocal(reference)
    ensures var rebased := RebaseReference(reference, base);
            IsLocal(rebased) && rebased[1..] == base[1..] + reference[1..]
  {
    LocalReference(reference, base);
    assert (base + reference[1..])[..2] == base[..2];
    assert (base + reference[1..])[1..] == base[1..] + reference[1..];
  }

  /** The way to the arguments of the wrapped schema leads to the rebased schema. */
  lemma WrappedArguments(name: string, schema: Json, tokens: seq<string>)
    ensures Evaluate(Wrapped(name, schema), [PROPERTIES, ARGUMENTS] + tokens) == Evaluate(Rebase(schema, BASE), tokens)
  {
    hide Rebase;
    var document := Wrapped(name, schema);
    var path := [PROPERTIES, ARGUMENTS] + tokens;
    var properties := document.members[2].value;
    FindThird(document.members, PROPERTIES);
    FindSecond(properties.members, ARGUMENTS);
    assert path[1..] == [ARGUMENTS] + tokens && path[1..][1..] == tokens;
    assert Evaluate(document, path) == Evaluate(properties, path[1..]);
  }

  lemma FindSecond(members: seq<Member>, key: string)
    requires |members| >= 2 && members[0].key != key && members[1].key == key
    ensures Find(members, key) == Some(members[1].value)
  {
    assert members[1..][0] == members[1];
    assert Find(members[1..], key) == Some(members[1].value);
  }

  lemma FindThird(members: seq<Member>, key: string)
    requires |members| >= 3 && members[0].key != key && members[1].key != key && members[2].key == key
    ensures Find(members, key) == Some(members[2].value)
  {
    FindSecond(members[1..], key);
  }

  /**
   A local reference of the input schema, rebased, resolves in the wrapped schema exactly when
   it did in the schema, and to the rebased node; text it points at stays text.
   */
  lemma ReferencesKeepTheirTargets(name: string, schema: Json, reference: string)
    requires IsLocal(reference)
    ensures var rebased := RebaseReference(reference, BASE);
            && IsLocal(rebased)
            && (Resolve(schema, reference).Some? <==> Resolve(Wrapped(name, schema), rebased).Some?)
            && (Resolve(schema, reference).Some? && !Resolve(schema, reference).value.Str? ==>
                  Resolve(Wrapped(name, schema), rebased) == Some(Rebase(Resolve(schema, reference).value, BASE)))
            && (Resolve(schema, reference).Some? && Resolve(schema, reference).value.Str? ==>
                  Resolve(Wrapped(name, schema), rebased).value.Str?)
  {
    hide Rebase, Tokens, Wrapped, Evaluate, RebaseReference;
    RebasedReference(reference);
    WrappedArguments(name, schema, Tokens(reference[1..]));
    EvaluateRebased(schema, Tokens(reference[1..]), BASE);
    RebaseKeepsKind(schema, reference);
  }

  lemma RebaseKeepsKind(schema: Json, reference: string)
    ensures forall v :: Rebase(v, BASE).Str? <==> v.Str?
  {
  }

  // ---- laws of rebasing -----------------------------------------------------------------

  /** Rebasing twice is rebasing once, by the bases put together. */
  lemma {:induction false} RebaseTwice(v: Json, inner: string, outer: string)
    requires IsLocal(inner) && IsLocal(outer)
    ensures Rebase(Rebase(v, inner), outer) == Rebase(v, outer + inner[1..])
    decreases v
  {
    match v
    case Arr(items) =>
      forall i | 0 <= i < |items|
        ensures Rebase(Rebase(items[i], inner), outer) == Rebase(items[i], outer + inner[1..])
      {
        RebaseTwice(items[i], inner, outer);
      }
    case Obj(members) =>
      forall i | 0 <= i < |members|
        ensures RebaseMember(RebaseMember(members[i], inner), outer) == RebaseMember(members[i], outer + inner[1..])
      {
        RebaseMemberTwice(members[i], inner, outer);
      }
    case _ =>
  }

  lemma {:induction false} RebaseMemberTwice(m: Member, inner: string, outer: string)
    requires IsLocal(inner) && IsLocal(outer)
    ensures RebaseMember(RebaseMember(m, inner), outer) == RebaseMember(m, outer + inner[1..])
    decreases m, 0
  {
    if m.key == REF && m.value.Str? {
      ReferenceTwice(m.value.s, inner, outer);
    } else {
      RebaseTwice(m.value, inner, outer);
      assert Rebase(m.value, inner).Str? ==> m.value.Str?;
    }
  }

  lemma ReferenceTwice(reference: string, inner: string, outer: string)
    requires IsLocal(inner) && IsLocal(outer)
    ensures RebaseReference(RebaseReference(reference, inner), outer) == RebaseReference(reference, outer + inner[1..])
  {
    if IsLocal(reference) {
      LocalTwice(reference, inner, outer, inner[1..]);
    } else {
      ForeignReference(reference, inner);
      ForeignReference(reference, outer);
      ForeignReference(reference, outer + inner[1..]);
    }
  }

  lemma LocalTwice(reference: string, inner: string, outer: string, path: string)
    requires IsLocal(reference) && IsLocal(inner) && path == inner[1..]
    ensures RebaseReference(RebaseReference(reference, inner), outer) == RebaseReference(reference, outer + path)
  {
    LocalNonempty(reference);
    var rest := reference[1..];
    LocalReference(reference, inner);
    LocalReference(reference, outer + path);
    OnceRebased(reference, inner, outer);
    Associates(outer, path, rest);
    hide RebaseReference, IsLocal;
  }

  lemma Associates(a: string, b: string, c: string)
    ensures a + (b + c) == (a + b) + c
  {
  }

  lemma LocalNonempty(reference: string)
    requires IsLocal(reference)
    ensures |reference| >= 1
  {
  }

  lemma ForeignReference(reference: string, base: string)
    requires !IsLocal(reference)
    ensures RebaseReference(reference, base) == reference
  {
  }

  /** Every local reference is rebased alike, the whole document's too. */
  lemma LocalReference(reference: string, base: string)
    requires IsLocal(reference)
    ensures RebaseReference(reference, base) == base + reference[1..]
  {
    if reference == "#" {
      assert reference[1..] == [] && base + [] == base;
    }
  }

  lemma OnceRebased(reference: string, inner: string, outer: string)
    requires IsLocal(reference) && IsLocal(inner)
    ensures RebaseReference(inner + reference[1..], outer) == outer + (inner[1..] + reference[1..])
  {
    var once := inner + reference[1..];
    if inner == "#" {
      assert once == reference;
    } else {
      assert once[..2] == inner[..2];
    }
    LocalReference(once, outer);
    assert once[1..] == inner[1..] + reference[1..];
  }

  /**
   Rebasing changes a value exactly when it holds a local reference and the base is not the
   document itself.  So a literal under `const`, `enum` or `default` keeps its value unless it
   holds something that looks like a local reference.
   */
  lemma {:induction false} RebaseIsIdentity(v: Json, base: string)
    requires IsLocal(base)
    ensures Rebase(v, base) == v <==> base == "#" || !HasLocal(v)
    decreases v
  {
    match v
    case Arr(items) =>
      forall i | 0 <= i < |items|
        ensures Rebase(items[i], base) == items[i] <==> base == "#" || !HasLocal(items[i])
      {
        RebaseIsIdentity(items[i], base);
      }
      assert Rebase(v, base) == v <==> forall i :: 0 <= i < |items| ==> Rebase(items[i], base) == items[i];
    case Obj(members) =>
      forall i | 0 <= i < |members|
        ensures RebaseMember(members[i], base) == members[i] <==>
                base == "#" || !(if members[i].key == REF && members[i].value.Str? then IsLocal(members[i].value.s)
                                 else HasLocal(members[i].value))
      {
        MemberIsIdentity(members[i], base);
      }
      assert Rebase(v, base) == v <==> forall i :: 0 <= i < |members| ==> RebaseMember(members[i], base) == members[i];
    case _ =>
  }

  lemma {:induction false} MemberIsIdentity(m: Member, base: string)
    requires IsLocal(base)
    ensures RebaseMember(m, base) == m <==>
            base == "#" || !(if m.key == REF && m.value.Str? then IsLocal(m.value.s) else HasLocal(m.value))
    decreases m, 0
  {
    if m.key == REF && m.value.Str? {
      var s := m.value.s;
      if IsLocal(s) {
        assert RebaseReference(s, base) == base + s[1..];
        if base == "#" {
          assert "#" + s[1..] == s;
        } else {
          assert |base + s[1..]| > |s|;
        }
      }
    } else {
      RebaseIsIdentity(m.value, base);
    }
  }

  // ---- what a schema means --------------------------------------------------------------

  const ID := "$id"

  /** With a JSON Pointer these mean what `$ref` means; rebasing leaves them alone. */
  const DYNAMIC := {"$dynamicRef", "$recursiveRef"}

  predicate IsReference(m: Member) { (m.key == REF || m.key in DYNAMIC) && m.value.Str? }

  /** A schema with a `$id` of its own: local references below it start from it. */
  predicate IsResource(v: Json) {
    v.Obj? && Find(v.members, ID).Some? && Find(v.members, ID).value.Str?
  }

  /**
   Local references stand where their keyword allows: under a `$id` none by `$ref`, which would
   be rebased, and elsewhere none by another keyword, which would not.
   */
  predicate Portable(v: Json, scoped: bool)
    decreases v, 1
  {
    var below := scoped || IsResource(v);
    match v
    case Arr(items) => forall i :: 0 <= i < |items| ==> Portable(items[i], below)
    case Obj(members) => forall i :: 0 <= i < |members| ==> PortableMember(members[i], below)
    case _ => true
  }

  predicate PortableMember(m: Member, scoped: bool)
    decreases m, 0
  {
    if IsReference(m) then IsLocal(m.value.s) ==> (scoped <==> m.key != REF)
    else Portable(m.value, scoped)
  }

  /** The resource local references start from at this value. */
  function Enter(resource: Json, v: Json): Json { if IsResource(v) then v else resource }

  datatype Place = Place(resource: Json, node: Json)

  /** Follows a pointer, and notes the resource it ends in. */
  function Descend(resource: Json, v: Json, tokens: seq<string>): Option<Place>
    decreases |tokens|
  {
    if tokens == [] then Some(Place(resource, v))
    else match Child(v, tokens[0])
      case None => None
      case Some(child) => Descend(Enter(resource, child), child, tokens[1..])
  }

  /** A schema with its local references followed; a cut ends an unfolding that went deep enough. */
  datatype Tree =
    | Leaf(value: Json)
    | Items(items: seq<Tree>)
    | Members(members: seq<Branch>)

  datatype Branch = Plain(key: string, tree: Tree) | Reference(key: string, target: Target)

  datatype Target = Followed(tree: Tree) | Foreign(text: string) | Dangling | NotASchema | Cut

  /** References are followed `depth` times along any path, each from the resource it stands in. */
  function Unfold(resource: Json, v: Json, depth: nat): Tree
    decreases depth, v, 1
  {
    var base := Enter(resource, v);
    match v
    case Arr(items) => Items(seq(|items|, i requires 0 <= i < |items| => Unfold(base, items[i], depth)))
    case Obj(members) => Members(seq(|members|, i requires 0 <= i < |members| => UnfoldMember(base, members[i], depth)))
    case _ => Leaf(v)
  }

  function UnfoldMember(resource: Json, m: Member, depth: nat): Branch
    decreases depth, m, 0
  {
    if IsReference(m) then Reference(m.key, Follow(resource, m.value, depth))
    else Plain(m.key, Unfold(resource, m.value, depth))
  }

  function Follow(resource: Json, reference: Json, depth: nat): Target
    requires reference.Str?
    decreases depth, reference, 0
  {
    if !IsLocal(reference.s) then Foreign(reference.s)
    else if depth == 0 then Cut
    else match Descend(resource, resource, Tokens(reference.s[1..]))
      case None => Dangling
      case Some(Place(_, Str(_))) => NotASchema
      case Some(Place(base, target)) => Followed(Unfold(base, target, depth - 1))
  }

  /** Rebasing keeps what is text, and what is not, under every key. */
  lemma {:induction false} FindKeepsText(members: seq<Member>, rebased: seq<Member>, key: string, base: string)
    requires |members| == |rebased| && forall i :: 0 <= i < |members| ==> rebased[i] == RebaseMember(members[i], base)
    ensures Find(members, key).Some? <==> Find(rebased, key).Some?
    ensures Find(members, key).Some? ==> (Find(members, key).value.Str? <==> Find(rebased, key).value.Str?)
  {
    if members != [] {
      assert rebased[0] == RebaseMember(members[0], base);
      FindKeepsText(members[1..], rebased[1..], key, base);
    }
  }

  lemma IdIsKept(v: Json, base: string)
    ensures IsResource(Rebase(v, base)) <==> IsResource(v)
  {
    if v.Obj? {
      FindKeepsText(v.members, Rebase(v, base).members, ID, base);
    }
  }

  /** Under a `$id` nothing is rebased. */
  lemma {:induction false} ScopedHasNoLocal(v: Json)
    requires Portable(v, true)
    ensures !HasLocal(v)
    decreases v
  {
    match v
    case Arr(items) =>
      forall i | 0 <= i < |items|
        ensures !HasLocal(items[i])
      {
        ScopedHasNoLocal(items[i]);
      }
    case Obj(members) =>
      forall i | 0 <= i < |members| && !(members[i].key == REF && members[i].value.Str?)
        ensures !HasLocal(members[i].value)
      {
        assert PortableMember(members[i], true);
        if !IsReference(members[i]) {
          ScopedHasNoLocal(members[i].value);
        }
      }
    case _ =>
  }

  lemma {:induction false} FoundIsMember(members: seq<Member>, key: string)
    ensures Find(members, key).Some? ==>
              exists i :: 0 <= i < |members| && members[i].key == key && members[i].value == Find(members, key).value
  {
    if members != [] && members[0].key != key {
      FoundIsMember(members[1..], key);
      if Find(members[1..], key).Some? {
        var i :| 0 <= i < |members[1..]| && members[1..][i].key == key &&
          members[1..][i].value == Find(members[1..], key).value;
        assert members[i + 1] == members[1..][i];
      }
    }
  }

  /** A child keeps what is known of the whole; a child that is text holds no reference of its own. */
  lemma ChildKeeps(v: Json, token: string)
    requires Child(v, token).Some?
    ensures Portable(v, false) && !IsResource(v) ==> Portable(Child(v, token).value, false)
    ensures !HasLocal(v) ==> !HasLocal(Child(v, token).value)
  {
    if v.Obj? {
      FoundIsMember(v.members, token);
      var i :| 0 <= i < |v.members| && v.members[i].key == token && v.members[i].value == Find(v.members, token).value;
      MemberKeeps(v.members[i]);
      assert Portable(v, false) && !IsResource(v) ==> PortableMember(v.members[i], false);
    }
  }

  lemma MemberKeeps(m: Member)
    ensures PortableMember(m, false) ==> Portable(m.value, false)
    ensures !(if m.key == REF && m.value.Str? then IsLocal(m.value.s) else HasLocal(m.value)) ==> !HasLocal(m.value)
  {
  }

  /**
   Where a place of the schema stands in the wrapped document: below both roots, or below a `$id`
   that both share, where nothing was rebased.
   */
  ghost predicate Placed(schema: Json, document: Json, a: Json, b: Json, v: Json) {
    || (a == schema && b == document && Portable(v, false) && !IsResource(v))
    || (a == b && !HasLocal(v))
  }

  /** Entering a value below both roots. */
  lemma EnterPlaced(schema: Json, document: Json, v: Json)
    requires Portable(v, false)
    ensures Placed(schema, document, Enter(schema, v), Enter(document, Rebase(v, BASE)), v)
    ensures IsResource(v) ==> Rebase(v, BASE) == v
  {
    hide Portable, HasLocal, Rebase;
    IdIsKept(v, BASE);
    if IsResource(v) {
      ResourceIsScoped(v);
      ScopedHasNoLocal(v);
      RebaseIsIdentity(v, BASE);
    }
  }

  lemma ResourceIsScoped(v: Json)
    requires Portable(v, false) && IsResource(v)
    ensures Portable(v, true)
  {
  }

  lemma DescendOnce(resource: Json, v: Json, tokens: seq<string>)
    ensures Descend(resource, v, tokens) ==
            if tokens == [] then Some(Place(resource, v))
            else match Child(v, tokens[0])
              case None => None
              case Some(child) => Descend(Enter(resource, child), child, tokens[1..])
  {
  }

  lemma TextDescends(resource: Json, v: Json, tokens: seq<string>)
    requires v.Str?
    ensures Descend(resource, v, tokens) == if tokens == [] then Some(Place(resource, v)) else None
  {
  }

  /** One step of a pointer to a node that is rebased as a whole. */
  lemma ChildPlaced(schema: Json, document: Json, a: Json, b: Json, v: Json, token: string)
    requires Placed(schema, document, a, b, v) && Child(v, token).Some?
    requires Child(Rebase(v, BASE), token) == Some(Rebase(Child(v, token).value, BASE))
    ensures var child := Child(v, token).value;
            Placed(schema, document, Enter(a, child), Enter(b, Rebase(child, BASE)), child)
  {
    hide Child, Rebase, Portable, HasLocal, IsResource;
    var child := Child(v, token).value;
    ChildKeeps(v, token);
    if HasLocal(v) || !(a == b) {
      EnterPlaced(schema, document, child);
    } else {
      RebaseIsIdentity(child, BASE);
    }
  }

  /** A pointer ends in the mirrored place. */
  lemma {:induction false} DescendRebased(schema: Json, document: Json, a: Json, b: Json, v: Json, tokens: seq<string>)
    requires Placed(schema, document, a, b, v)
    ensures Descend(a, v, tokens).Some? <==> Descend(b, Rebase(v, BASE), tokens).Some?
    ensures Descend(a, v, tokens).Some? ==>
              var p, q := Descend(a, v, tokens).value, Descend(b, Rebase(v, BASE), tokens).value;
              || (p.node.Str? && q.node.Str?)
              || (q.node == Rebase(p.node, BASE) && Placed(schema, document, p.resource, q.resource, p.node))
    decreases |tokens|
  {
    hide Child, Rebase, Enter, Placed, Descend;
    DescendOnce(a, v, tokens);
    DescendOnce(b, Rebase(v, BASE), tokens);
    if tokens != [] {
      ChildRebased(v, tokens[0], BASE);
      if Child(v, tokens[0]).Some? {
        var child, image := Child(v, tokens[0]).value, Child(Rebase(v, BASE), tokens[0]).value;
        if image == Rebase(child, BASE) {
          ChildPlaced(schema, document, a, b, v, tokens[0]);
          DescendRebased(schema, document, Enter(a, child), Enter(b, image), child, tokens[1..]);
        } else {
          TextDescends(Enter(a, child), child, tokens[1..]);
          TextDescends(Enter(b, image), image, tokens[1..]);
        }
      }
    }
  }

  /** The way to the arguments of the wrapped schema leads to the rebased schema. */
  lemma WrappedPlace(name: string, schema: Json, tokens: seq<string>)
    ensures var document := Wrapped(name, schema);
            Descend(document, document, [PROPERTIES, ARGUMENTS] + tokens) ==
            Descend(Enter(document, Rebase(schema, BASE)), Rebase(schema, BASE), tokens)
  {
    hide Rebase;
    var document := Wrapped(name, schema);
    var path := [PROPERTIES, ARGUMENTS] + tokens;
    var properties := document.members[2].value;
    FindThird(document.members, PROPERTIES);
    FindSecond(properties.members, ARGUMENTS);
    NoIdHere(properties.members);
    assert path[1..] == [ARGUMENTS] + tokens && path[1..][1..] == tokens;
    assert Descend(document, document, path) == Descend(Enter(document, properties), properties, path[1..]);
  }

  lemma NoIdHere(members: seq<Member>)
    requires |members| == 2 && members[0].key != ID && members[1].key != ID
    ensures Find(members, ID).None?
  {
    assert members[1..][0] == members[1];
    assert Find(members[1..][1..], ID).None?;
  }

  /**
   The meaning is kept if under a `$id` no local reference is made by `$ref`, and elsewhere none
   by another keyword: to any depth, unfolding the rebased schema inside the wrapped document
   gives what unfolding the schema inside its own document gives.
   */
  lemma {:induction false} MeaningIsKept(name: string, schema: Json, depth: nat)
    requires Portable(schema, false)
    ensures Unfold(Wrapped(name, schema), Rebase(schema, BASE), depth) == Unfold(schema, schema, depth)
    decreases depth, schema, 4
  {
    hide Wrapped, Rebase, Unfold, Placed;
    EnterPlaced(schema, Wrapped(name, schema), schema);
    EnterUnfold(schema, schema, depth);
    EnterUnfold(Wrapped(name, schema), Rebase(schema, BASE), depth);
    PlaceIsKept(name, schema, Enter(schema, schema), Enter(Wrapped(name, schema), Rebase(schema, BASE)), schema, depth);
  }

  /** A value is unfolded from the resource it enters. */
  lemma EnterUnfold(resource: Json, v: Json, depth: nat)
    ensures Unfold(resource, v, depth) == Unfold(Enter(resource, v), v, depth)
  {
    assert Enter(Enter(resource, v), v) == Enter(resource, v);
  }

  lemma {:induction false} PlaceIsKept(name: string, schema: Json, a: Json, b: Json, v: Json, depth: nat)
    requires Portable(schema, false) && Placed(schema, Wrapped(name, schema), a, b, v)
    ensures Unfold(b, Rebase(v, BASE), depth) == Unfold(a, v, depth)
    decreases depth, v, 3
  {
    hide Wrapped, Unfold, Rebase, HasLocal, Portable;
    if a == b && !HasLocal(v) {
      RebaseIsIdentity(v, BASE);
    } else {
      RootedIsKept(name, schema, v, depth);
    }
  }

  /** Below both roots. */
  lemma {:induction false} RootedIsKept(name: string, schema: Json, v: Json, depth: nat)
    requires Portable(schema, false) && Portable(v, false) && !IsResource(v)
    ensures Unfold(Wrapped(name, schema), Rebase(v, BASE), depth) == Unfold(schema, v, depth)
    decreases depth, v, 2
  {
    IdIsKept(v, BASE);
    hide Wrapped, IsResource;
    match v
    case Arr(items) =>
      forall i | 0 <= i < |items|
        ensures Unfold(Wrapped(name, schema), Rebase(items[i], BASE), depth) == Unfold(schema, items[i], depth)
      {
        BelowIsKept(name, schema, items[i], depth);
      }
    case Obj(members) =>
      forall i | 0 <= i < |members|
        ensures UnfoldMember(Wrapped(name, schema), RebaseMember(members[i], BASE), depth) ==
                UnfoldMember(schema, members[i], depth)
      {
        MemberIsKept(name, schema, members[i], depth);
      }
    case _ =>
  }

  lemma {:induction false} BelowIsKept(name: string, schema: Json, v: Json, depth: nat)
    requires Portable(schema, false) && Portable(v, false)
    ensures Unfold(Wrapped(name, schema), Rebase(v, BASE), depth) == Unfold(schema, v, depth)
    decreases depth, v, 4
  {
    hide Wrapped, Rebase, Unfold, Placed;
    EnterPlaced(schema, Wrapped(name, schema), v);
    EnterUnfold(schema, v, depth);
    EnterUnfold(Wrapped(name, schema), Rebase(v, BASE), depth);
    PlaceIsKept(name, schema, Enter(schema, v), Enter(Wrapped(name, schema), Rebase(v, BASE)), v, depth);
  }

  lemma {:induction false} MemberIsKept(name: string, schema: Json, m: Member, depth: nat)
    requires Portable(schema, false) && PortableMember(m, false)
    ensures UnfoldMember(Wrapped(name, schema), RebaseMember(m, BASE), depth) == UnfoldMember(schema, m, depth)
    decreases depth, m, 0
  {
    hide Wrapped, Unfold, Follow, RebaseReference, Portable;
    if m.key == REF && m.value.Str? {
      TargetIsKept(name, schema, m.value, depth);
    } else if IsReference(m) {
      ForeignFollow(Wrapped(name, schema), schema, m.value, depth);
    } else {
      BelowIsKept(name, schema, m.value, depth);
      RebaseKeepsKind(schema, "#");
    }
  }

  lemma ForeignFollow(a: Json, b: Json, reference: Json, depth: nat)
    requires reference.Str? && !IsLocal(reference.s)
    ensures Follow(a, reference, depth) == Follow(b, reference, depth)
  {
  }

  lemma {:induction false} TargetIsKept(name: string, schema: Json, reference: Json, depth: nat)
    requires reference.Str? && Portable(schema, false)
    ensures Follow(Wrapped(name, schema), Str(RebaseReference(reference.s, BASE)), depth) ==
              Follow(schema, reference, depth)
    decreases depth, reference, 0
  {
    hide Wrapped, Unfold, Rebase, Descend, RebaseReference, Tokens, Portable, Enter, Placed;
    ReferenceStaysLocal(reference.s);
    if IsLocal(reference.s) && depth > 0 {
      var document, image := Wrapped(name, schema), Rebase(schema, BASE);
      var tokens := Tokens(reference.s[1..]);
      RebasedReference(reference.s);
      WrappedPlace(name, schema, tokens);
      EnterPlaced(schema, document, schema);
      RootEntersItself(schema);
      DescendRebased(schema, document, schema, Enter(document, image), schema, tokens);
      RebaseKeepsKind(schema, reference.s);
      if Descend(schema, schema, tokens).Some? {
        var p := Descend(schema, schema, tokens).value;
        var q := Descend(document, document, [PROPERTIES, ARGUMENTS] + tokens).value;
        if !p.node.Str? {
          PlaceIsKept(name, schema, p.resource, q.resource, p.node, depth - 1);
        }
      }
    }
  }

  lemma RootEntersItself(v: Json)
    ensures Enter(v, v) == v
  {
  }

  lemma ReferenceStaysLocal(reference: string)
    ensures IsLocal(reference) <==> IsLocal(RebaseReference(reference, BASE))
    ensures !IsLocal(reference) ==> RebaseReference(reference, BASE) == reference
  {
    if IsLocal(reference) {
      RebasedReference(reference);
    }
  }

  // ---- where the condition fails --------------------------------------------------------

  lemma {:induction false} DescendIsEvaluate(resource: Json, v: Json, tokens: seq<string>)
    ensures match Descend(resource, v, tokens)
            case None => Evaluate(v, tokens).None?
            case Some(p) => Evaluate(v, tokens) == Some(p.node)
    decreases |tokens|
  {
    hide Enter, Child;
    if tokens != [] && Child(v, tokens[0]).Some? {
      DescendIsEvaluate(Enter(resource, Child(v, tokens[0]).value), Child(v, tokens[0]).value, tokens[1..]);
    }
  }

  /**
   In a schema with a `$id` of its own a rebased reference is looked up from the schema, not from
   the document around it.  So it dangles exactly when the schema has no node at
   `/properties/arguments` followed by the reference's own way, whatever it meant before.
   */
  lemma ScopedReferencesDangle(name: string, schema: Json, reference: string, depth: nat)
    requires IsResource(schema) && IsLocal(reference) && depth > 0
    ensures var image := Rebase(schema, BASE);
            && Enter(Wrapped(name, schema), image) == image
            && (Follow(image, Str(RebaseReference(reference, BASE)), depth) == Dangling <==>
                  Evaluate(schema, [PROPERTIES, ARGUMENTS] + Tokens(reference[1..])).None?)
  {
    hide Rebase, Child, RebaseReference, Tokens, Unfold, IsResource, Descend, Evaluate;
    IdIsKept(schema, BASE);
    RebasedReference(reference);
    var image, path := Rebase(schema, BASE), [PROPERTIES, ARGUMENTS] + Tokens(reference[1..]);
    EvaluateRebased(schema, path, BASE);
    DescendIsEvaluate(image, image, path);
  }

  const WRAPPER_KEYS := {"type", "required", PROPERTIES, "additionalProperties"}

  /**
   A local reference by another keyword is left as it is, and then starts from the wrapped
   document: outside a `$id` it dangles unless it names the whole document or goes through one
   of the wrapper's own members.
   */
  lemma DynamicReferencesDangle(name: string, schema: Json, m: Member, depth: nat)
    requires m.key in DYNAMIC && m.value.Str? && IsLocal(m.value.s) && depth > 0
    ensures RebaseMember(m, BASE) == m
    ensures var tokens := Tokens(m.value.s[1..]);
            var target := Follow(Wrapped(name, schema), m.value, depth);
            && (target == Dangling <==> Evaluate(Wrapped(name, schema), tokens).None?)
            && (tokens != [] && tokens[0] !in WRAPPER_KEYS ==> target == Dangling)
  {
    TextIsKept(m);
    hide Rebase, Tokens, Unfold, RebaseMember;
    var tokens := Tokens(m.value.s[1..]);
    DescendIsEvaluate(Wrapped(name, schema), Wrapped(name, schema), tokens);
    if tokens != [] && tokens[0] !in WRAPPER_KEYS {
      NotFound(Wrapped(name, schema).members, tokens[0]);
    }
  }

  lemma TextIsKept(m: Member)
    requires m.key != REF && m.value.Str?
    ensures RebaseMember(m, BASE) == m
  {
  }

  lemma {:induction false} NotFound(members: seq<Member>, key: string)
    requires forall m :: m in members ==> m.key != key
    ensures Find(members, key).None?
  {
    if members != [] {
      NotFound(members[1..], key);
    }
  }

  /** Such a schema: the reference meant a node of it, and means nothing where it was moved. */
  lemma DynamicReferenceIsLost(name: string, key: string, node: Json, keyword: string, depth: nat)
    requires IsWord(key) && key !in WRAPPER_KEYS && key != REF && key != ID && key !in DYNAMIC
    requires keyword in DYNAMIC && !node.Str? && depth > 0
    ensures var reference := "#" + ("/" + key);
            var schema := Obj([Member(key, node), Member(keyword, Str(reference))]);
            && IsLocal(reference) && !Portable(schema, false)
            && Resolve(schema, reference) == Some(node)
            && Follow(schema, Str(reference), depth).Followed?
            && Rebase(schema, BASE) == Obj([Member(key, Rebase(node, BASE)), Member(keyword, Str(reference))])
            && Follow(Wrapped(name, schema), Str(reference), depth) == Dangling
  {
    var reference := "#" + ("/" + key);
    var schema := Obj([Member(key, node), Member(keyword, Str(reference))]);
    var m := schema.members[1];
    assert reference[1..] == "/" + key && reference[..2] == "#/";
    WordToken(key);
    OneStep(schema, key, node);
    NotPortable(schema, m);
    DynamicReferencesDangle(name, schema, m, depth);
    RebasedMembers(schema.members[0], m);
    hide Tokens, Unfold, Wrapped, Descend, Evaluate, Portable;
    assert Resolve(schema, reference) == Some(node);
  }

  lemma OneStep(v: Json, key: string, node: Json)
    requires Child(v, key) == Some(node)
    ensures Evaluate(v, [key]) == Some(node) && Descend(v, v, [key]) == Some(Place(Enter(v, node), node))
  {
    assert [key][1..] == [];
  }

  lemma NotPortable(v: Json, m: Member)
    requires v.Obj? && |v.members| == 2 && v.members[1] == m && v.members[0].key != ID && m.key != ID
    requires m.key in DYNAMIC && m.value.Str? && IsLocal(m.value.s)
    ensures !Portable(v, false)
  {
    NoIdHere(v.members);
    assert IsReference(m) && !PortableMember(m, false);
  }

  lemma RebasedMembers(m: Member, n: Member)
    ensures Rebase(Obj([m, n]), BASE) == Obj([RebaseMember(m, BASE), RebaseMember(n, BASE)])
  {
  }
}
