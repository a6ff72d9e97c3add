/**
 * The canonical JSON of a value: the text that is hashed into a request's fingerprint and by which the
 * packages of a request are ordered. Different values have different texts, so only a collision of the
 * hash could make two requests look alike.
 *
 * An object is a map: the order in which its keys arrived is not part of it. A number counts millionths,
 * below the magnitude at which JSON turns to exponents.
 */
module CanonicalJson {
  datatype Json =
    | Null
    | Bool(value: bool)
    | Number(millionths: int)
    | Text(text: string)
    | Array(items: seq<Json>)
    | Object(members: map<string, Json>)

  // ---------------------------------------------------------------- the order of strings

  /** Comparison of strings, character by character. */
  predicate Leq(a: string, b: string) {
    a == [] || (b != [] && (a[0] < b[0] || (a[0] == b[0] && Leq(a[1..], b[1..]))))
  }

  lemma {:induction false} LeqTotal(a: string, b: string)
    ensures Leq(a, b) || Leq(b, a)
  {
    if a != [] && b != [] && a[0] == b[0] { LeqTotal(a[1..], b[1..]); }
  }

  lemma {:induction false} LeqAntisymmetric(a: string, b: string)
    requires Leq(a, b) && Leq(b, a)
    ensures a == b
  {
    if a != [] && b != [] {
      LeqAntisymmetric(a[1..], b[1..]);
      assert a == [a[0]] + a[1..] && b == [b[0]] + b[1..];
    }
  }

  lemma {:induction false} LeqTransitive(a: string, b: string, c: string)
    requires Leq(a, b) && Leq(b, c)
    ensures Leq(a, c)
  {
    if a != [] && a[0] == b[0] && b[0] == c[0] { LeqTransitive(a[1..], b[1..], c[1..]); }
  }

  predicate IsLeast(k: string, keys: set<string>) { k in keys && forall j :: j in keys ==> Leq(k, j) }

  lemma {:induction false} LeastKey(keys: set<string>)
    requires keys != {}
    ensures exists k :: IsLeast(k, keys)
    ensures forall k, j :: IsLeast(k, keys) && IsLeast(j, keys) ==> k == j
  {
    var some :| some in keys;
    LeqTotal(some, some);
    if keys == {some} {
      assert IsLeast(some, keys);
    } else {
      LeastKey(keys - {some});
      var least :| IsLeast(least, keys - {some});
      LeqTotal(some, least);
      if Leq(some, least) {
        forall j | j in keys ensures Leq(some, j) { if j != some { LeqTransitive(some, least, j); } }
        assert IsLeast(some, keys);
      } else {
        assert IsLeast(least, keys);
      }
    }
    forall k, j | IsLeast(k, keys) && IsLeast(j, keys) ensures k == j { LeqAntisymmetric(k, j); }
  }

  function SortedKeys(keys: set<string>): (sorted: seq<string>)
    ensures forall k :: k in sorted <==> k in keys
    ensures forall i, j :: 0 <= i < j < |sorted| ==> Leq(sorted[i], sorted[j])
  {
    if keys == {} then []
    else
      LeastKey(keys);
      var least :| IsLeast(least, keys);
      [least] + SortedKeys(keys - {least})
  }

  // ---------------------------------------------------------------- numbers

  function Digit(d: nat): char
    requires d < 16
  {
    if d < 10 then '0' + d as char else 'a' + (d - 10) as char
  }

  function Digits(n: nat): string {
    if n < 10 then [Digit(n)] else Digits(n / 10) + [Digit(n % 10)]
  }

  function PowerOfTen(k: nat): (p: nat)
    ensures p > 0
  {
    if k == 0 then 1 else 10 * PowerOfTen(k - 1)
  }

  /** The last `places` digits of m. */
  function FixedDigits(m: nat, places: nat): string {
    if places == 0 then "" else FixedDigits(m / 10, places - 1) + [Digit(m % 10)]
  }

  function WithoutZeros(s: string): string {
    if s != [] && s[|s| - 1] == '0' then WithoutZeros(s[..|s| - 1]) else s
  }

  const MILLION: nat := 1000000

  function NumberText(millionths: int): string {
    var n := if millionths < 0 then -millionths else millionths;
    (if millionths < 0 then "-" else "") + Digits(n / MILLION) + Fraction(n % MILLION)
  }

  function Fraction(m: nat): string
    requires m < MILLION
  {
    if m == 0 then "" else "." + WithoutZeros(FixedDigits(m, 6))
  }

  // ---------------------------------------------------------------- strings

  function Escape(c: char): string {
    if c == '"' then "\\\""
    else if c == '\\' then "\\\\"
    else if c == '\U{8}' then "\\b"
    else if c == '\U{C}' then "\\f"
    else if c == '\n' then "\\n"
    else if c == '\r' then "\\r"
    else if c == '\t' then "\\t"
    else if c < ' ' then "\\u00" + [Digit(c as nat / 16), Digit(c as nat % 16)]
    else [c]
  }

  function Escaped(s: string): string {
    if s == [] then [] else Escape(s[0]) + Escaped(s[1..])
  }

  function Quoted(s: string): string { "\"" + Escaped(s) + "\"" }

  // ---------------------------------------------------------------- values

  function CanonicalJson(v: Json): string
    decreases v, 1, 0
  {
    match v
    case Null => "null"
    case Bool(value) => if value then "true" else "false"
    case Number(millionths) => NumberText(millionths)
    case Text(text) => Quoted(text)
    case Array(_) => "[" + ItemsFrom(v, 0)
    case Object(members) => "{" + MembersFrom(v, SortedKeys(members.Keys), 0)
  }

  function Comma(i: nat): string { if i > 0 then "," else "" }

  /** From the i-th item to the closing bracket. */
  function ItemsFrom(v: Json, i: nat): string
    requires v.Array? && i <= |v.items|
    decreases v, 0, |v.items| - i
  {
    if i == |v.items| then "]"
    else Comma(i) + CanonicalJson(v.items[i]) + ItemsFrom(v, i + 1)
  }

  /** From the i-th key to the closing brace. */
  function MembersFrom(v: Json, keys: seq<string>, i: nat): string
    requires v.Object? && i <= |keys| && forall k :: k in keys ==> k in v.members
    decreases v, 0, |keys| - i
  {
    if i == |keys| then "}"
    else Comma(i) + Quoted(keys[i]) + ":" + CanonicalJson(v.members[keys[i]]) + MembersFrom(v, keys, i + 1)
  }

  // ---------------------------------------------------------------- where a text ends is never in doubt

  predicate NoneOf(s: string, ends: string) { forall i :: 0 <= i < |s| ==> s[i] !in ends }

  predicate StartsIn(s: string, ends: string) { s == [] || s[0] in ends }

  /** Two texts without an ending character, each followed by one or by nothing, are the same text. */
  lemma {:induction false} SplitAtEnd(a: string, u: string, b: string, v: string, ends: string)
    requires NoneOf(a, ends) && NoneOf(b, ends) && StartsIn(u, ends) && StartsIn(v, ends)
    requires a + u == b + v
    ensures a == b && u == v
  {
    var whole := a + u;
    assert whole[..|a|] == a && whole[..|b|] == b && whole[|a|..] == u && whole[|b|..] == v;
  }

  lemma SamePrefix(a: string, u: string, v: string)
    requires a + u == a + v
    ensures u == v
  {
    assert (a + u)[|a|..] == u && (a + v)[|a|..] == v;
  }

  predicate AllDigits(s: string) { forall i :: 0 <= i < |s| ==> '0' <= s[i] <= '9' }

  lemma {:induction false} DigitsAreDigits(n: nat)
    ensures AllDigits(Digits(n)) && Digits(n) != []
  {
    if n >= 10 { DigitsAreDigits(n / 10); }
  }

  lemma {:induction false} DigitsAreInjective(n: nat, m: nat)
    requires Digits(n) == Digits(m)
    ensures n == m
  {
    var a, b := Digits(n), Digits(m);
    assert a[|a| - 1] == Digit(n % 10) && b[|b| - 1] == Digit(m % 10);
    if n >= 10 { DigitsAreDigits(n / 10); }
    if m >= 10 { DigitsAreDigits(m / 10); }
    if n >= 10 && m >= 10 {
      assert a[..|a| - 1] == Digits(n / 10) && b[..|b| - 1] == Digits(m / 10);
      DigitsAreInjective(n / 10, m / 10);
    }
  }

  lemma {:induction false} FixedDigitsAreDigits(m: nat, places: nat)
    ensures |FixedDigits(m, places)| == places && AllDigits(FixedDigits(m, places))
  {
    if places > 0 { FixedDigitsAreDigits(m / 10, places - 1); }
  }

  lemma {:induction false} FixedDigitsAreInjective(m: nat, n: nat, places: nat)
    requires m < PowerOfTen(places) && n < PowerOfTen(places) && FixedDigits(m, places) == FixedDigits(n, places)
    ensures m == n
  {
    if places > 0 {
      var a, b := FixedDigits(m / 10, places - 1), FixedDigits(n / 10, places - 1);
      SameBack(a, Digit(m % 10), b, Digit(n % 10));
      FixedDigitsAreInjective(m / 10, n / 10, places - 1);
    }
  }

  lemma SameBack(s: string, c: char, t: string, d: char)
    requires s + [c] == t + [d]
    ensures s == t && c == d
  {
    assert (s + [c])[|s|] == c && (t + [d])[|t|] == d && (s + [c])[..|s|] == s && (t + [d])[..|t|] == t;
  }

  /** What was dropped can be put back, when the length is known. */
  lemma {:induction false} WithoutZerosIsInjective(s: string, t: string)
    requires |s| == |t| && WithoutZeros(s) == WithoutZeros(t)
    ensures s == t
  {
    OnlyZerosGo(s);
    OnlyZerosGo(t);
    forall i | 0 <= i < |s| ensures s[i] == t[i] {}
  }

  lemma {:induction false} OnlyZerosGo(s: string)
    ensures WithoutZeros(s) <= s && forall i :: |WithoutZeros(s)| <= i < |s| ==> s[i] == '0'
  {
    if s != [] && s[|s| - 1] == '0' { OnlyZerosGo(s[..|s| - 1]); }
  }

  const STOPS := ",]}"

  predicate Ends(s: string) { StartsIn(s, STOPS) }

  lemma FractionIsPlain(m: nat)
    requires m < MILLION
    ensures forall i :: 0 <= i < |Fraction(m)| ==> Fraction(m)[i] == '.' || '0' <= Fraction(m)[i] <= '9'
  {
    FixedDigitsAreDigits(m, 6);
    OnlyZerosGo(FixedDigits(m, 6));
  }

  lemma FractionsAreInjective(m: nat, n: nat)
    requires m < MILLION && n < MILLION && Fraction(m) == Fraction(n)
    ensures m == n
  {
    if m != 0 && n != 0 {
      FixedDigitsAreDigits(m, 6);
      FixedDigitsAreDigits(n, 6);
      SamePrefix(".", WithoutZeros(FixedDigits(m, 6)), WithoutZeros(FixedDigits(n, 6)));
      WithoutZerosIsInjective(FixedDigits(m, 6), FixedDigits(n, 6));
      SixDigits();
      FixedDigitsAreInjective(m, n, 6);
    }
  }

  lemma SixDigits()
    ensures PowerOfTen(6) == MILLION
  {
    assert PowerOfTen(3) == 1000;
  }

  lemma FractionsArePrefixFree(m: nat, n: nat, u: string, v: string)
    requires m < MILLION && n < MILLION && Ends(u) && Ends(v) && Fraction(m) + u == Fraction(n) + v
    ensures m == n && u == v
  {
    FractionIsPlain(m);
    FractionIsPlain(n);
    SplitAtEnd(Fraction(m), u, Fraction(n), v, STOPS);
    FractionsAreInjective(m, n);
  }

  lemma MagnitudesArePrefixFree(n: nat, m: nat, u: string, v: string)
    requires Ends(u) && Ends(v)
    requires Digits(n / MILLION) + (Fraction(n % MILLION) + u) == Digits(m / MILLION) + (Fraction(m % MILLION) + v)
    ensures n == m && u == v
  {
    DigitsAreDigits(n / MILLION);
    DigitsAreDigits(m / MILLION);
    SplitAtEnd(Digits(n / MILLION), Fraction(n % MILLION) + u, Digits(m / MILLION), Fraction(m % MILLION) + v, ".,]}");
    DigitsAreInjective(n / MILLION, m / MILLION);
    FractionsArePrefixFree(n % MILLION, m % MILLION, u, v);
  }

  lemma NumberStarts(n: int)
    ensures NumberText(n) != [] && (NumberText(n)[0] == '-' <==> n < 0) && (n >= 0 ==> '0' <= NumberText(n)[0] <= '9')
  {
    DigitsAreDigits((if n < 0 then -n else n) / MILLION);
  }

  lemma NumbersArePrefixFree(n: int, m: int, u: string, v: string)
    requires Ends(u) && Ends(v) && NumberText(n) + u == NumberText(m) + v
    ensures n == m && u == v
  {
    NumberStarts(n);
    NumberStarts(m);
    assert NumberText(n)[0] == (NumberText(n) + u)[0] && NumberText(m)[0] == (NumberText(m) + v)[0];
    NumberUnfolds(n, u);
    NumberUnfolds(m, v);
    var sign := if n < 0 then "-" else "";
    SamePrefix(sign, Magnitude(n, u), Magnitude(m, v));
    MagnitudesArePrefixFree(if n < 0 then -n else n, if m < 0 then -m else m, u, v);
  }

  function Magnitude(n: int, u: string): string {
    var a := if n < 0 then -n else n;
    Digits(a / MILLION) + (Fraction(a % MILLION) + u)
  }

  lemma NumberUnfolds(n: int, u: string)
    ensures NumberText(n) + u == (if n < 0 then "-" else "") + Magnitude(n, u)
  {}

  lemma EscapesArePrefixFree(c: char, d: char, u: string, v: string)
    requires Escape(c) + u == Escape(d) + v
    ensures c == d && u == v
  {
    var x, y := Escape(c) + u, Escape(d) + v;
    assert x[0] == Escape(c)[0] && y[0] == Escape(d)[0];
    if |Escape(c)| > 1 && |Escape(d)| > 1 {
      assert x[1] == Escape(c)[1] && y[1] == Escape(d)[1];
      if |Escape(c)| > 2 && |Escape(d)| > 2 {
        assert x[4] == Escape(c)[4] && y[4] == Escape(d)[4] && x[5] == Escape(c)[5] && y[5] == Escape(d)[5];
        assert c as nat / 16 == d as nat / 16 && c as nat % 16 == d as nat % 16;
      }
    }
    assert c == d;
    SamePrefix(Escape(c), u, v);
  }

  lemma {:induction false} EscapedArePrefixFree(s: string, t: string, u: string, v: string)
    requires Escaped(s) + ("\"" + u) == Escaped(t) + ("\"" + v)
    ensures s == t && u == v
  {
    EscapedOpens(s, u);
    EscapedOpens(t, v);
    if s == [] && t == [] {
      assert Escaped(s) + ("\"" + u) == "\"" + u && Escaped(t) + ("\"" + v) == "\"" + v;
      SamePrefix("\"", u, v);
    } else if s != [] && t != [] {
      Unfold(s, u);
      Unfold(t, v);
      EscapesArePrefixFree(s[0], t[0], Escaped(s[1..]) + ("\"" + u), Escaped(t[1..]) + ("\"" + v));
      EscapedArePrefixFree(s[1..], t[1..], u, v);
      assert s == [s[0]] + s[1..] && t == [t[0]] + t[1..];
    }
  }

  /** A string's closing mark is not taken for one of its characters. */
  lemma EscapedOpens(s: string, u: string)
    ensures (Escaped(s) + ("\"" + u))[0] == '"' <==> s == []
  {
    if s != [] { assert (Escaped(s) + ("\"" + u))[0] == Escape(s[0])[0]; }
  }

  lemma Unfold(s: string, u: string)
    requires s != []
    ensures Escaped(s) + ("\"" + u) == Escape(s[0]) + (Escaped(s[1..]) + ("\"" + u))
  {}

  lemma QuotedArePrefixFree(s: string, t: string, u: string, v: string)
    requires Quoted(s) + u == Quoted(t) + v
    ensures s == t && u == v
  {
    assert Quoted(s) + u == "\"" + (Escaped(s) + ("\"" + u));
    assert Quoted(t) + v == "\"" + (Escaped(t) + ("\"" + v));
    SamePrefix("\"", Escaped(s) + ("\"" + u), Escaped(t) + ("\"" + v));
    EscapedArePrefixFree(s, t, u, v);
  }

  // ---------------------------------------------------------------- different values, different texts

  /** The kind of a value is told by its first character. */
  predicate Opens(v: Json, c: char) {
    match v
    case Null => c == 'n'
    case Bool(value) => c == if value then 't' else 'f'
    case Number(_) => c == '-' || '0' <= c <= '9'
    case Text(_) => c == '"'
    case Array(_) => c == '['
    case Object(_) => c == '{'
  }

  lemma FirstCharacter(v: Json)
    ensures CanonicalJson(v) != [] && Opens(v, CanonicalJson(v)[0])
  {
    if v.Number? { NumberStarts(v.millionths); }
  }

  /** A value's text, followed by a comma, a closing mark or nothing, can be read back in one way only. */
  lemma {:induction false} ValuesArePrefixFree(a: Json, b: Json, u: string, v: string)
    requires Ends(u) && Ends(v) && CanonicalJson(a) + u == CanonicalJson(b) + v
    ensures a == b && u == v
    decreases a, 1, 0
  {
    FirstCharacter(a);
    FirstCharacter(b);
    assert (CanonicalJson(a) + u)[0] == CanonicalJson(a)[0] && (CanonicalJson(b) + v)[0] == CanonicalJson(b)[0];
    match a
    case Null => SamePrefix("null", u, v);
    case Bool(value) => SamePrefix(if value then "true" else "false", u, v);
    case Number(n) => NumbersArePrefixFree(n, b.millionths, u, v);
    case Text(text) => QuotedArePrefixFree(text, b.text, u, v);
    case Array(_) => ArraysArePrefixFree(a, b, u, v);
    case Object(_) => ObjectsArePrefixFree(a, b, u, v);
  }

  lemma {:induction false} ArraysArePrefixFree(a: Json, b: Json, u: string, v: string)
    requires a.Array? && b.Array? && CanonicalJson(a) + u == CanonicalJson(b) + v
    ensures a == b && u == v
    decreases a, 0, |a.items| + 1
  {
    ArrayUnfolds(a, u);
    ArrayUnfolds(b, v);
    SamePrefix("[", ItemsFrom(a, 0) + u, ItemsFrom(b, 0) + v);
    ItemsArePrefixFree(a, b, 0, u, v);
    assert a.items[0..] == a.items && b.items[0..] == b.items;
  }

  lemma ArrayUnfolds(v: Json, u: string)
    requires v.Array?
    ensures CanonicalJson(v) + u == "[" + (ItemsFrom(v, 0) + u)
  {}

  lemma {:induction false} ObjectsArePrefixFree(a: Json, b: Json, u: string, v: string)
    requires a.Object? && b.Object? && CanonicalJson(a) + u == CanonicalJson(b) + v
    ensures a == b && u == v
    decreases a, 0, |SortedKeys(a.members.Keys)| + 1, 0
  {
    var keys, others := SortedKeys(a.members.Keys), SortedKeys(b.members.Keys);
    ObjectUnfolds(a, u);
    ObjectUnfolds(b, v);
    SamePrefix("{", MembersFrom(a, keys, 0) + u, MembersFrom(b, others, 0) + v);
    MembersArePrefixFree(a, b, keys, others, 0, u, v);
    SameMembers(a.members, b.members, keys, others);
  }

  lemma ObjectUnfolds(v: Json, u: string)
    requires v.Object?
    ensures CanonicalJson(v) + u == "{" + (MembersFrom(v, SortedKeys(v.members.Keys), 0) + u)
  {}

  lemma SameMembers(m: map<string, Json>, n: map<string, Json>, keys: seq<string>, others: seq<string>)
    requires forall k :: k in keys <==> k in m
    requires forall k :: k in others <==> k in n
    requires keys[0..] == others[0..] && forall i :: 0 <= i < |keys| && keys[i] in n ==> m[keys[i]] == n[keys[i]]
    ensures m == n
  {
    assert keys == keys[0..] == others[0..] == others;
    forall k ensures k in m <==> k in n {}
    forall k | k in m ensures m[k] == n[k] {
      assert k in keys;
    }
  }

  lemma {:induction false} ItemsArePrefixFree(a: Json, b: Json, i: nat, u: string, v: string)
    requires a.Array? && b.Array? && i <= |a.items| && i <= |b.items|
    requires ItemsFrom(a, i) + u == ItemsFrom(b, i) + v
    ensures a.items[i..] == b.items[i..] && u == v
    decreases a, 0, |a.items| - i
  {
    ItemsOpen(a, i, u);
    ItemsOpen(b, i, v);
    if i == |a.items| && i == |b.items| {
      SamePrefix("]", u, v);
    } else if i < |a.items| && i < |b.items| {
      var p, q := ItemsFrom(a, i + 1) + u, ItemsFrom(b, i + 1) + v;
      ItemsOpen(a, i + 1, u);
      ItemsOpen(b, i + 1, v);
      ItemUnfolds(a, i, u);
      ItemUnfolds(b, i, v);
      SamePrefix(Comma(i), CanonicalJson(a.items[i]) + p, CanonicalJson(b.items[i]) + q);
      ValuesArePrefixFree(a.items[i], b.items[i], p, q);
      ItemsArePrefixFree(a, b, i + 1, u, v);
      assert a.items[i..] == [a.items[i]] + a.items[i + 1..] && b.items[i..] == [b.items[i]] + b.items[i + 1..];
    }
  }

  lemma ItemUnfolds(v: Json, i: nat, u: string)
    requires v.Array? && i < |v.items|
    ensures ItemsFrom(v, i) + u == Comma(i) + (CanonicalJson(v.items[i]) + (ItemsFrom(v, i + 1) + u))
  {
    var item, rest := CanonicalJson(v.items[i]), ItemsFrom(v, i + 1);
    assert ItemsFrom(v, i) == Comma(i) + item + rest;
  }

  lemma ItemsOpen(v: Json, i: nat, u: string)
    requires v.Array? && i <= |v.items|
    ensures var s := ItemsFrom(v, i) + u; s != [] && (s[0] == ']' <==> i == |v.items|) && (i > 0 ==> Ends(s))
  {
    if i < |v.items| {
      FirstCharacter(v.items[i]);
      if i == 0 { assert (ItemsFrom(v, i) + u)[0] == CanonicalJson(v.items[i])[0]; }
    }
  }

  lemma {:induction false} MembersArePrefixFree(a: Json, b: Json, keys: seq<string>, others: seq<string>, i: nat, u: string, v: string)
    requires a.Object? && b.Object? && i <= |keys| && i <= |others|
    requires (forall k :: k in keys ==> k in a.members) && (forall k :: k in others ==> k in b.members)
    requires MembersFrom(a, keys, i) + u == MembersFrom(b, others, i) + v
    ensures keys[i..] == others[i..] && u == v
    ensures forall j :: i <= j < |keys| && keys[j] in b.members ==> a.members[keys[j]] == b.members[keys[j]]
    decreases a, 0, |keys| - i, 1
  {
    MembersOpen(a, keys, i, u);
    MembersOpen(b, others, i, v);
    if i == |keys| && i == |others| {
      SamePrefix("}", u, v);
    } else if i < |keys| && i < |others| {
      OneMember(a, b, keys, others, i, u, v);
      MembersArePrefixFree(a, b, keys, others, i + 1, u, v);
      assert keys[i..] == [keys[i]] + keys[i + 1..] && others[i..] == [others[i]] + others[i + 1..];
    }
  }

  lemma {:induction false} OneMember(a: Json, b: Json, keys: seq<string>, others: seq<string>, i: nat, u: string, v: string)
    requires a.Object? && b.Object? && i < |keys| && i < |others|
    requires (forall k :: k in keys ==> k in a.members) && (forall k :: k in others ==> k in b.members)
    requires MembersFrom(a, keys, i) + u == MembersFrom(b, others, i) + v
    ensures keys[i] == others[i] && a.members[keys[i]] == b.members[others[i]]
    ensures MembersFrom(a, keys, i + 1) + u == MembersFrom(b, others, i + 1) + v
    decreases a, 0, |keys| - i, 0
  {
    var p, q := MembersFrom(a, keys, i + 1) + u, MembersFrom(b, others, i + 1) + v;
    var s, t := CanonicalJson(a.members[keys[i]]) + p, CanonicalJson(b.members[others[i]]) + q;
    MembersOpen(a, keys, i + 1, u);
    MembersOpen(b, others, i + 1, v);
    MemberUnfolds(a, keys, i, u);
    MemberUnfolds(b, others, i, v);
    SamePrefix(Comma(i), Quoted(keys[i]) + (":" + s), Quoted(others[i]) + (":" + t));
    QuotedArePrefixFree(keys[i], others[i], ":" + s, ":" + t);
    SamePrefix(":", s, t);
    ValuesArePrefixFree(a.members[keys[i]], b.members[others[i]], p, q);
  }

  lemma MemberUnfolds(v: Json, keys: seq<string>, i: nat, u: string)
    requires v.Object? && i < |keys| && forall k :: k in keys ==> k in v.members
    ensures MembersFrom(v, keys, i) + u ==
            Comma(i) + (Quoted(keys[i]) + (":" + (CanonicalJson(v.members[keys[i]]) + (MembersFrom(v, keys, i + 1) + u))))
  {
    var key, value, rest := Quoted(keys[i]), CanonicalJson(v.members[keys[i]]), MembersFrom(v, keys, i + 1);
    assert MembersFrom(v, keys, i) == Comma(i) + key + ":" + value + rest;
    Regrouped(Comma(i), key, ":", value, rest, u);
  }

  lemma Regrouped(a: string, b: string, c: string, d: string, e: string, f: string)
    ensures a + b + c + d + e + f == a + (b + (c + (d + (e + f))))
  {
    assert d + e + f == d + (e + f);
    assert b + c + (d + (e + f)) == b + (c + (d + (e + f)));
  }

  lemma MembersOpen(v: Json, keys: seq<string>, i: nat, u: string)
    requires v.Object? && i <= |keys| && forall k :: k in keys ==> k in v.members
    ensures var s := MembersFrom(v, keys, i) + u; s != [] && (s[0] == '}' <==> i == |keys|) && (i > 0 ==> Ends(s))
  {}

  /** Two values have the same canonical JSON if and only if they are the same value. */
  lemma CanonicalJsonIsInjective(a: Json, b: Json)
    ensures CanonicalJson(a) == CanonicalJson(b) <==> a == b
  {
    if CanonicalJson(a) == CanonicalJson(b) {
      assert CanonicalJson(a) + [] == CanonicalJson(a) && CanonicalJson(b) + [] == CanonicalJson(b);
      ValuesArePrefixFree(a, b, [], []);
    }
  }

  // ---------------------------------------------------------------- fingerprints

  /** The text that is hashed into the fingerprint of a request. */
  function Fingerprinted(operation: string, payload: Json): string {
    CanonicalJson(Object(map["operation" := Text(operation), "payload" := payload]))
  }

  /** Two requests hash the same text if and only if they ask for the same operation with the same payload. */
  lemma FingerprintsTellRequestsApart(operation: string, payload: Json, other: string, otherPayload: Json)
    ensures Fingerprinted(operation, payload) == Fingerprinted(other, otherPayload) <==>
              operation == other && payload == otherPayload
  {
    var a := map["operation" := Text(operation), "payload" := payload];
    var b := map["operation" := Text(other), "payload" := otherPayload];
    CanonicalJsonIsInjective(Object(a), Object(b));
    if a == b { assert a["operation"] == b["operation"] && a["payload"] == b["payload"]; }
  }
}
