/**
  Plain JSON values and their compact serialization, which is proved to determine the value.

  A number is its numeral: the serializer prints distinct numbers distinctly.  An object keeps its keys in insertion
  order, as the program's dictionaries do.
*/
module Json {
  import Order

  datatype Json =
    | Null
    | Bool(b: bool)
    | Num(numeral: string)
    | Str(text: string)
    | List(items: seq<Json>)
    | Obj(pairs: seq<(string, Json)>)

  predicate NumeralChar(c: char) {
    '0' <= c <= '9' || c == '-' || c == '+' || c == '.' || c == 'e'
  }

  predicate Numeral(s: string) {
    s != [] && ('0' <= s[0] <= '9' || s[0] == '-') && forall c | c in s :: NumeralChar(c)
  }

  predicate DistinctKeys(pairs: seq<(string, Json)>) {
    forall i, j | 0 <= i < j < |pairs| :: pairs[i].0 != pairs[j].0
  }

  /** Numerals are numerals and no object repeats a key. */
  predicate Good(v: Json) {
    match v
    case Num(t) => Numeral(t)
    case List(xs) => forall i | 0 <= i < |xs| :: Good(xs[i])
    case Obj(ps) => DistinctKeys(ps) && forall i | 0 <= i < |ps| :: Good(ps[i].1)
    case _ => true
  }

  // ----- strings

  function HexDigit(n: nat): char
    requires n < 16
  {
    if n < 10 then '0' + n as char else 'a' + (n - 10) as char
  }

  function EscapeChar(c: char): string {
    if c == '"' then "\\\""
    else if c == '\\' then "\\\\"
    else if c == '\n' then "\\n"
    else if c == '\r' then "\\r"
    else if c == '\t' then "\\t"
    else if c as int == 8 then "\\b"
    else if c as int == 12 then "\\f"
    else if c as int < 32 then ['\\', 'u', '0', '0', HexDigit(c as int / 16), HexDigit(c as int % 16)]
    else [c]
  }

  function Escape(s: string): string {
    if s == [] then [] else EscapeChar(s[0]) + Escape(s[1..])
  }

  function Quote(s: string): string {
    ['"'] + Escape(s) + ['"']
  }

  lemma HexDigitInjective(m: nat, n: nat)
    requires m < 16 && n < 16 && HexDigit(m) == HexDigit(n)
    ensures m == n
  {
  }

  /** An escaped character never starts like the closing quote, and is read back unambiguously. */
  lemma EscapeCharDelimits(c: char, d: char, s: string, t: string)
    requires EscapeChar(c) + s == EscapeChar(d) + t
    ensures c == d && s == t
  {
    var a, b := EscapeChar(c) + s, EscapeChar(d) + t;
    assert EscapeChar(c)[0] == a[0] == b[0] == EscapeChar(d)[0];
    if |EscapeChar(c)| > 1 && |EscapeChar(d)| > 1 {
      assert EscapeChar(c)[1] == a[1] == b[1] == EscapeChar(d)[1];
      if |EscapeChar(c)| == 6 {
        assert EscapeChar(c)[4] == a[4] == b[4] == EscapeChar(d)[4];
        assert EscapeChar(c)[5] == a[5] == b[5] == EscapeChar(d)[5];
        HexDigitInjective(c as int / 16, d as int / 16);
        HexDigitInjective(c as int % 16, d as int % 16);
      }
    }
    assert c == d;
    assert s == a[|EscapeChar(c)|..] && t == b[|EscapeChar(d)|..];
  }

  lemma EscapeCharIsNotQuote(c: char)
    ensures EscapeChar(c) != [] && EscapeChar(c)[0] != '"'
  {
  }

  lemma EscapeStart(a: string, s: string)
    ensures (Escape(a) + ['"'] + s)[0] == '"' <==> a == []
  {
    if a != [] {
      EscapeCharIsNotQuote(a[0]);
      assert (Escape(a) + ['"'] + s)[0] == EscapeChar(a[0])[0];
    }
  }

  lemma EscapeSplit(a: string, s: string)
    requires a != []
    ensures Escape(a) + ['"'] + s == EscapeChar(a[0]) + (Escape(a[1..]) + ['"'] + s)
  {
  }

  lemma {:induction false} EscapeDelimits(a: string, b: string, s: string, t: string)
    requires Escape(a) + ['"'] + s == Escape(b) + ['"'] + t
    ensures a == b && s == t
  {
    EscapeStart(a, s);
    EscapeStart(b, t);
    if a == [] {
      assert Escape(a) + ['"'] == ['"'] == Escape(b) + ['"'];
      Cancel(['"'], s, t);
    } else {
      EscapeSplit(a, s);
      EscapeSplit(b, t);
      EscapeCharDelimits(a[0], b[0], Escape(a[1..]) + ['"'] + s, Escape(b[1..]) + ['"'] + t);
      EscapeDelimits(a[1..], b[1..], s, t);
      assert a == [a[0]] + a[1..] && b == [b[0]] + b[1..];
    }
  }

  lemma QuoteDelimits(a: string, b: string, s: string, t: string)
    requires Quote(a) + s == Quote(b) + t
    ensures a == b && s == t
  {
    assert (Quote(a) + s)[1..] == Escape(a) + ['"'] + s;
    assert (Quote(b) + t)[1..] == Escape(b) + ['"'] + t;
    EscapeDelimits(a, b, s, t);
  }

  // ----- values

  function Width(v: Json): nat {
    match v
    case List(xs) => |xs|
    case Obj(ps) => |ps|
    case _ => 0
  }

  function Dump(v: Json): string
    decreases v, Width(v) + 2
  {
    match v
    case Null => "null"
    case Bool(b) => if b then "true" else "false"
    case Num(t) => t
    case Str(s) => Quote(s)
    case List(xs) => ['['] + DumpItems(v, 0)
    case Obj(ps) => ['{'] + DumpPairs(v, 0)
  }

  /** What comes before the i-th item. */
  function Comma(i: nat): string {
    if i == 0 then [] else [',']
  }

  /** The items from the i-th on, with the closing bracket. */
  function DumpItems(v: Json, i: nat): string
    requires v.List? && i <= |v.items|
    decreases v, |v.items| - i + 1
  {
    if i == |v.items| then [']'] else Comma(i) + (Dump(v.items[i]) + DumpItems(v, i + 1))
  }

  function DumpPairs(v: Json, i: nat): string
    requires v.Obj? && i <= |v.pairs|
    decreases v, |v.pairs| - i + 1
  {
    if i == |v.pairs| then ['}']
    else Comma(i) + (Quote(v.pairs[i].0) + ([':'] + (Dump(v.pairs[i].1) + DumpPairs(v, i + 1))))
  }

  // ----- reading back

  /** What may follow a serialized value: nothing, or something that does not continue a numeral. */
  predicate Stops(s: string) {
    s == [] || !NumeralChar(s[0])
  }

  lemma Cancel(prefix: string, s: string, t: string)
    requires prefix + s == prefix + t
    ensures s == t
  {
    assert s == (prefix + s)[|prefix|..] && t == (prefix + t)[|prefix|..];
  }

  lemma SplitFirst<T>(xs: seq<T>, i: nat)
    requires i < |xs|
    ensures xs[i..] == [xs[i]] + xs[i + 1..]
  {
  }

  lemma StopsExactly(a: string, s: string)
    requires (forall c | c in a :: NumeralChar(c)) && Stops(s)
    ensures Stops(a + s) <==> a == []
  {
    if a == [] { assert a + s == s; } else { assert (a + s)[0] == a[0]; }
  }

  lemma {:induction false} NumeralDelimits(a: string, b: string, s: string, t: string)
    requires (forall c | c in a :: NumeralChar(c)) && (forall c | c in b :: NumeralChar(c))
    requires Stops(s) && Stops(t) && a + s == b + t
    ensures a == b && s == t
  {
    StopsExactly(a, s);
    StopsExactly(b, t);
    if a == [] {
      assert a + s == s && b + t == t;
    } else {
      assert (a + s)[0] == a[0] && (b + t)[0] == b[0];
      assert (a + s)[1..] == a[1..] + s && (b + t)[1..] == b[1..] + t;
      NumeralDelimits(a[1..], b[1..], s, t);
      assert a == [a[0]] + a[1..] && b == [b[0]] + b[1..];
    }
  }

  function KindChar(v: Json): char
    requires Good(v)
  {
    match v
    case Null => 'n'
    case Bool(b) => if b then 't' else 'f'
    case Num(t) => t[0]
    case Str(_) => '"'
    case List(_) => '['
    case Obj(_) => '{'
  }

  /** The first character tells the kind of a value. */
  lemma FirstChar(v: Json, s: string)
    requires Good(v)
    ensures Dump(v) != [] && (Dump(v) + s)[0] == KindChar(v)
  {
  }

  /** The items from the i-th on start with a comma, the closing bracket, or the kind of the first item. */
  lemma ItemsStart(v: Json, i: nat, s: string)
    requires v.List? && i <= |v.items| && Good(v)
    ensures DumpItems(v, i) != []
    ensures (DumpItems(v, i) + s)[0] == if i == |v.items| then ']' else if i > 0 then ',' else KindChar(v.items[i])
  {
    if i < |v.items| { FirstChar(v.items[i], DumpItems(v, i + 1)); }
  }

  lemma PairsStart(v: Json, i: nat, s: string)
    requires v.Obj? && i <= |v.pairs|
    ensures DumpPairs(v, i) != []
    ensures (DumpPairs(v, i) + s)[0] == if i == |v.pairs| then '}' else if i > 0 then ',' else '"'
  {
  }

  lemma ItemsSplit(v: Json, i: nat, s: string)
    requires v.List? && i < |v.items|
    ensures DumpItems(v, i) + s == Comma(i) + (Dump(v.items[i]) + (DumpItems(v, i + 1) + s))
  {
  }

  lemma PairsSplit(v: Json, i: nat, s: string)
    requires v.Obj? && i < |v.pairs|
    ensures DumpPairs(v, i) + s ==
            Comma(i) + (Quote(v.pairs[i].0) + ([':'] + (Dump(v.pairs[i].1) + (DumpPairs(v, i + 1) + s))))
  {
    var value, rest := Dump(v.pairs[i].1), DumpPairs(v, i + 1);
    assert (value + rest) + s == value + (rest + s);
    assert ([':'] + (value + rest)) + s == [':'] + ((value + rest) + s);
    var tail := [':'] + (value + rest);
    assert (Quote(v.pairs[i].0) + tail) + s == Quote(v.pairs[i].0) + (tail + s);
    var whole := Quote(v.pairs[i].0) + tail;
    assert (Comma(i) + whole) + s == Comma(i) + (whole + s);
  }

  lemma SameKind(v: Json, w: Json)
    requires Good(v) && Good(w) && KindChar(v) == KindChar(w)
    ensures (v.List? <==> w.List?) && (v.Obj? <==> w.Obj?) && (v.Num? <==> w.Num?) && (v.Str? <==> w.Str?)
    ensures v.Null? || v.Bool? ==> v == w
  {
  }

  lemma ScalarDelimits(v: Json, w: Json, s: string, t: string)
    requires Good(v) && Good(w) && Stops(s) && Stops(t) && Dump(v) + s == Dump(w) + t
    requires !v.List? && !v.Obj? && KindChar(v) == KindChar(w)
    ensures v == w && s == t
  {
    SameKind(v, w);
    match v
    case Null => Cancel(Dump(v), s, t);
    case Bool(_) => Cancel(Dump(v), s, t);
    case Num(x) => NumeralDelimits(x, w.numeral, s, t);
    case Str(x) => QuoteDelimits(x, w.text, s, t);
  }

  lemma Opened(v: Json, s: string)
    requires v.List? || v.Obj?
    ensures v.List? ==> Dump(v) + s == ['['] + (DumpItems(v, 0) + s)
    ensures v.Obj? ==> Dump(v) + s == ['{'] + (DumpPairs(v, 0) + s)
  {
  }

  /** A serialized value followed by something that stops it is read back unambiguously. */
  lemma {:induction false} DumpDelimits(v: Json, w: Json, s: string, t: string)
    requires Good(v) && Good(w) && Stops(s) && Stops(t) && Dump(v) + s == Dump(w) + t
    ensures v == w && s == t
    decreases v, Width(v) + 2
  {
    FirstChar(v, s);
    FirstChar(w, t);
    assert KindChar(v) == KindChar(w);
    SameKind(v, w);
    if v.List? {
      Opened(v, s);
      Opened(w, t);
      Cancel(['['], DumpItems(v, 0) + s, DumpItems(w, 0) + t);
      ItemsDelimit(v, w, 0, s, t);
      assert v.items[0..] == v.items && w.items[0..] == w.items;
    } else if v.Obj? {
      Opened(v, s);
      Opened(w, t);
      Cancel(['{'], DumpPairs(v, 0) + s, DumpPairs(w, 0) + t);
      PairsDelimit(v, w, 0, s, t);
      assert v.pairs[0..] == v.pairs && w.pairs[0..] == w.pairs;
    } else {
      ScalarDelimits(v, w, s, t);
    }
  }

  lemma {:induction false} ItemsDelimit(v: Json, w: Json, i: nat, s: string, t: string)
    requires v.List? && w.List? && Good(v) && Good(w) && i <= |v.items| && i <= |w.items|
    requires DumpItems(v, i) + s == DumpItems(w, i) + t
    ensures v.items[i..] == w.items[i..] && s == t
    decreases v, |v.items| - i + 1
  {
    ItemsStart(v, i, s);
    ItemsStart(w, i, t);
    assert i == |v.items| <==> i == |w.items|;
    if i == |v.items| {
      Cancel([']'], s, t);
    } else {
      var restV, restW := DumpItems(v, i + 1) + s, DumpItems(w, i + 1) + t;
      ItemsSplit(v, i, s);
      ItemsSplit(w, i, t);
      Cancel(Comma(i), Dump(v.items[i]) + restV, Dump(w.items[i]) + restW);
      ItemsStart(v, i + 1, s);
      ItemsStart(w, i + 1, t);
      DumpDelimits(v.items[i], w.items[i], restV, restW);
      ItemsDelimit(v, w, i + 1, s, t);
      SplitFirst(v.items, i);
      SplitFirst(w.items, i);
    }
  }

  lemma KeyDelimits(comma: string, a: string, b: string, s: string, t: string)
    requires comma + (Quote(a) + ([':'] + s)) == comma + (Quote(b) + ([':'] + t))
    ensures a == b && s == t
  {
    Cancel(comma, Quote(a) + ([':'] + s), Quote(b) + ([':'] + t));
    QuoteDelimits(a, b, [':'] + s, [':'] + t);
    Cancel([':'], s, t);
  }

  lemma {:induction false} PairsDelimit(v: Json, w: Json, i: nat, s: string, t: string)
    requires v.Obj? && w.Obj? && Good(v) && Good(w) && i <= |v.pairs| && i <= |w.pairs|
    requires DumpPairs(v, i) + s == DumpPairs(w, i) + t
    ensures v.pairs[i..] == w.pairs[i..] && s == t
    decreases v, |v.pairs| - i + 1
  {
    PairsStart(v, i, s);
    PairsStart(w, i, t);
    assert i == |v.pairs| <==> i == |w.pairs|;
    if i == |v.pairs| {
      Cancel(['}'], s, t);
    } else {
      var keyV, valueV, keyW, valueW := v.pairs[i].0, v.pairs[i].1, w.pairs[i].0, w.pairs[i].1;
      var restV, restW := DumpPairs(v, i + 1) + s, DumpPairs(w, i + 1) + t;
      PairsSplit(v, i, s);
      PairsSplit(w, i, t);
      KeyDelimits(Comma(i), keyV, keyW, Dump(valueV) + restV, Dump(valueW) + restW);
      PairsStart(v, i + 1, s);
      PairsStart(w, i + 1, t);
      DumpDelimits(valueV, valueW, restV, restW);
      PairsDelimit(v, w, i + 1, s, t);
      SplitFirst(v.pairs, i);
      SplitFirst(w.pairs, i);
    }
  }

  /** The serialization determines the value. */
  lemma DumpInjective(v: Json, w: Json)
    requires Good(v) && Good(w) && Dump(v) == Dump(w)
    ensures v == w
  {
    assert Dump(v) + [] == Dump(v) && Dump(w) + [] == Dump(w);
    DumpDelimits(v, w, [], []);
  }

  // ----- serialization with sorted keys

  function KeyOf(p: (string, Json)): string {
    p.0
  }

  /** The same value with the keys of every object in order. */
  function SortKeys(v: Json): Json {
    match v
    case List(xs) => List(seq(|xs|, i requires 0 <= i < |xs| => SortKeys(xs[i])))
    case Obj(ps) => Obj(Order.Sort(seq(|ps|, i requires 0 <= i < |ps| => (ps[i].0, SortKeys(ps[i].1))), KeyOf))
    case _ => v
  }

  function DumpSorted(v: Json): string {
    Dump(SortKeys(v))
  }
}
