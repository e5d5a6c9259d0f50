/**
  The Python string operations the pipeline relies on: `str.split` with an
  explicit separator, `sep.join`, ASCII `lower`/`capitalize`, `str.replace`
  of one character, and `str()` of an integer.
*/
module Text {

  /** Python's `s.split(c)`, generalised to a set of separator characters:
      the text is cut at every separator and empty pieces are kept, so the
      result always has at least one piece and no piece holds a separator. */
  function SplitOn(s: string, seps: set<char>): (parts: seq<string>)
    ensures |parts| >= 1
    ensures forall i, c :: 0 <= i < |parts| && c in parts[i] ==> c !in seps
    decreases |s|
  {
    if s == [] then [""]
    else
      var rest := SplitOn(s[1..], seps);
      if s[0] in seps then [""] + rest
      else [[s[0]] + rest[0]] + rest[1..]
  }

  /** Python's `sep.join(parts)`. */
  function Join(parts: seq<string>, sep: char): string
  {
    if |parts| == 0 then ""
    else if |parts| == 1 then parts[0]
    else parts[0] + [sep] + Join(parts[1..], sep)
  }

  /** The pieces of every element, in order: the nested comprehension
      `[item for sublist in [p.split(c) for p in parts] for item in sublist]`. */
  function SplitAll(parts: seq<string>, seps: set<char>): seq<string>
  {
    if parts == [] then [] else SplitOn(parts[0], seps) + SplitAll(parts[1..], seps)
  }

  /** Number of positions of `s` that hold a character of `cs`. */
  function Count(s: string, cs: set<char>): nat
  {
    if s == [] then 0 else (if s[0] in cs then 1 else 0) + Count(s[1..], cs)
  }

  /** Sum of the lengths of the pieces. */
  function TotalLength(parts: seq<string>): nat
  {
    if parts == [] then 0 else |parts[0]| + TotalLength(parts[1..])
  }

  /** Joining the pieces of a split with the same separator gives the text back. */
  lemma {:induction false} JoinSplit(s: string, c: char)
    ensures Join(SplitOn(s, {c}), c) == s
    decreases |s|
  {
    if s != [] {
      var rest := SplitOn(s[1..], {c});
      JoinSplit(s[1..], c);
      if s[0] == c {
        assert SplitOn(s, {c}) == [""] + rest;
        assert ([""] + rest)[1..] == rest;
        assert s == [c] + s[1..];
      } else {
        assert SplitOn(s, {c}) == [[s[0]] + rest[0]] + rest[1..];
        if |rest| == 1 {
          assert s == [s[0]] + rest[0];
        } else {
          assert Join(rest, c) == rest[0] + [c] + Join(rest[1..], c);
          assert ([[s[0]] + rest[0]] + rest[1..])[1..] == rest[1..];
          assert s == [s[0]] + s[1..];
        }
      }
    }
  }

  /** A separator-free prefix stays glued to the first piece of what follows it. */
  lemma {:induction false} SplitPrefix(p: string, tail: string, seps: set<char>)
    requires forall x :: x in p ==> x !in seps
    ensures SplitOn(p + tail, seps) == [p + SplitOn(tail, seps)[0]] + SplitOn(tail, seps)[1..]
    decreases |p|
  {
    if p != [] {
      SplitPrefix(p[1..], tail, seps);
      assert (p + tail)[1..] == p[1..] + tail;
      assert (p + tail)[0] == p[0] && p[0] in p;
      assert [p[0]] + (p[1..] + SplitOn(tail, seps)[0]) == p + SplitOn(tail, seps)[0];
    } else {
      var t := SplitOn(tail, seps);
      assert p + tail == tail;
      assert p + t[0] == t[0];
      assert t == [t[0]] + t[1..];
    }
  }

  /** Splitting a join gives the pieces back, when no piece holds the separator. */
  lemma {:induction false} SplitJoin(parts: seq<string>, c: char)
    requires |parts| >= 1
    requires forall i :: 0 <= i < |parts| ==> c !in parts[i]
    ensures SplitOn(Join(parts, c), {c}) == parts
    decreases |parts|
  {
    if |parts| == 1 {
      SplitPrefix(parts[0], "", {c});
      assert parts[0] + "" == parts[0];
    } else {
      var tail := [c] + Join(parts[1..], c);
      SplitJoin(parts[1..], c);
      SplitPrefix(parts[0], tail, {c});
      assert tail[0] == c && tail[1..] == Join(parts[1..], c);
      var t := SplitOn(tail, {c});
      assert t == [""] + parts[1..];
      assert t[0] == "" && t[1..] == parts[1..];
      assert parts[0] + t[0] == parts[0];
      assert parts[0] + tail == Join(parts, c);
      assert parts == [parts[0]] + parts[1..];
    }
  }

  /** Splitting on `a` and then every piece on `b` is splitting on both at once. */
  lemma {:induction false} SplitTwice(s: string, a: char, b: char)
    ensures SplitAll(SplitOn(s, {a}), {b}) == SplitOn(s, {a, b})
    decreases |s|
  {
    if s == [] {
      assert SplitOn(s, {a}) == [""];
      SplitAllCons([""], {b});
      assert SplitAll([""][1..], {b}) == [];
    } else {
      SplitTwice(s[1..], a, b);
      if s[0] == a {
        SplitTwiceAtA(s, a, b);
      } else {
        SplitTwiceOther(s, a, b);
      }
    }
  }

  lemma SplitTwiceAtA(s: string, a: char, b: char)
    requires s != [] && s[0] == a
    requires SplitAll(SplitOn(s[1..], {a}), {b}) == SplitOn(s[1..], {a, b})
    ensures SplitAll(SplitOn(s, {a}), {b}) == SplitOn(s, {a, b})
  {
    var r := SplitOn(s[1..], {a});
    assert SplitOn(s, {a}) == [""] + r;
    SplitAllCons([""] + r, {b});
    assert ([""] + r)[1..] == r;
    assert SplitOn(s, {a, b}) == [""] + SplitOn(s[1..], {a, b});
  }

  lemma SplitTwiceOther(s: string, a: char, b: char)
    requires s != [] && s[0] != a
    requires SplitAll(SplitOn(s[1..], {a}), {b}) == SplitOn(s[1..], {a, b})
    ensures SplitAll(SplitOn(s, {a}), {b}) == SplitOn(s, {a, b})
  {
    var r := SplitOn(s[1..], {a});
    var piece := [s[0]] + r[0];
    assert SplitOn(s, {a}) == [piece] + r[1..];
    SplitAllCons([piece] + r[1..], {b});
    assert ([piece] + r[1..])[1..] == r[1..];
    SplitAllCons(r, {b});
    assert piece[1..] == r[0] && piece[0] == s[0] && piece != [];
    var t := SplitOn(r[0], {b});
    var rest := SplitAll(r[1..], {b});
    assert SplitAll(SplitOn(s, {a}), {b}) == SplitOn(piece, {b}) + rest;
    assert SplitOn(s[1..], {a, b}) == t + rest;
    if s[0] == b {
      SplitHeadAtB(s, piece, t, rest, a, b);
    } else {
      SplitHeadNeither(s, piece, t, rest, a, b);
    }
  }

  lemma SplitHeadAtB(s: string, piece: string, t: seq<string>, rest: seq<string>, a: char, b: char)
    requires s != [] && s[0] != a && s[0] == b
    requires piece != [] && piece[0] == s[0] && t == SplitOn(piece[1..], {b})
    requires SplitOn(s[1..], {a, b}) == t + rest
    ensures SplitOn(piece, {b}) + rest == SplitOn(s, {a, b})
  {
    assert SplitOn(piece, {b}) == [""] + t;
    assert SplitOn(s, {a, b}) == [""] + (t + rest);
  }

  lemma SplitHeadNeither(s: string, piece: string, t: seq<string>, rest: seq<string>, a: char, b: char)
    requires s != [] && s[0] != a && s[0] != b
    requires piece != [] && piece[0] == s[0] && t == SplitOn(piece[1..], {b})
    requires SplitOn(s[1..], {a, b}) == t + rest
    ensures SplitOn(piece, {b}) + rest == SplitOn(s, {a, b})
  {
    SplitCons(piece, {b});
    SplitCons(s, {a, b});
    FirstPieceGrows([s[0]], t, rest);
  }

  /** Prefixing the first piece commutes with appending more pieces. */
  lemma FirstPieceGrows(p: string, t: seq<string>, rest: seq<string>)
    requires |t| >= 1
    ensures ([p + t[0]] + t[1..]) + rest == [p + (t + rest)[0]] + (t + rest)[1..]
  {
    assert (t + rest)[0] == t[0];
    assert (t + rest)[1..] == t[1..] + rest;
  }

  /** One step of SplitOn on a text whose first character is no separator. */
  lemma SplitCons(s: string, seps: set<char>)
    requires s != [] && s[0] !in seps
    ensures SplitOn(s, seps) == [[s[0]] + SplitOn(s[1..], seps)[0]] + SplitOn(s[1..], seps)[1..]
  {
  }

  /** One step of SplitAll on a non-empty list. */
  lemma SplitAllCons(parts: seq<string>, seps: set<char>)
    requires parts != []
    ensures SplitAll(parts, seps) == SplitOn(parts[0], seps) + SplitAll(parts[1..], seps)
  {
  }

  /** A split has one piece more than there are separators, and the pieces
      hold every other character. */
  lemma {:induction false} SplitSizes(s: string, seps: set<char>)
    ensures |SplitOn(s, seps)| == Count(s, seps) + 1
    ensures TotalLength(SplitOn(s, seps)) + Count(s, seps) == |s|
    decreases |s|
  {
    if s != [] {
      SplitSizes(s[1..], seps);
      var rest := SplitOn(s[1..], seps);
      if s[0] in seps {
        assert SplitOn(s, seps) == [""] + rest;
        assert ([""] + rest)[1..] == rest;
      } else {
        assert SplitOn(s, seps) == [[s[0]] + rest[0]] + rest[1..];
        assert TotalLength(rest) == |rest[0]| + TotalLength(rest[1..]);
        assert ([[s[0]] + rest[0]] + rest[1..])[1..] == rest[1..];
      }
    }
  }

  function LowerChar(c: char): char
  {
    if 'A' <= c <= 'Z' then (c as int + 32) as char else c
  }

  function UpperChar(c: char): char
  {
    if 'a' <= c <= 'z' then (c as int - 32) as char else c
  }

  /** `s.lower()` on ASCII letters; every other character is kept. */
  function Lower(s: string): string
  {
    seq(|s|, i requires 0 <= i < |s| => LowerChar(s[i]))
  }

  /** `s.capitalize()` on ASCII: the first character upper-cased, the rest lower-cased. */
  function Capitalize(s: string): string
  {
    if s == [] then "" else [UpperChar(s[0])] + Lower(s[1..])
  }

  /** `''.join(w.capitalize() for w in words)`. */
  function ConcatCapitalized(words: seq<string>): string
  {
    if words == [] then "" else Capitalize(words[0]) + ConcatCapitalized(words[1..])
  }

  /** `s.replace(a, b)` for single characters. */
  function Replace(s: string, a: char, b: char): string
  {
    seq(|s|, i requires 0 <= i < |s| => if s[i] == a then b else s[i])
  }

  function DigitChar(d: nat): char
    requires d < 10
  {
    ('0' as int + d) as char
  }

  predicate IsDigits(s: string)
  {
    forall i :: 0 <= i < |s| ==> '0' <= s[i] <= '9'
  }

  /** `str(n)` for a natural number: decimal digits without leading zeros. */
  function NatText(n: nat): (s: string)
    ensures |s| >= 1 && IsDigits(s)
    ensures s[0] == '0' ==> n == 0
    decreases n
  {
    if n < 10 then [DigitChar(n)] else NatText(n / 10) + [DigitChar(n % 10)]
  }

  /** The number a string of decimal digits denotes. */
  function DigitsValue(s: string): nat
    requires IsDigits(s)
  {
    if s == [] then 0 else 10 * DigitsValue(s[..|s| - 1]) + (s[|s| - 1] as int - '0' as int)
  }

  /** Reading the decimal text of `n` gives `n` back. */
  lemma {:induction false} NatTextValue(n: nat)
    ensures DigitsValue(NatText(n)) == n
    decreases n
  {
    if n >= 10 {
      NatTextValue(n / 10);
      var s := NatText(n);
      var p := NatText(n / 10);
      assert s == p + [DigitChar(n % 10)];
      assert s[..|s| - 1] == p && s[|s| - 1] == DigitChar(n % 10);
      assert n == 10 * (n / 10) + n % 10;
    }
  }

  /** `str(i)` for any integer. */
  function IntText(i: int): string
  {
    if i < 0 then "-" + NatText(-i) else NatText(i)
  }
}
