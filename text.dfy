/** The string primitives the decoder relies on: slicing past a prefix,
    `str.split` on one separator character, and `int()` on a decimal segment. */
module Text {
  import opened Wrappers

  /** `s[n:]` in Python: everything after the first `n` characters, or the
      empty string when `s` is shorter than `n`. */
  function Drop(s: string, n: nat): (r: string)
    ensures |s| <= n ==> r == ""
    ensures n <= |s| ==> |r| == |s| - n && s == s[..n] + r
  {
    if n <= |s| then s[n..] else ""
  }

  /** `needle in hay` for two strings: a substring test, true exactly
      when `needle` starts at some position of `hay`. */
  function Contains(hay: string, needle: string): (r: bool)
    ensures r <==> exists i :: 0 <= i <= |hay| && needle <= hay[i..]
    decreases |hay|
  {
    if needle <= hay then assert hay[0..] == hay; true
    else if hay == [] then false
    else
      assert forall i :: 1 <= i <= |hay| ==> hay[1..][i - 1..] == hay[i..];
      Contains(hay[1..], needle)
  }

  // ---------------------------------------------------------------------
  // Decimal digits

  predicate IsDigit(c: char)
  {
    '0' <= c <= '9'
  }

  predicate AllDigits(s: string)
  {
    forall i :: 0 <= i < |s| ==> IsDigit(s[i])
  }

  lemma DigitsAreColonFree(s: string)
    requires AllDigits(s)
    ensures ':' !in s
  {
  }

  /** The value of a digit string read most significant digit first. */
  function DigitsValue(s: string): nat
    requires AllDigits(s)
    decreases |s|
  {
    if s == [] then 0
    else DigitsValue(s[..|s| - 1]) * 10 + (s[|s| - 1] as int - '0' as int)
  }

  /** `int(s)` restricted to ASCII decimal digits: `None` where Python would
      raise `ValueError`. Leading zeros are accepted, as Python does. */
  function ParseNat(s: string): (r: Option<nat>)
    ensures r.Some? <==> s != "" && AllDigits(s)
  {
    if s != "" && AllDigits(s) then Some(DigitsValue(s)) else None
  }

  /** `str(n)` for a natural number: its shortest decimal spelling. */
  function NatToString(n: nat): (r: string)
    ensures r != "" && AllDigits(r)
    ensures r[0] != '0' || n == 0
  {
    var d := ['0' + (n % 10) as char];
    if n < 10 then d else NatToString(n / 10) + d
  }

  /** `int(str(n)) == n`. */
  lemma {:induction false} ParseNatToString(n: nat)
    ensures ParseNat(NatToString(n)) == Some(n)
  {
    NatValue(n);
  }

  lemma {:induction false} NatValue(n: nat)
    ensures DigitsValue(NatToString(n)) == n
  {
    var s := NatToString(n);
    if n >= 10 {
      NatValue(n / 10);
      assert s[..|s| - 1] == NatToString(n / 10);
    }
  }

  /** `int()` reads exactly one value per digit string: the spelling of
      `DigitsValue(s)` is `s` without its leading zeros. */
  lemma {:induction false} ParseNatOfCanonical(s: string)
    requires s != "" && AllDigits(s) && (s[0] != '0' || |s| == 1)
    ensures NatToString(DigitsValue(s)) == s
    decreases |s|
  {
    var init := s[..|s| - 1];
    var last := s[|s| - 1];
    var d := last as int - '0' as int;
    if |s| > 1 {
      assert init[0] == s[0];
      ParseNatOfCanonical(init);
      var v := DigitsValue(init);
      assert v != 0 by {
        if v == 0 {
          NonZeroLeadIsNonZero(init);
        }
      }
      assert DigitsValue(s) == v * 10 + d;
      assert DigitsValue(s) / 10 == v && DigitsValue(s) % 10 == d;
      assert s == init + [last];
    } else {
      assert DigitsValue(s) == d;
      assert s == [last];
    }
  }

  lemma NonZeroLeadIsNonZero(s: string)
    requires s != "" && AllDigits(s) && s[0] != '0'
    ensures DigitsValue(s) != 0
    decreases |s|
  {
    if |s| > 1 {
      NonZeroLeadIsNonZero(s[..|s| - 1]);
    }
  }

  // ---------------------------------------------------------------------
  // str.split(sep) for a one-character separator

  /** `s.split(sep)`: the maximal runs of `s` between occurrences of `sep`.
      There is always at least one segment (`"".split(":") == [""]`). */
  function Split(s: string, sep: char): (r: seq<string>)
    ensures |r| >= 1
    ensures forall i :: 0 <= i < |r| ==> sep !in r[i]
    decreases |s|
  {
    if s == [] then [[]]
    else
      var rest := Split(s[1..], sep);
      if s[0] == sep then [[]] + rest
      else [[s[0]] + rest[0]] + rest[1..]
  }

  /** `sep.join(parts)`, the inverse of `Split`. */
  function Join(parts: seq<string>, sep: char): string
    requires |parts| >= 1
    decreases |parts|
  {
    if |parts| == 1 then parts[0] else parts[0] + [sep] + Join(parts[1..], sep)
  }

  /** Splitting loses nothing: joining the segments back gives the input. */
  lemma {:induction false} JoinSplit(s: string, sep: char)
    ensures Join(Split(s, sep), sep) == s
    decreases |s|
  {
    if s != [] {
      var rest := Split(s[1..], sep);
      JoinSplit(s[1..], sep);
      if s[0] == sep {
        assert ([[]] + rest)[1..] == rest;
      } else {
        var r := [[s[0]] + rest[0]] + rest[1..];
        if |rest| == 1 {
          assert r == [[s[0]] + rest[0]];
        } else {
          assert r[1..] == rest[1..];
          assert Join(rest, sep) == rest[0] + [sep] + Join(rest[1..], sep);
        }
      }
    }
  }

  /** Splitting a join of separator-free segments gives those segments back. */
  lemma {:induction false} SplitJoin(parts: seq<string>, sep: char)
    requires |parts| >= 1
    requires forall i :: 0 <= i < |parts| ==> sep !in parts[i]
    ensures Split(Join(parts, sep), sep) == parts
    decreases |parts|
  {
    if |parts| == 1 {
      SplitFree(parts[0], sep, []);
      assert parts[0] + [] == parts[0];
    } else {
      SplitJoin(parts[1..], sep);
      SplitFree(parts[0], sep, [sep] + Join(parts[1..], sep));
      assert parts[0] + [sep] + Join(parts[1..], sep) == parts[0] + ([sep] + Join(parts[1..], sep));
      SplitAtSep(Join(parts[1..], sep), sep);
      assert [parts[0]] + parts[1..] == parts;
    }
  }

  lemma SplitAtSep(t: string, sep: char)
    ensures Split([sep] + t, sep) == [[]] + Split(t, sep)
  {
    assert ([sep] + t)[1..] == t;
  }

  /** A separator-free head `a` stays whole: it becomes the first segment
      and `tail` is split on its own when it starts with the separator. */
  lemma {:induction false} SplitFree(a: string, sep: char, tail: string)
    requires sep !in a
    requires tail == [] || tail[0] == sep
    ensures Split(a + tail, sep) ==
              if tail == [] then [a] else [a] + Split(tail[1..], sep)
    decreases |a|
  {
    if a == [] {
      assert a + tail == tail;
      if tail != [] {
        assert Split(tail, sep) == [[]] + Split(tail[1..], sep);
      }
    } else {
      SplitFree(a[1..], sep, tail);
      assert (a + tail)[1..] == a[1..] + tail;
      assert [a[0]] + a[1..] == a;
    }
  }
}
