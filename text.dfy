/** Python's `str.split(sep)` for a one-character separator, which is how
    the image reconciler takes URIs apart. `Join` is not used by either
    reconciler; it only serves to state that a split loses nothing. */
module Text {

  /** `s.split(c)`: the maximal runs between occurrences of `c`; always at
      least one field, and an empty string at each end where `s` starts or
      ends with `c`. */
  function Split(s: string, c: char): (r: seq<string>)
    ensures |r| >= 1
  {
    if s == [] then [[]]
    else if s[0] == c then [[]] + Split(s[1..], c)
    else
      var t := Split(s[1..], c);
      [[s[0]] + t[0]] + t[1..]
  }

  /** `c.join(parts)`. */
  function Join(parts: seq<string>, c: char): string
    requires |parts| >= 1
  {
    if |parts| == 1 then parts[0] else parts[0] + [c] + Join(parts[1..], c)
  }

  /** Splitting and joining again gives back the string. */
  lemma {:induction false} JoinSplit(s: string, c: char)
    ensures Join(Split(s, c), c) == s
  {
    if s != [] {
      JoinSplit(s[1..], c);
      var t := Split(s[1..], c);
      if s[0] == c {
        assert Split(s, c) == [[]] + t;
        assert ([[]] + t)[1..] == t;
      } else {
        assert Split(s, c) == [[s[0]] + t[0]] + t[1..];
        if |t| > 1 {
          assert ([[s[0]] + t[0]] + t[1..])[1..] == t[1..];
          assert Join(t, c) == t[0] + [c] + Join(t[1..], c);
        }
      }
    }
  }

  /** No field of a split contains the separator. */
  lemma {:induction false} SplitFieldsFree(s: string, c: char)
    ensures forall i :: 0 <= i < |Split(s, c)| ==> c !in Split(s, c)[i]
  {
    if s != [] {
      SplitFieldsFree(s[1..], c);
    }
  }

  /** A string without the separator is a single field. */
  lemma {:induction false} SplitNoSep(s: string, c: char)
    requires c !in s
    ensures Split(s, c) == [s]
  {
    if s != [] {
      SplitNoSep(s[1..], c);
      assert [s[0]] + s[1..] == s;
    }
  }

  /** A prefix free of the separator becomes the first field. */
  lemma {:induction false} SplitAt(a: string, b: string, c: char)
    requires c !in a
    ensures Split(a + [c] + b, c) == [a] + Split(b, c)
  {
    if a == [] {
      assert a + [c] + b == [c] + b;
      assert ([c] + b)[1..] == b;
    } else {
      var s := a + [c] + b;
      assert s[1..] == a[1..] + [c] + b;
      SplitAt(a[1..], b, c);
      assert [a[0]] + a[1..] == a;
    }
  }

  /** How often `c` occurs in `s`. */
  function Count(s: string, c: char): nat {
    if s == [] then 0 else (if s[0] == c then 1 else 0) + Count(s[1..], c)
  }

  /** A string has an occurrence of `c` exactly when `c` is in it. */
  lemma {:induction false} CountPositive(s: string, c: char)
    ensures Count(s, c) >= 1 <==> c in s
  {
    if s != [] {
      CountPositive(s[1..], c);
      assert s == [s[0]] + s[1..];
    }
  }

  /** A split has one field more than the string has separators. */
  lemma {:induction false} SplitLength(s: string, c: char)
    ensures |Split(s, c)| == Count(s, c) + 1
  {
    if s != [] {
      SplitLength(s[1..], c);
    }
  }

  lemma {:induction false} CountAppend(a: string, b: string, c: char)
    ensures Count(a + b, c) == Count(a, c) + Count(b, c)
  {
    if a == [] {
      assert a + b == b;
    } else {
      assert (a + b)[1..] == a[1..] + b;
      CountAppend(a[1..], b, c);
    }
  }

  /** A string with three occurrences of `c` inside splits into at least
      four fields. */
  lemma ThreeSeparators(a: string, x: string, y: string, b: string, c: char)
    ensures |Split(a + ([c] + x + [c] + y + [c]) + b, c)| >= 4
  {
    OneSeparator([], c);
    CountAppend([c] + x + [c] + y, [c], c);
    CountAppend([c] + x + [c], y, c);
    CountAppend([c] + x, [c], c);
    CountAppend([c], x, c);
    CountAppend(a + ([c] + x + [c] + y + [c]), b, c);
    CountAppend(a, [c] + x + [c] + y + [c], c);
    SplitLength(a + ([c] + x + [c] + y + [c]) + b, c);
  }

  lemma OneSeparator(x: string, c: char)
    ensures Count(x + [c], c) >= 1
  {
    CountAppend(x, [c], c);
    assert [c][1..] == [];
  }

  /** A string with an occurrence of `c` inside splits into at least two
      fields. */
  lemma SeparatorInside(a: string, x: string, b: string, c: char)
    ensures |Split(a + (x + [c]) + b, c)| >= 2
  {
    OneSeparator(x, c);
    CountAppend(a + (x + [c]), b, c);
    CountAppend(a, x + [c], c);
    SplitLength(a + (x + [c]) + b, c);
  }

  /** A prefix free of the separator stays at the front of the first field. */
  lemma {:induction false} SplitFirst(a: string, b: string, c: char)
    requires c !in a
    ensures Split(a + b, c)[0] == a + Split(b, c)[0]
  {
    if a != [] {
      assert (a + b)[1..] == a[1..] + b;
      assert c !in a[1..] by {
        forall x | x in a[1..] ensures x != c {
          assert x in a;
        }
      }
      SplitFirst(a[1..], b, c);
      assert [a[0]] + a[1..] == a;
    } else {
      assert a + b == b;
    }
  }

  /** Every character of a field comes from the string. */
  lemma {:induction false} SplitFieldsWithin(s: string, c: char)
    ensures forall i, x :: 0 <= i < |Split(s, c)| && x in Split(s, c)[i] ==> x in s
  {
    if s != [] {
      SplitFieldsWithin(s[1..], c);
      forall x | x in s[1..] ensures x in s {
      }
    }
  }

  /** The field after the first separator, when neither side holds another. */
  lemma SecondField(a: string, b: string, c: char)
    requires c !in a && c !in b
    ensures |Split(a + [c] + b, c)| == 2 && Split(a + [c] + b, c)[1] == b
  {
    SplitAt(a, b, c);
    SplitNoSep(b, c);
  }
}
