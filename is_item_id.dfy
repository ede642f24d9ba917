/**
  The identifier classifier of src/helpers/is-item-id.ts: a string is taken for an
  item id when it is 36 characters long and splits into exactly five parts on '-'.
  Every other string is a path.
*/
module ItemIdClassifier {

  /** The number of occurrences of `c` in `s`. */
  function Count(s: string, c: char): nat
  {
    if s == [] then 0 else (if s[0] == c then 1 else 0) + Count(s[1..], c)
  }

  /** JavaScript's `s.split(sep)` for a one-character separator: the maximal separator-free runs. */
  function Split(s: string, sep: char): (parts: seq<string>)
    ensures |parts| >= 1
  {
    if s == [] then [""]
    else
      var rest := Split(s[1..], sep);
      if s[0] == sep then [""] + rest
      else [[s[0]] + rest[0]] + rest[1..]
  }

  /** JavaScript's `parts.join(sep)`, the inverse of `Split`. */
  function Join(parts: seq<string>, sep: char): string
    requires |parts| >= 1
  {
    if |parts| == 1 then parts[0] else parts[0] + [sep] + Join(parts[1..], sep)
  }

  /** Splitting loses nothing: joining the parts again gives back the string. */
  lemma {:induction false} JoinSplit(s: string, sep: char)
    ensures Join(Split(s, sep), sep) == s
  {
    if s != [] {
      var rest := Split(s[1..], sep);
      JoinSplit(s[1..], sep);
      if s[0] == sep {
        assert ([""] + rest)[1..] == rest;
      } else if |rest| > 1 {
        var parts := [[s[0]] + rest[0]] + rest[1..];
        assert parts[1..] == rest[1..];
        assert Join(rest, sep) == rest[0] + [sep] + Join(rest[1..], sep);
      }
    }
  }

  /** No part of a split contains the separator. */
  lemma {:induction false} SplitPartsHaveNoSeparator(s: string, sep: char)
    ensures forall i :: 0 <= i < |Split(s, sep)| ==> sep !in Split(s, sep)[i]
  {
    if s != [] {
      SplitPartsHaveNoSeparator(s[1..], sep);
      var rest := Split(s[1..], sep);
      if s[0] != sep {
        var parts := Split(s, sep);
        forall i | 0 <= i < |parts| ensures sep !in parts[i] {
          if i == 0 {
            assert parts[0] == [s[0]] + rest[0];
          } else {
            assert parts[i] == rest[i];
          }
        }
      }
    }
  }

  /** A split has one part more than the string has separators. */
  lemma {:induction false} SplitLength(s: string, sep: char)
    ensures |Split(s, sep)| == Count(s, sep) + 1
  {
    if s != [] {
      SplitLength(s[1..], sep);
    }
  }

  /**
    `isItemID`: length 36 and five '-'-separated parts; equivalently, length 36
    and exactly four hyphens.
  */
  function IsItemId(s: string): (b: bool)
    ensures b <==> |s| == 36 && Count(s, '-') == 4
  {
    SplitLength(s, '-');
    |s| == 36 && |Split(s, '-')| == 5
  }

  /** Strings with hyphens at the same positions have the same number of hyphens. */
  lemma {:induction false} SameHyphensSameCount(s: string, t: string)
    requires |s| == |t|
    requires forall i :: 0 <= i < |s| ==> (s[i] == '-' <==> t[i] == '-')
    ensures Count(s, '-') == Count(t, '-')
  {
    if s != [] {
      SameHyphensSameCount(s[1..], t[1..]);
    }
  }

  /** Only the length and the hyphen positions are inspected; every other character is ignored. */
  lemma HyphenPositionsDecide(s: string, t: string)
    requires |s| == |t|
    requires forall i :: 0 <= i < |s| ==> (s[i] == '-' <==> t[i] == '-')
    ensures IsItemId(s) == IsItemId(t)
  {
    SameHyphensSameCount(s, t);
  }

  /** A string whose length is not 36 is always a path. */
  lemma WrongLengthIsPath(s: string)
    requires |s| != 36
    ensures !IsItemId(s)
  {
  }

  /** The root path "/" is a path, not an id. */
  lemma RootIsPath()
    ensures !IsItemId("/")
  {
  }

  /** Counting distributes over concatenation. */
  lemma {:induction false} CountConcat(a: string, b: string, c: char)
    ensures Count(a + b, c) == Count(a, c) + Count(b, c)
  {
    if a != [] {
      assert (a + b)[0] == a[0] && (a + b)[1..] == a[1..] + b;
      CountConcat(a[1..], b, c);
    } else {
      assert a + b == b;
    }
  }

  /** A string without `c` counts no `c`. */
  lemma {:induction false} CountAbsent(s: string, c: char)
    requires c !in s
    ensures Count(s, c) == 0
  {
    if s != [] {
      assert c !in s[1..];
      CountAbsent(s[1..], c);
    }
  }

  /**
    The canonical UUID layout (8-4-4-4-12 hyphen-free groups) is classified as an id,
    whatever the groups contain.
  */
  lemma UuidLayoutIsId(a: string, b: string, c: string, d: string, e: string)
    requires |a| == 8 && |b| == 4 && |c| == 4 && |d| == 4 && |e| == 12
    requires '-' !in a && '-' !in b && '-' !in c && '-' !in d && '-' !in e
    ensures IsItemId(a + "-" + b + "-" + c + "-" + d + "-" + e)
  {
    CountAbsent(a, '-'); CountAbsent(b, '-'); CountAbsent(c, '-');
    CountAbsent(d, '-'); CountAbsent(e, '-');
    assert Count("-", '-') == 1;
    CountConcat(a, "-", '-');
    CountConcat(a + "-", b, '-');
    CountConcat(a + "-" + b, "-", '-');
    CountConcat(a + "-" + b + "-", c, '-');
    CountConcat(a + "-" + b + "-" + c, "-", '-');
    CountConcat(a + "-" + b + "-" + c + "-", d, '-');
    CountConcat(a + "-" + b + "-" + c + "-" + d, "-", '-');
    CountConcat(a + "-" + b + "-" + c + "-" + d + "-", e, '-');
  }

  /** A canonical UUID is classified as an id. */
  lemma CanonicalUuidIsId()
    ensures IsItemId("123e4567-e89b-12d3-a456-426614174000")
  {
    UuidLayoutIsId("123e4567", "e89b", "12d3", "a456", "426614174000");
    assert "123e4567" + "-" + "e89b" + "-" + "12d3" + "-" + "a456" + "-" + "426614174000"
        == "123e4567-e89b-12d3-a456-426614174000";
  }
}
