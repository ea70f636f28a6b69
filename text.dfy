/** String operations the key-URI logic relies on: prefix tests and Python's `str.split` with a separator. */
module Text {

  /** Python's `s.startswith(prefix)`. */
  predicate StartsWith(s: string, prefix: string) {
    |prefix| <= |s| && s[..|prefix|] == prefix
  }

  lemma StartsWithConcat(prefix: string, rest: string)
    ensures StartsWith(prefix + rest, prefix)
    ensures (prefix + rest)[|prefix|..] == rest
  {
    assert (prefix + rest)[..|prefix|] == prefix;
  }

  lemma StartsWithDecompose(s: string, prefix: string)
    requires StartsWith(s, prefix)
    ensures s == prefix + s[|prefix|..]
  {
    assert s == s[..|prefix|] + s[|prefix|..];
  }

  /** A string that starts with `p + q` starts with `p`. */
  lemma StartsWithLonger(s: string, p: string, q: string)
    requires StartsWith(s, p + q)
    ensures StartsWith(s, p)
  {
    assert s[..|p|] == (p + q)[..|p|];
  }

  /** Number of occurrences of `c` in `s`. */
  function CountChar(s: string, c: char): nat {
    if |s| == 0 then 0 else (if s[0] == c then 1 else 0) + CountChar(s[1..], c)
  }

  lemma {:induction false} CountCharZero(s: string, c: char)
    ensures CountChar(s, c) == 0 <==> c !in s
  {
    if |s| > 0 {
      CountCharZero(s[1..], c);
      assert s == [s[0]] + s[1..];
    }
  }

  /**
   * Python's `s.split(sep)` for a one-character separator: the maximal
   * separator-free pieces between occurrences of `sep`, empty pieces kept.
   */
  function Split(s: string, sep: char): (parts: seq<string>)
    ensures |parts| == CountChar(s, sep) + 1
    ensures forall i :: 0 <= i < |parts| ==> sep !in parts[i]
    decreases |s|
  {
    if |s| == 0 then [""]
    else if s[0] == sep then [""] + Split(s[1..], sep)
    else
      var rest := Split(s[1..], sep);
      [[s[0]] + rest[0]] + rest[1..]
  }

  /** Python's `sep.join(parts)`. */
  function Join(parts: seq<string>, sep: char): string
    requires |parts| >= 1
    decreases |parts|
  {
    if |parts| == 1 then parts[0] else parts[0] + [sep] + Join(parts[1..], sep)
  }

  lemma {:induction false} SplitNoSeparator(s: string, sep: char)
    requires sep !in s
    ensures Split(s, sep) == [s]
    decreases |s|
  {
    if |s| > 0 {
      SplitNoSeparator(s[1..], sep);
      assert [s[0]] + s[1..] == s;
    }
  }

  /** Splitting `a + sep + x` with a separator-free `a` peels off `a`. */
  lemma {:induction false} SplitAfterSegment(a: string, x: string, sep: char)
    requires sep !in a
    ensures Split(a + [sep] + x, sep) == [a] + Split(x, sep)
    decreases |a|
  {
    var s := a + [sep] + x;
    if |a| == 0 {
      assert s[1..] == x;
    } else {
      assert s[0] == a[0];
      assert s[1..] == a[1..] + [sep] + x;
      SplitAfterSegment(a[1..], x, sep);
      assert [a[0]] + a[1..] == a;
    }
  }

  /** Splitting four separator-free segments followed by a rest. */
  lemma SplitFourSegments(a: string, b: string, c: string, d: string, tail: string, sep: char)
    requires sep !in a && sep !in b && sep !in c && sep !in d
    ensures Split(a + [sep] + b + [sep] + c + [sep] + d + [sep] + tail, sep) == [a, b, c, d] + Split(tail, sep)
  {
    var t3 := d + [sep] + tail;
    var t2 := c + [sep] + t3;
    var t1 := b + [sep] + t2;
    SplitAfterSegment(d, tail, sep);
    SplitAfterSegment(c, t3, sep);
    SplitAfterSegment(b, t2, sep);
    SplitAfterSegment(a, t1, sep);
    assert a + [sep] + b + [sep] + c + [sep] + d + [sep] + tail == a + [sep] + t1;
  }

  /** Splitting undoes joining separator-free pieces. */
  lemma {:induction false} SplitJoin(parts: seq<string>, sep: char)
    requires |parts| >= 1
    requires forall i :: 0 <= i < |parts| ==> sep !in parts[i]
    ensures Split(Join(parts, sep), sep) == parts
    decreases |parts|
  {
    if |parts| == 1 {
      SplitNoSeparator(parts[0], sep);
    } else {
      SplitJoin(parts[1..], sep);
      SplitAfterSegment(parts[0], Join(parts[1..], sep), sep);
      assert [parts[0]] + parts[1..] == parts;
    }
  }

  /** Joining undoes splitting. */
  lemma {:induction false} JoinSplit(s: string, sep: char)
    ensures Join(Split(s, sep), sep) == s
    decreases |s|
  {
    if |s| > 0 {
      JoinSplit(s[1..], sep);
      var rest := Split(s[1..], sep);
      if s[0] == sep {
        assert Split(s, sep)[1..] == rest;
        assert [sep] + s[1..] == s;
      } else {
        var parts := Split(s, sep);
        assert parts[1..] == rest[1..];
        if |rest| == 1 {
          assert [s[0]] + s[1..] == s;
        } else {
          assert parts[0] + [sep] + Join(parts[1..], sep) == [s[0]] + (rest[0] + [sep] + Join(rest[1..], sep));
          assert [s[0]] + s[1..] == s;
        }
      }
    }
  }
}
