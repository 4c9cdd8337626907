/**
 * The three JavaScript string operations the plugin relies on:
 * `String.prototype.trim`, `String.prototype.split` with a one-character
 * separator, and `Array.prototype.join` with a one-character separator.
 */
module JsText {

  /**
   * The characters `trim` removes: the ECMAScript WhiteSpace and
   * LineTerminator productions (sections 12.2 and 12.3 of ECMA-262),
   * i.e. TAB, LF, VT, FF, CR, SPACE, NBSP, ZWNBSP, LS, PS and the
   * Unicode space separators.
   */
  predicate IsTrimmable(c: char) {
    var n := c as int;
    n == 0x09 || n == 0x0A || n == 0x0B || n == 0x0C || n == 0x0D
    || n == 0x20 || n == 0xA0 || n == 0x1680 || (0x2000 <= n <= 0x200A)
    || n == 0x2028 || n == 0x2029 || n == 0x202F || n == 0x205F
    || n == 0x3000 || n == 0xFEFF
  }

  /** Drops the trimmable characters at the front: the result is a suffix
      that starts with a kept character, and everything dropped was trimmable. */
  function TrimStart(s: string): (r: string)
    ensures |r| <= |s| && r == s[|s| - |r|..]
    ensures forall k :: 0 <= k < |s| - |r| ==> IsTrimmable(s[k])
    ensures r != [] ==> !IsTrimmable(r[0])
  {
    if s != [] && IsTrimmable(s[0]) then TrimStart(s[1..]) else s
  }

  /** Drops the trimmable characters at the back: the result is a prefix
      that ends with a kept character, and everything dropped was trimmable. */
  function TrimEnd(s: string): (r: string)
    ensures |r| <= |s| && r == s[..|r|]
    ensures forall k :: |r| <= k < |s| ==> IsTrimmable(s[k])
    ensures r != [] ==> !IsTrimmable(r[|r| - 1])
  {
    if s != [] && IsTrimmable(s[|s| - 1]) then TrimEnd(s[..|s| - 1]) else s
  }

  /** The number of trimmable characters at the front of `s`. */
  function Leading(s: string): nat {
    |s| - |TrimStart(s)|
  }

  /** `s.trim()`: the slice of `s` between the trimmable characters at
      either end; it neither starts nor ends with a trimmable character. */
  function Trim(s: string): (r: string)
    ensures Leading(s) + |r| <= |s| && r == s[Leading(s)..Leading(s) + |r|]
    ensures forall k :: 0 <= k < Leading(s) ==> IsTrimmable(s[k])
    ensures forall k :: Leading(s) + |r| <= k < |s| ==> IsTrimmable(s[k])
    ensures r != [] ==> !IsTrimmable(r[0]) && !IsTrimmable(r[|r| - 1])
  {
    TrimEnd(TrimStart(s))
  }

  /** Trimmable padding on either side of a core that starts and ends with a
      kept character is exactly what `trim` removes. */
  lemma {:induction false} TrimOfPadded(a: string, m: string, b: string)
    requires forall k :: 0 <= k < |a| ==> IsTrimmable(a[k])
    requires forall k :: 0 <= k < |b| ==> IsTrimmable(b[k])
    requires m != [] ==> !IsTrimmable(m[0]) && !IsTrimmable(m[|m| - 1])
    ensures Trim(a + m + b) == m
  {
    var mb := m + b;
    assert a + m + b == a + mb;
    TrimStartPadded(a, mb);
    if m == [] {
      assert mb == b;
      AllTrimmableTrimStart(b);
    } else {
      TrimStartKept(m, b);
      TrimEndPadded(m, b);
    }
  }

  lemma TrimStartKept(m: string, b: string)
    requires m != [] && !IsTrimmable(m[0])
    ensures TrimStart(m + b) == m + b
  {
    assert (m + b)[0] == m[0];
  }

  lemma {:induction false} TrimStartPadded(a: string, s: string)
    requires forall k :: 0 <= k < |a| ==> IsTrimmable(a[k])
    ensures TrimStart(a + s) == TrimStart(s)
  {
    if a != [] {
      assert (a + s)[0] == a[0];
      assert (a + s)[1..] == a[1..] + s;
      TrimStartPadded(a[1..], s);
    } else {
      assert a + s == s;
    }
  }

  lemma {:induction false} TrimEndPadded(m: string, b: string)
    requires forall k :: 0 <= k < |b| ==> IsTrimmable(b[k])
    requires m != [] ==> !IsTrimmable(m[|m| - 1])
    ensures TrimEnd(m + b) == m
  {
    if b != [] {
      var b' := b[..|b| - 1];
      assert (m + b)[|m + b| - 1] == b[|b| - 1];
      assert (m + b)[..|m + b| - 1] == m + b';
      TrimEndPadded(m, b');
    } else {
      assert m + b == m;
    }
  }

  lemma AllTrimmableTrimStart(s: string)
    requires forall k :: 0 <= k < |s| ==> IsTrimmable(s[k])
    ensures TrimStart(s) == [] && TrimEnd([]) == []
  {
  }

  /** `trim` is idempotent. */
  lemma TrimIdempotent(s: string)
    ensures Trim(Trim(s)) == Trim(s)
  {
    var m := Trim(s);
    assert [] + m + [] == m;
    TrimOfPadded([], m, []);
  }

  /** The text before the first `c` in `s` (all of `s` when there is none):
      a prefix of `s` free of `c`, followed in `s` by `c` unless it is all of `s`. */
  function PrefixBefore(s: string, c: char): (r: string)
    ensures r <= s && c !in r
    ensures |r| < |s| ==> s[|r|] == c
  {
    if s == [] || s[0] == c then [] else [s[0]] + PrefixBefore(s[1..], c)
  }

  /** `s.split(c)`: the maximal `c`-free pieces of `s`, in order; the empty
      string gives one empty piece, as in JavaScript. */
  function Split(s: string, c: char): (parts: seq<string>)
    ensures |parts| >= 1 && parts[0] == PrefixBefore(s, c)
    ensures forall k :: 0 <= k < |parts| ==> c !in parts[k]
    decreases |s|
  {
    var w := PrefixBefore(s, c);
    if |w| == |s| then [s] else [w] + Split(s[|w| + 1..], c)
  }

  /** `xs.join(sep)`: the pieces with one `sep` between neighbours. */
  function Join(xs: seq<string>, sep: char): string {
    if xs == [] then [] else if |xs| == 1 then xs[0] else xs[0] + [sep] + Join(xs[1..], sep)
  }

  /** A `c`-free string has no `c` to stop at. */
  lemma PrefixBeforeWhole(s: string, c: char)
    requires c !in s
    ensures PrefixBefore(s, c) == s
  {
  }

  /** The first `c` after a `c`-free head ends the prefix exactly there. */
  lemma {:induction false} PrefixBeforeFirst(w: string, c: char, rest: string)
    requires c !in w
    ensures PrefixBefore(w + [c] + rest, c) == w
  {
    var s := w + [c] + rest;
    if w != [] {
      assert s[0] == w[0] && w[0] in w;
      assert s[1..] == w[1..] + [c] + rest;
      PrefixBeforeFirst(w[1..], c, rest);
      assert [w[0]] + w[1..] == w;
    }
  }

  /** Joining the pieces of a split with the separator gives back the text. */
  lemma {:induction false} JoinSplit(s: string, c: char)
    ensures Join(Split(s, c), c) == s
    decreases |s|
  {
    var w := PrefixBefore(s, c);
    if |w| < |s| {
      var rest := s[|w| + 1..];
      var parts := Split(rest, c);
      assert Split(s, c) == [w] + parts;
      assert ([w] + parts)[1..] == parts;
      JoinSplit(rest, c);
      assert s == w + [c] + rest by {
        assert s[..|w|] == w;
        assert s == s[..|w|] + [s[|w|]] + s[|w| + 1..];
      }
    }
  }

  /** Splitting undoes joining, for a non-empty list of separator-free pieces. */
  lemma {:induction false} SplitJoin(xs: seq<string>, sep: char)
    requires xs != []
    requires forall k :: 0 <= k < |xs| ==> sep !in xs[k]
    ensures Split(Join(xs, sep), sep) == xs
  {
    if |xs| == 1 {
      PrefixBeforeWhole(xs[0], sep);
    } else {
      var rest := Join(xs[1..], sep);
      var s := xs[0] + [sep] + rest;
      assert Join(xs, sep) == s;
      PrefixBeforeFirst(xs[0], sep, rest);
      assert s[|xs[0]| + 1..] == rest;
      SplitJoin(xs[1..], sep);
      assert [xs[0]] + xs[1..] == xs;
    }
  }
}
