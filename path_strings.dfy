/** The string primitives the VFIO driver relies on: splitting on a
    separator (Go's `strings.Split` and `strings.SplitN(s, sep, 2)`), path
    join and base name on clean slash-free names, and decimal formatting
    of bus indices (`%d`). */
module PathStrings {

  /** Number of occurrences of `c` in `s`. */
  function Occurrences(s: string, c: char): nat
  {
    if s == [] then 0 else (if s[0] == c then 1 else 0) + Occurrences(s[1..], c)
  }

  /** The maximal `c`-free pieces of `s`, in order, as `strings.Split`
      returns them: the empty string splits into one empty token. */
  function Split(s: string, c: char): (tokens: seq<string>)
    ensures |tokens| >= 1
  {
    if s == [] then [""]
    else
      var rest := Split(s[1..], c);
      if s[0] == c then [""] + rest
      else [[s[0]] + rest[0]] + rest[1..]
  }

  /** The inverse of `Split`: the tokens glued back with `c` between them. */
  function JoinWith(tokens: seq<string>, c: char): string
    requires |tokens| >= 1
  {
    if |tokens| == 1 then tokens[0] else tokens[0] + [c] + JoinWith(tokens[1..], c)
  }

  lemma {:induction false} SplitTokensFree(s: string, c: char)
    ensures forall k :: 0 <= k < |Split(s, c)| ==> c !in Split(s, c)[k]
  {
    if s != [] {
      SplitTokensFree(s[1..], c);
    }
  }

  lemma {:induction false} SplitLength(s: string, c: char)
    ensures |Split(s, c)| == Occurrences(s, c) + 1
  {
    if s != [] {
      SplitLength(s[1..], c);
    }
  }

  /** Gluing the tokens back gives the original string. */
  lemma {:induction false} JoinSplit(s: string, c: char)
    ensures JoinWith(Split(s, c), c) == s
  {
    if s != [] {
      var rest := Split(s[1..], c);
      JoinSplit(s[1..], c);
      if s[0] != c && |rest| > 1 {
        assert JoinWith(rest, c) == rest[0] + [c] + JoinWith(rest[1..], c);
        assert rest[1..][1..] == rest[2..];
      }
    }
  }

  /** A string without `c` is a single token. */
  lemma {:induction false} SplitFree(t: string, c: char)
    requires c !in t
    ensures Split(t, c) == [t]
  {
    if t != [] {
      assert c !in t[1..];
      SplitFree(t[1..], c);
      assert [t[0]] + t[1..] == t;
    }
  }

  /** Splitting distributes over a separator occurrence. */
  lemma {:induction false} SplitConcat(x: string, y: string, c: char)
    ensures Split(x + [c] + y, c) == Split(x, c) + Split(y, c)
  {
    if x == [] {
      assert x + [c] + y == [c] + y;
      assert ([c] + y)[1..] == y;
    } else {
      assert (x + [c] + y)[1..] == x[1..] + [c] + y;
      SplitConcat(x[1..], y, c);
    }
  }

  /** The other round trip: `c`-free tokens are recovered from their join. */
  lemma {:induction false} SplitJoin(tokens: seq<string>, c: char)
    requires |tokens| >= 1
    requires forall k :: 0 <= k < |tokens| ==> c !in tokens[k]
    ensures Split(JoinWith(tokens, c), c) == tokens
  {
    if |tokens| == 1 {
      SplitFree(tokens[0], c);
    } else {
      SplitJoin(tokens[1..], c);
      SplitConcat(tokens[0], JoinWith(tokens[1..], c), c);
      SplitFree(tokens[0], c);
    }
  }

  /** `filepath.Join(dir, name)` for a clean directory and a slash-free name. */
  function PathJoin(dir: string, name: string): string
  {
    dir + "/" + name
  }

  /** `filepath.Base(p)`: the last `/`-separated segment of `p`. */
  function Base(p: string): (b: string)
    ensures '/' !in b
  {
    var tokens := Split(p, '/');
    SplitTokensFree(p, '/');
    tokens[|tokens| - 1]
  }

  lemma BaseOfJoin(dir: string, name: string)
    requires '/' !in name
    ensures Base(PathJoin(dir, name)) == name
  {
    assert PathJoin(dir, name) == dir + ['/'] + name;
    SplitConcat(dir, name, '/');
    SplitFree(name, '/');
  }

  /** Index of the first `c` in `s`. */
  function FirstIndex(s: string, c: char): (i: nat)
    requires c in s
    ensures i < |s| && s[i] == c && c !in s[..i]
  {
    if s[0] == c then 0
    else
      assert c in s[1..] by { var j :| 0 <= j < |s| && s[j] == c; assert s[1..][j - 1] == c; }
      var i := 1 + FirstIndex(s[1..], c);
      assert s[..i] == [s[0]] + s[1..][..i - 1];
      i
  }

  /** `strings.SplitN(s, sep, 2)`: `s` alone when it has no `c`, otherwise
      the text before the first `c` and everything after it. */
  function SplitOnce(s: string, c: char): (tokens: seq<string>)
    ensures |tokens| == 1 || |tokens| == 2
  {
    if c !in s then [s]
    else
      var i := FirstIndex(s, c);
      [s[..i], s[i + 1..]]
  }

  lemma SplitOnceAt(d: string, r: string, c: char)
    requires c !in d
    ensures SplitOnce(d + [c] + r, c) == [d, r]
  {
    var s := d + [c] + r;
    assert s[|d|] == c;
    var i := FirstIndex(s, c);
    assert s[..i] == d;
    assert s[i + 1..] == r;
  }

  // ----- decimal formatting of bus indices -----

  predicate IsDigit(ch: char)
  {
    '0' as int <= ch as int <= '9' as int
  }

  function DigitChar(d: nat): (ch: char)
    requires d < 10
    ensures IsDigit(ch)
  {
    ('0' as int + d) as char
  }

  /** `fmt.Sprintf("%d", n)` for a non-negative `n`. */
  function Decimal(n: nat): (s: string)
    ensures |s| >= 1
    ensures forall k :: 0 <= k < |s| ==> IsDigit(s[k])
  {
    if n < 10 then [DigitChar(n)] else Decimal(n / 10) + [DigitChar(n % 10)]
  }

  /** Reads a string of decimal digits back as a number. */
  function ParseDecimal(s: string): nat
    requires forall k :: 0 <= k < |s| ==> IsDigit(s[k])
  {
    if s == [] then 0
    else
      assert IsDigit(s[|s| - 1]);
      ParseDecimal(s[..|s| - 1]) * 10 + (s[|s| - 1] as int - '0' as int)
  }

  lemma {:induction false} ParseDecimalOfDecimal(n: nat)
    ensures ParseDecimal(Decimal(n)) == n
  {
    if n >= 10 {
      var s := Decimal(n);
      assert s[..|s| - 1] == Decimal(n / 10);
      ParseDecimalOfDecimal(n / 10);
    }
  }

  /** Distinct numbers have distinct decimal forms. */
  lemma DecimalInjective(a: nat, b: nat)
    requires Decimal(a) == Decimal(b)
    ensures a == b
  {
    ParseDecimalOfDecimal(a);
    ParseDecimalOfDecimal(b);
  }

  /** Two labels with the same prefix are equal only if their suffixes are. */
  lemma PrefixCancel(p: string, x: string, y: string)
    requires p + x == p + y
    ensures x == y
  {
    assert x == (p + x)[|p|..];
    assert y == (p + y)[|p|..];
  }
}
