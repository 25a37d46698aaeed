/**
 * The few string operations the JavaScript code relies on, written out:
 * `includes`, `indexOf`, `join`, `split` (on one character), `toLowerCase`
 * and the rendering of integers inside template literals.
 */
module Text {
  import opened Wrappers

  /** `t` occurs in `s` starting at index `i`. */
  predicate OccursAt(s: string, t: string, i: int) {
    0 <= i && i + |t| <= |s| && s[i..i + |t|] == t
  }

  /** `s.indexOf(t, from)`: the first index at or after `from` where `t` occurs. */
  function IndexOf(s: string, t: string, from: nat): (r: Option<nat>)
    ensures r.Some? ==> from <= r.value && OccursAt(s, t, r.value)
    ensures forall j :: from <= j && (r.None? || j < r.value) ==> !OccursAt(s, t, j)
    decreases |s| - from
  {
    if from + |t| > |s| then None
    else if s[from..from + |t|] == t then Some(from)
    else IndexOf(s, t, from + 1)
  }

  /** `s.includes(t)`. */
  predicate Contains(s: string, t: string) {
    exists i | 0 <= i <= |s| :: OccursAt(s, t, i)
  }

  /** The search with `IndexOf` finds an occurrence exactly when there is one. */
  lemma IndexOfFinds(s: string, t: string)
    ensures IndexOf(s, t, 0).Some? <==> Contains(s, t)
  {
    var r := IndexOf(s, t, 0);
    if r.Some? {
      assert OccursAt(s, t, r.value);
    }
  }

  /** A string holding a character that `s` lacks does not occur in `s`. */
  lemma MissingCharMissing(s: string, t: string, k: nat)
    requires k < |t| && t[k] !in s
    ensures !Contains(s, t)
  {
  }

  /** A part of a concatenation occurs in it. */
  lemma ContainsMiddle(a: string, b: string, c: string)
    ensures Contains(a + b + c, b)
  {
    assert (a + b + c)[|a|..|a| + |b|] == b;
    assert OccursAt(a + b + c, b, |a|);
    assert 0 <= |a| <= |a + b + c|;
  }

  /** `xs.join(sep)`. */
  function Join(xs: seq<string>, sep: string): string
    decreases |xs|
  {
    if |xs| == 0 then ""
    else if |xs| == 1 then xs[0]
    else xs[0] + sep + Join(xs[1..], sep)
  }

  /** With a non-empty separator, a join is empty exactly when there is no part or one empty part. */
  lemma JoinEmpty(xs: seq<string>, sep: string)
    requires sep != ""
    ensures Join(xs, sep) == "" <==> |xs| == 0 || (|xs| == 1 && xs[0] == "")
  {
    if |xs| >= 2 {
      assert |Join(xs, sep)| >= |sep|;
    }
  }

  /** `Concat` of three pieces. */
  lemma ConcatTriple(x: string, y: string, z: string)
    ensures Concat([x, y, z]) == x + y + z
  {
    assert [x, y, z][1..] == [y, z];
    ConcatPair(y, z);
    AppendAssoc(x, y, z);
  }

  /** A run of two pieces concatenates to the two pieces. */
  lemma ConcatSlicePair(xs: seq<string>, i: nat)
    requires i + 2 <= |xs|
    ensures Concat(xs[i..i + 2]) == xs[i] + xs[i + 1]
  {
    assert xs[i..i + 2] == [xs[i], xs[i + 1]];
    ConcatPair(xs[i], xs[i + 1]);
  }

  /** A run of three pieces concatenates to the three pieces. */
  lemma ConcatSliceTriple(xs: seq<string>, i: nat)
    requires i + 3 <= |xs|
    ensures Concat(xs[i..i + 3]) == xs[i] + xs[i + 1] + xs[i + 2]
  {
    assert xs[i..i + 3] == [xs[i], xs[i + 1], xs[i + 2]];
    ConcatTriple(xs[i], xs[i + 1], xs[i + 2]);
  }

  /** An occurrence inside a slice is an occurrence in the whole text, shifted by the slice's start. */
  lemma OccursInSlice(s: string, t: string, lo: nat, hi: nat, i: nat)
    requires lo <= hi <= |s| && i + |t| <= hi - lo
    ensures OccursAt(s[lo..hi], t, i) <==> OccursAt(s, t, lo + i)
  {
    var u := s[lo..hi];
    assert forall k | i <= k < i + |t| :: u[k] == s[lo + k];
    assert u[i..i + |t|] == s[lo + i..lo + i + |t|];
  }

  /** An occurrence inside an occurrence is an occurrence. */
  lemma ContainsTransitive(a: string, b: string, c: string)
    requires Contains(a, b) && Contains(b, c)
    ensures Contains(a, c)
  {
    var i :| 0 <= i <= |a| && OccursAt(a, b, i);
    var j :| 0 <= j <= |b| && OccursAt(b, c, j);
    forall k | 0 <= k < |c|
      ensures a[i + j + k] == c[k]
    {
      assert b[j + k] == c[k];
      assert a[i..i + |b|][j + k] == b[j + k];
    }
    assert a[i + j..i + j + |c|] == c;
    assert OccursAt(a, c, i + j);
  }

  /** The concatenation of a list of text pieces. */
  function Concat(xs: seq<string>): string
    decreases |xs|
  {
    if |xs| == 0 then "" else xs[0] + Concat(xs[1..])
  }

  lemma ConcatPair(x: string, y: string)
    ensures Concat([x, y]) == x + y
  {
    assert [x, y][1..] == [y];
    assert [y][1..] == [];
    assert Concat([y]) == y + Concat([]);
    assert y + "" == y;
  }

  lemma {:induction false} ConcatAppend(xs: seq<string>, ys: seq<string>)
    ensures Concat(xs + ys) == Concat(xs) + Concat(ys)
    decreases |xs|
  {
    if |xs| > 0 {
      assert (xs + ys)[1..] == xs[1..] + ys;
      ConcatAppend(xs[1..], ys);
    } else {
      assert xs + ys == ys;
    }
  }

  /** A run of consecutive pieces occurs in the concatenation of all of them. */
  lemma ContainsPieces(xs: seq<string>, i: nat, j: nat)
    requires i <= j <= |xs|
    ensures Contains(Concat(xs), Concat(xs[i..j]))
  {
    var front, middle, back := xs[..i], xs[i..j], xs[j..];
    assert xs[..j] == front + middle;
    assert xs == xs[..j] + back;
    ConcatAppend(xs[..j], back);
    ConcatAppend(front, middle);
    ContainsMiddle(Concat(front), Concat(middle), Concat(back));
  }

  /** Each part occurs in the join. */
  lemma {:induction false} JoinContainsPart(xs: seq<string>, sep: string, i: nat)
    requires i < |xs|
    ensures Contains(Join(xs, sep), xs[i])
    decreases |xs|
  {
    if |xs| == 1 {
      ContainsMiddle([], xs[0], []);
      assert [] + xs[0] + [] == xs[0];
    } else if i == 0 {
      ContainsMiddle([], xs[0], sep + Join(xs[1..], sep));
      assert [] + xs[0] + (sep + Join(xs[1..], sep)) == Join(xs, sep);
    } else {
      JoinContainsPart(xs[1..], sep, i - 1);
      ContainsMiddle(xs[0] + sep, Join(xs[1..], sep), []);
      assert xs[0] + sep + Join(xs[1..], sep) + [] == Join(xs, sep);
      ContainsTransitive(Join(xs, sep), Join(xs[1..], sep), xs[i]);
    }
  }

  /** Joining never introduces a character that neither the parts nor the separator hold. */
  lemma {:induction false} JoinAvoids(xs: seq<string>, sep: string, c: char)
    requires c !in sep
    requires forall i :: 0 <= i < |xs| ==> c !in xs[i]
    ensures c !in Join(xs, sep)
    decreases |xs|
  {
    if |xs| > 1 {
      JoinAvoids(xs[1..], sep, c);
      assert Join(xs, sep) == xs[0] + sep + Join(xs[1..], sep);
    }
  }

  /** The index of the first `c` in `s`. */
  function FirstIndex(s: string, c: char): (i: nat)
    requires c in s
    ensures i < |s| && s[i] == c && c !in s[..i]
  {
    if s[0] == c then 0
    else
      var k := FirstIndex(s[1..], c);
      assert s[..k + 1] == [s[0]] + s[1..][..k];
      k + 1
  }

  /** The first `c` is at the one index `k` holding `c` with no `c` before it. */
  lemma FirstIndexAt(s: string, c: char, k: nat)
    requires k < |s| && s[k] == c && c !in s[..k]
    ensures FirstIndex(s, c) == k
  {
    var i := FirstIndex(s, c);
    assert forall j | 0 <= j < k :: s[..k][j] == s[j];
    assert forall j | 0 <= j < i :: s[..i][j] == s[j];
  }

  /** `s.split(c)` for a one-character separator; like JavaScript, `"".split(c)` is `[""]`. */
  function Split(s: string, c: char): (r: seq<string>)
    ensures |r| >= 1
    decreases |s|
  {
    if c !in s then [s]
    else
      var i := FirstIndex(s, c);
      [s[..i]] + Split(s[i + 1..], c)
  }

  lemma AppendAssoc<T>(x: seq<T>, y: seq<T>, z: seq<T>)
    ensures x + (y + z) == (x + y) + z
  {
  }

  /** The first piece of a split ends at the first separator. */
  lemma SplitAt(s: string, c: char, k: nat)
    requires k < |s| && s[k] == c && c !in s[..k]
    ensures Split(s, c) == [s[..k]] + Split(s[k + 1..], c)
  {
    FirstIndexAt(s, c, k);
  }

  /** Splitting distributes over a concatenation that has a separator at the seam. */
  lemma {:induction false} SplitAround(a: string, b: string, c: char)
    ensures Split(a + [c] + b, c) == Split(a, c) + Split(b, c)
    decreases |a|
  {
    var s := a + [c] + b;
    if c !in a {
      assert s[..|a|] == a;
      SplitAt(s, c, |a|);
      assert s[|a| + 1..] == b;
    } else {
      var i := FirstIndex(a, c);
      var rest := a[i + 1..];
      assert s[..i] == a[..i];
      SplitAt(s, c, i);
      assert s[i + 1..] == rest + [c] + b;
      SplitAround(rest, b, c);
      SplitAt(a, c, i);
      calc {
        Split(s, c);
        [a[..i]] + Split(rest + [c] + b, c);
        [a[..i]] + (Split(rest, c) + Split(b, c));
        { AppendAssoc([a[..i]], Split(rest, c), Split(b, c)); }
        ([a[..i]] + Split(rest, c)) + Split(b, c);
        Split(a, c) + Split(b, c);
      }
    }
  }

  /** A leading separator splits off an empty first piece. */
  lemma SplitLeading(b: string, c: char)
    ensures Split([c] + b, c) == [""] + Split(b, c)
  {
    var s := [c] + b;
    assert s[..0] == "";
    SplitAt(s, c, 0);
    assert s[1..] == b;
  }

  /** A separator next to an empty piece splits off an empty line. */
  lemma SplitDouble(a: string, b: string, c: char)
    ensures Split(a + [c, c] + b, c) == Split(a, c) + [""] + Split(b, c)
  {
    assert [c] + [c] == [c, c];
    AppendAssoc(a, [c], [c]);
    AppendAssoc(a + [c], [c], b);
    SplitAround(a, [c] + b, c);
    SplitLeading(b, c);
    AppendAssoc(Split(a, c), [""], Split(b, c));
  }

  /** Splitting a join on the same character gives the parts back when no part holds that character. */
  lemma {:induction false} SplitJoin(xs: seq<string>, c: char)
    requires |xs| >= 1
    requires forall i :: 0 <= i < |xs| ==> c !in xs[i]
    ensures Split(Join(xs, [c]), c) == xs
    decreases |xs|
  {
    if |xs| > 1 {
      SplitAround(xs[0], Join(xs[1..], [c]), c);
      SplitJoin(xs[1..], c);
      assert Join(xs, [c]) == xs[0] + [c] + Join(xs[1..], [c]);
      assert xs == [xs[0]] + xs[1..];
    }
  }

  /** Each group of parts joined with the same separator. */
  function JoinEach(groups: seq<seq<string>>, sep: string): (r: seq<string>)
    ensures |r| == |groups|
    ensures forall i :: 0 <= i < |groups| ==> r[i] == Join(groups[i], sep)
    decreases |groups|
  {
    if |groups| == 0 then [] else [Join(groups[0], sep)] + JoinEach(groups[1..], sep)
  }

  /** Groups of lines with one empty line between consecutive groups. */
  function BlankSeparated(groups: seq<seq<string>>): seq<string>
    decreases |groups|
  {
    if |groups| == 0 then []
    else if |groups| == 1 then groups[0]
    else groups[0] + [""] + BlankSeparated(groups[1..])
  }

  /**
   * Splitting groups of lines, each joined by `c` and then joined to each
   * other by `c` twice, gives the lines back with an empty line between groups.
   */
  lemma {:induction false} SplitJoinJoin(groups: seq<seq<string>>, c: char)
    requires |groups| >= 1
    requires forall i :: 0 <= i < |groups| ==> |groups[i]| >= 1
    requires forall i, j :: 0 <= i < |groups| && 0 <= j < |groups[i]| ==> c !in groups[i][j]
    ensures Split(Join(JoinEach(groups, [c]), [c, c]), c) == BlankSeparated(groups)
    decreases |groups|
  {
    var xs := JoinEach(groups, [c]);
    SplitJoin(groups[0], c);
    if |groups| > 1 {
      var rest := Join(xs[1..], [c, c]);
      assert xs[1..] == JoinEach(groups[1..], [c]);
      assert Join(xs, [c, c]) == xs[0] + [c, c] + rest;
      SplitDouble(xs[0], rest, c);
      SplitJoinJoin(groups[1..], c);
      assert BlankSeparated(groups) == groups[0] + [""] + BlankSeparated(groups[1..]);
    } else {
      assert Join(xs, [c, c]) == xs[0];
      assert BlankSeparated(groups) == groups[0];
    }
  }

  /**
   * `toLowerCase` on one character: ASCII and Latin-1 capitals (so that `É`
   * becomes `é`), and the four capitals outside Latin-1 whose lower case is a
   * single ASCII or Latin-1 letter: the Kelvin sign, the Angstrom sign, `Ÿ`
   * and the capital sharp s.
   */
  function LowerChar(c: char): (r: char)
    ensures 'A' <= c <= 'Z' ==> r as int == c as int + 32
    ensures c == '\U{212A}' ==> r == 'k'
    ensures !('A' <= c <= 'Z') && !('À' <= c <= 'Þ') && c !in OtherCapitals ==> r == c
    ensures !('A' <= r <= 'Z') && r !in OtherCapitals
  {
    if 'A' <= c <= 'Z' then (c as int + 32) as char
    else if 'À' <= c <= 'Þ' && c != '×' then (c as int + 32) as char
    else if c == '\U{212A}' then 'k'
    else if c == '\U{212B}' then 'å'
    else if c == '\U{0178}' then 'ÿ'
    else if c == '\U{1E9E}' then 'ß'
    else c
  }

  /** The Kelvin sign, the Angstrom sign, `Ÿ` and the capital sharp s. */
  const OtherCapitals: set<char> := {'\U{212A}', '\U{212B}', '\U{0178}', '\U{1E9E}'}

  /** `s.toLowerCase()` restricted to the characters `LowerChar` knows. */
  function ToLower(s: string): (r: string)
    ensures |r| == |s|
    ensures forall i :: 0 <= i < |s| ==> r[i] == LowerChar(s[i])
  {
    seq(|s|, i requires 0 <= i < |s| => LowerChar(s[i]))
  }

  /** Lower-casing twice is lower-casing once. */
  lemma ToLowerIdempotent(s: string)
    ensures ToLower(ToLower(s)) == ToLower(s)
  {
    forall i | 0 <= i < |s|
      ensures LowerChar(LowerChar(s[i])) == LowerChar(s[i])
    {
      var c := s[i];
      if 'À' <= c <= 'Þ' && c != '×' {
        assert 'à' <= LowerChar(c) <= 'þ';
      }
    }
  }

  predicate IsDigit(c: char) {
    '0' <= c <= '9'
  }

  function DigitChar(d: nat): (c: char)
    requires d < 10
    ensures IsDigit(c) && c as int - '0' as int == d
  {
    ('0' as int + d) as char
  }

  /** The decimal rendering of a natural number, as a template literal writes it. */
  function NatToString(n: nat): (r: string)
    ensures |r| >= 1
    ensures forall i :: 0 <= i < |r| ==> IsDigit(r[i])
    ensures r[0] == '0' ==> n == 0
    decreases n
  {
    if n < 10 then [DigitChar(n)]
    else NatToString(n / 10) + [DigitChar(n % 10)]
  }

  /** Reads a string of decimal digits back as a number. */
  function ParseDigits(s: string): int
    requires forall i :: 0 <= i < |s| ==> IsDigit(s[i])
    decreases |s|
  {
    if |s| == 0 then 0
    else ParseDigits(s[..|s| - 1]) * 10 + (s[|s| - 1] as int - '0' as int)
  }

  /** Rendering a natural number and reading it back gives the number. */
  lemma {:induction false} NatToStringRoundTrip(n: nat)
    ensures ParseDigits(NatToString(n)) == n
    decreases n
  {
    if n >= 10 {
      NatToStringRoundTrip(n / 10);
      var s := NatToString(n);
      assert s[..|s| - 1] == NatToString(n / 10);
    }
  }

  /** `${i}` for an integer `i`. */
  function IntToString(i: int): (r: string)
    ensures |r| >= 1 && (i < 0 <==> r[0] == '-')
    ensures forall k :: 1 <= k < |r| ==> IsDigit(r[k])
  {
    if i < 0 then "-" + NatToString(-i) else NatToString(i)
  }

  /** Reads back a rendered integer. */
  function ParseInt(s: string): int
    requires |s| >= 1
    requires forall k :: 1 <= k < |s| ==> IsDigit(s[k])
    requires s[0] == '-' || IsDigit(s[0])
  {
    if s[0] == '-' then -ParseDigits(s[1..]) else ParseDigits(s)
  }

  /** Rendering an integer and reading it back gives the integer. */
  lemma IntToStringRoundTrip(i: int)
    ensures ParseInt(IntToString(i)) == i
  {
    if i < 0 {
      NatToStringRoundTrip(-i);
      assert IntToString(i)[1..] == NatToString(-i);
    } else {
      NatToStringRoundTrip(i);
    }
  }

  /** A rendered integer has no line break. */
  lemma IntToStringSingleLine(i: int)
    ensures '\n' !in IntToString(i)
  {
    var r := IntToString(i);
    assert forall k | 0 <= k < |r| :: r[k] != '\n';
  }
}
