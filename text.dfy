/**
 * String operations with JavaScript semantics: `split` on one character,
 * `join`, `padStart`, number formatting, `startsWith`, `indexOf`,
 * `replace` with a string pattern, and `trim`-blankness.
 */
module Text {
  import opened Values

  /** `s.split(c)` for a one-character separator: never empty, no piece holds `c`. */
  function Split(s: string, c: char): (r: seq<string>)
    ensures |r| >= 1
    ensures forall i :: 0 <= i < |r| ==> c !in r[i]
    decreases |s|
  {
    if s == [] then [""]
    else
      var rest := Split(s[1..], c);
      if s[0] == c then [""] + rest
      else [[s[0]] + rest[0]] + rest[1..]
  }

  /** `parts.join(sep)`. */
  function Join(parts: seq<string>, sep: string): string
    decreases |parts|
  {
    if |parts| == 0 then ""
    else if |parts| == 1 then parts[0]
    else parts[0] + sep + Join(parts[1..], sep)
  }

  lemma JoinTwoOrMore(parts: seq<string>, sep: string)
    requires |parts| >= 2
    ensures Join(parts, sep) == parts[0] + sep + Join(parts[1..], sep)
  {
  }

  lemma {:induction false} JoinSnoc(t: seq<string>, x: string, sep: string)
    requires |t| >= 1
    ensures Join(t + [x], sep) == Join(t, sep) + sep + x
    decreases |t|
  {
    if |t| == 1 {
      assert (t + [x])[1..] == [x];
    } else {
      assert (t + [x])[1..] == t[1..] + [x];
      JoinSnoc(t[1..], x, sep);
    }
  }

  lemma JoinTagged(open: string, lines: seq<string>, close: string, sep: string)
    requires lines != []
    ensures Join([open] + lines + [close], sep) == open + sep + Join(lines, sep) + sep + close
  {
    var all := [open] + lines + [close];
    assert all == [open] + (lines + [close]);
    JoinCons(open, lines + [close], sep);
    JoinSnoc(lines, close, sep);
    var j := Join(lines, sep);
    assert open + sep + (j + sep + close) == open + sep + j + sep + close;
  }

  /** A block of lines between an opening and a closing line splits back into its lines. */
  lemma SplitTagged(open: string, lines: seq<string>, close: string)
    requires lines != []
    requires '\n' !in open && '\n' !in close
    requires forall i :: 0 <= i < |lines| ==> '\n' !in lines[i]
    ensures Split(open + "\n" + Join(lines, "\n") + "\n" + close, '\n') == [open] + lines + [close]
  {
    var all := [open] + lines + [close];
    JoinTagged(open, lines, close, "\n");
    NoSeparatorTagged(open, lines, close, '\n');
    SplitJoin(all, '\n');
  }

  lemma NoSeparatorTagged(open: string, lines: seq<string>, close: string, c: char)
    requires c !in open && c !in close
    requires forall i :: 0 <= i < |lines| ==> c !in lines[i]
    ensures forall i :: 0 <= i < |[open] + lines + [close]| ==> c !in ([open] + lines + [close])[i]
  {
    var all := [open] + lines + [close];
    forall i | 0 <= i < |all| ensures c !in all[i] {
      if 1 <= i < |all| - 1 {
        assert all[i] == lines[i - 1];
      }
    }
  }

  /** Separator-free pieces around one separator-free piece stay separator-free. */
  lemma NoSeparatorAround(a: seq<string>, x: string, b: seq<string>, c: char)
    requires c !in x
    requires forall i :: 0 <= i < |a| ==> c !in a[i]
    requires forall i :: 0 <= i < |b| ==> c !in b[i]
    ensures forall i :: 0 <= i < |a + [x] + b| ==> c !in (a + [x] + b)[i]
  {
    var all := a + [x] + b;
    forall i | 0 <= i < |all| ensures c !in all[i] {
      if i < |a| {
        assert all[i] == a[i];
      } else if i > |a| {
        assert all[i] == b[i - |a| - 1];
      }
    }
  }

  /** Joining the pieces of a split with the separator gives back the string. */
  lemma {:induction false} JoinSplit(s: string, c: char)
    ensures Join(Split(s, c), [c]) == s
    decreases |s|
  {
    if s != [] {
      var rest := Split(s[1..], c);
      JoinSplit(s[1..], c);
      if s[0] == c {
        assert Split(s, c) == [""] + rest;
        JoinTwoOrMore([""] + rest, [c]);
        assert ([""] + rest)[1..] == rest;
      } else if |rest| == 1 {
        assert Split(s, c) == [[s[0]] + rest[0]];
      } else {
        var r := [[s[0]] + rest[0]] + rest[1..];
        assert Split(s, c) == r;
        JoinTwoOrMore(r, [c]);
        JoinTwoOrMore(rest, [c]);
        assert r[1..] == rest[1..];
      }
    }
  }

  /** A string without the separator splits into itself alone. */
  lemma {:induction false} SplitNoSeparator(s: string, c: char)
    requires c !in s
    ensures Split(s, c) == [s]
    decreases |s|
  {
    if s != [] {
      assert c !in s[1..];
      SplitNoSeparator(s[1..], c);
      assert s == [s[0]] + s[1..];
    }
  }

  /** Splitting across one separator splits both sides independently. */
  lemma {:induction false} SplitAround(x: string, y: string, c: char)
    ensures Split(x + [c] + y, c) == Split(x, c) + Split(y, c)
    decreases |x|
  {
    if x == [] {
      assert x + [c] + y == [c] + y;
      assert ([c] + y)[1..] == y;
    } else {
      assert (x + [c] + y)[0] == x[0];
      assert (x + [c] + y)[1..] == x[1..] + [c] + y;
      SplitAround(x[1..], y, c);
    }
  }

  /** Splitting a join of separator-free pieces gives back the pieces. */
  lemma {:induction false} SplitJoin(parts: seq<string>, c: char)
    requires |parts| >= 1
    requires forall i :: 0 <= i < |parts| ==> c !in parts[i]
    ensures Split(Join(parts, [c]), c) == parts
    decreases |parts|
  {
    SplitNoSeparator(parts[0], c);
    if |parts| >= 2 {
      SplitJoin(parts[1..], c);
      SplitAround(parts[0], Join(parts[1..], [c]), c);
      assert parts == [parts[0]] + parts[1..];
    }
  }

  /**
   * Splitting a join whose pieces are separator-free except one: the
   * separator-free pieces come back as they were and the exceptional piece
   * comes back split.
   */
  lemma {:induction false} SplitJoinSpliced(a: seq<string>, x: string, b: seq<string>, c: char)
    requires forall i :: 0 <= i < |a| ==> c !in a[i]
    requires forall i :: 0 <= i < |b| ==> c !in b[i]
    ensures Split(Join(a + [x] + b, [c]), c) == a + Split(x, c) + b
    decreases |a|
  {
    if a == [] {
      assert a + [x] + b == [x] + b;
      SplitJoinHead(x, b, c);
    } else {
      var tail := a[1..] + [x] + b;
      var j := Join(tail, [c]);
      assert a + [x] + b == [a[0]] + tail;
      calc {
        Split(Join(a + [x] + b, [c]), c);
      == { JoinCons(a[0], tail, [c]); }
        Split(a[0] + [c] + j, c);
      == { SplitAround(a[0], j, c); }
        Split(a[0], c) + Split(j, c);
      == { SplitNoSeparator(a[0], c); SplitJoinSpliced(a[1..], x, b, c); }
        [a[0]] + (a[1..] + Split(x, c) + b);
      == { assert a == [a[0]] + a[1..]; }
        a + Split(x, c) + b;
      }
    }
  }

  lemma JoinCons(h: string, t: seq<string>, sep: string)
    requires |t| >= 1
    ensures Join([h] + t, sep) == h + sep + Join(t, sep)
  {
    assert ([h] + t)[1..] == t;
  }

  lemma SplitJoinHead(x: string, b: seq<string>, c: char)
    requires forall i :: 0 <= i < |b| ==> c !in b[i]
    ensures Split(Join([x] + b, [c]), c) == Split(x, c) + b
  {
    if b == [] {
      assert [x] + b == [x];
    } else {
      JoinCons(x, b, [c]);
      SplitAround(x, Join(b, [c]), c);
      SplitJoin(b, c);
    }
  }

  /** A string of `n` spaces. */
  function Spaces(n: nat): (r: string)
    ensures |r| == n
    ensures forall i :: 0 <= i < n ==> r[i] == ' '
  {
    seq(n, _ => ' ')
  }

  /** `s.padStart(width, ' ')`: left-pad with spaces; a longer string is kept whole. */
  function PadStart(s: string, width: nat): (r: string)
    ensures |r| == if |s| >= width then |s| else width
    ensures r[|r| - |s|..] == s
    ensures forall i :: 0 <= i < |r| - |s| ==> r[i] == ' '
  {
    if |s| >= width then s else Spaces(width - |s|) + s
  }

  function DigitChar(d: nat): (ch: char)
    requires d < 10
    ensures '0' <= ch <= '9'
  {
    "0123456789"[d]
  }

  /** `n.toString()` for a natural number: decimal digits, most significant first. */
  function NatToString(n: nat): (r: string)
    ensures |r| >= 1
    ensures forall i :: 0 <= i < |r| ==> '0' <= r[i] <= '9'
    decreases n
  {
    if n < 10 then [DigitChar(n)] else NatToString(n / 10) + [DigitChar(n % 10)]
  }

  /** `String(i)` for an integer: a minus sign before the digits of a negative number. */
  function IntToString(i: int): (r: string)
    ensures |r| >= 1
    ensures i >= 0 ==> r == NatToString(i)
    ensures i < 0 ==> r[0] == '-' && r[1..] == NatToString(-i)
  {
    if i >= 0 then NatToString(i) else "-" + NatToString(-i)
  }

  function Pow10(k: nat): (p: nat)
    ensures p >= 1
  {
    if k == 0 then 1 else 10 * Pow10(k - 1)
  }

  /** A number below 10^k has at most k digits. */
  lemma {:induction false} NatToStringLength(n: nat, k: nat)
    requires 1 <= k && n < Pow10(k)
    ensures |NatToString(n)| <= k
    decreases k
  {
    if n >= 10 {
      assert Pow10(1) == 10;
      assert n / 10 < Pow10(k - 1);
      NatToStringLength(n / 10, k - 1);
    }
  }

  /** `s.startsWith(p)`. */
  predicate StartsWith(s: string, p: string) {
    |p| <= |s| && s[..|p|] == p
  }

  lemma StartsWithAppend(a: string, b: string)
    ensures StartsWith(a + b, a)
  {
    assert (a + b)[..|a|] == a;
  }

  lemma StartsWithTransitive(s: string, p: string, q: string)
    requires StartsWith(s, p) && StartsWith(p, q)
    ensures StartsWith(s, q)
  {
    assert s[..|q|] == s[..|p|][..|q|];
  }

  /** `pat` occurs in `s` at index `j`. */
  predicate OccursAt(s: string, pat: string, j: int) {
    0 <= j && j + |pat| <= |s| && s[j..j + |pat|] == pat
  }

  /** `s.indexOf(pat, from)`, as an option. */
  function IndexOfFrom(s: string, pat: string, from: nat): (r: Option<nat>)
    ensures r.Some? ==> from <= r.value && OccursAt(s, pat, r.value)
    ensures r.Some? ==> forall j :: from <= j < r.value ==> !OccursAt(s, pat, j)
    ensures r.None? ==> forall j :: from <= j ==> !OccursAt(s, pat, j)
    decreases |s| - from
  {
    if from + |pat| > |s| then None
    else if s[from..from + |pat|] == pat then Some(from)
    else IndexOfFrom(s, pat, from + 1)
  }

  /** `s.indexOf(pat)`, as an option. */
  function IndexOf(s: string, pat: string): Option<nat> {
    IndexOfFrom(s, pat, 0)
  }

  /** `s.includes(pat)`. */
  predicate Contains(s: string, pat: string) {
    IndexOf(s, pat).Some?
  }

  /** The last occurrence of `pat` at or below index `k`. */
  function LastIndexAtMost(s: string, pat: string, k: int): (r: Option<nat>)
    ensures r.Some? ==> r.value <= k && OccursAt(s, pat, r.value)
    ensures r.Some? ==> forall j :: r.value < j <= k ==> !OccursAt(s, pat, j)
    ensures r.None? ==> forall j :: j <= k ==> !OccursAt(s, pat, j)
    decreases k + 1
  {
    if k < 0 then None
    else if OccursAt(s, pat, k) then Some(k)
    else LastIndexAtMost(s, pat, k - 1)
  }

  /** `s.lastIndexOf(pat)`, as an option. */
  function LastIndexOf(s: string, pat: string): (r: Option<nat>)
    ensures r.Some? ==> OccursAt(s, pat, r.value)
    ensures r.Some? ==> forall j :: r.value < j ==> !OccursAt(s, pat, j)
    ensures r.None? ==> forall j :: !OccursAt(s, pat, j)
  {
    LastIndexAtMost(s, pat, |s|)
  }

  /** `s.replace(pat, rep)` with a string pattern: only the first occurrence is replaced. */
  function ReplaceFirst(s: string, pat: string, rep: string): (r: string)
    ensures IndexOf(s, pat).None? ==> r == s
    ensures IndexOf(s, pat).Some? ==>
      var i := IndexOf(s, pat).value;
      r == s[..i] + rep + s[i + |pat|..]
  {
    match IndexOf(s, pat)
    case None => s
    case Some(i) => s[..i] + rep + s[i + |pat|..]
  }

  /** `s.replace(/pat/g, rep)` for a literal, non-empty `pat`: every occurrence, left to right. */
  function ReplaceAll(s: string, pat: string, rep: string): (r: string)
    requires pat != []
    ensures IndexOf(s, pat).None? ==> r == s
    decreases |s|
  {
    match IndexOf(s, pat)
    case None => s
    case Some(i) => s[..i] + rep + ReplaceAll(s[i + |pat|..], pat, rep)
  }

  /** The characters JavaScript's `\s` and `trim` treat as white space. */
  predicate IsSpace(ch: char) {
    ch == ' ' || ch == '\t' || ch == '\n' || ch == '\r' || ch == '\U{000B}' || ch == '\U{000C}'
    || ch == '\U{00A0}' || ch == '\U{1680}' || ('\U{2000}' <= ch <= '\U{200A}')
    || ch == '\U{2028}' || ch == '\U{2029}' || ch == '\U{202F}' || ch == '\U{205F}'
    || ch == '\U{3000}' || ch == '\U{FEFF}'
  }

  /** `s.trim() === ''`. */
  predicate IsBlank(s: string) {
    forall i :: 0 <= i < |s| ==> IsSpace(s[i])
  }

  /** White space in front of a non-space character is exactly what `LeadingSpaces` counts. */
  lemma {:induction false} LeadingSpacesOfBlankPrefix(w: string, rest: string)
    requires IsBlank(w) && rest != [] && !IsSpace(rest[0])
    ensures LeadingSpaces(w + rest) == |w|
    decreases |w|
  {
    if w == [] {
      assert w + rest == rest;
    } else {
      assert (w + rest)[0] == w[0];
      assert (w + rest)[1..] == w[1..] + rest;
      LeadingSpacesOfBlankPrefix(w[1..], rest);
    }
  }

  /** White space after a non-space character is exactly what `TrailingSpaces` counts. */
  lemma {:induction false} TrailingSpacesOfBlankSuffix(rest: string, w: string)
    requires IsBlank(w) && rest != [] && !IsSpace(rest[|rest| - 1])
    ensures TrailingSpaces(rest + w) == |w|
    decreases |w|
  {
    if w == [] {
      assert rest + w == rest;
    } else {
      var s := rest + w;
      assert s[|s| - 1] == w[|w| - 1];
      assert s[..|s| - 1] == rest + w[..|w| - 1];
      TrailingSpacesOfBlankSuffix(rest, w[..|w| - 1]);
    }
  }

  /** The number of white-space characters at the start of `s`. */
  function LeadingSpaces(s: string): (k: nat)
    ensures k <= |s|
    ensures forall i :: 0 <= i < k ==> IsSpace(s[i])
    ensures k < |s| ==> !IsSpace(s[k])
  {
    if s != [] && IsSpace(s[0]) then 1 + LeadingSpaces(s[1..]) else 0
  }

  /** The number of white-space characters at the end of `s`. */
  function TrailingSpaces(s: string): (k: nat)
    ensures k <= |s|
    ensures forall i :: |s| - k <= i < |s| ==> IsSpace(s[i])
    ensures k < |s| ==> !IsSpace(s[|s| - k - 1])
  {
    if s != [] && IsSpace(s[|s| - 1]) then 1 + TrailingSpaces(s[..|s| - 1]) else 0
  }
}
