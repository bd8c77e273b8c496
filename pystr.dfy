/** The Python `str` built-ins the pipeline relies on, with the semantics of
    CPython 3: whitespace is `str.isspace()`, `split(sep)` / `replace` scan left
    to right without overlap, `splitlines()` breaks on every line boundary
    Python recognises, and slices clamp out-of-range and negative bounds. */
module PyStr {

  /** `c.isspace()`: the characters `str.strip()` and `str.split()` remove. */
  predicate IsSpace(c: char) {
    ('\U{0009}' <= c <= '\U{000D}') || ('\U{001C}' <= c <= '\U{0020}')
    || c == '\U{0085}' || c == '\U{00A0}' || c == '\U{1680}'
    || ('\U{2000}' <= c <= '\U{200A}') || c == '\U{2028}' || c == '\U{2029}'
    || c == '\U{202F}' || c == '\U{205F}' || c == '\U{3000}'
  }

  /** Every character is whitespace, that is `not s.strip()`. */
  predicate AllSpace(s: string) {
    forall i :: 0 <= i < |s| ==> IsSpace(s[i])
  }

  /** `s.lstrip()` */
  function LStrip(s: string): (r: string)
    ensures |r| <= |s| && r == s[|s| - |r|..]
    ensures r == [] || !IsSpace(r[0])
  {
    if s != [] && IsSpace(s[0]) then LStrip(s[1..]) else s
  }

  /** What `lstrip` removes is whitespace. */
  lemma {:induction false} LStripDropsSpace(s: string)
    ensures AllSpace(s[..|s| - |LStrip(s)|])
    decreases |s|
  {
    if s != [] && IsSpace(s[0]) {
      LStripDropsSpace(s[1..]);
      var d := |s| - |LStrip(s)|;
      assert forall i :: 1 <= i < d ==> s[..d][i] == s[1..][..d - 1][i - 1];
    }
  }

  /** `lstrip` stops at the first character that is not whitespace. */
  lemma {:induction false} LStripStopsAt(s: string, k: nat)
    requires k < |s| && !IsSpace(s[k])
    ensures |s| - |LStrip(s)| <= k
    decreases k
  {
    if IsSpace(s[0]) {
      LStripStopsAt(s[1..], k - 1);
    }
  }

  /** Everything from a character that is not whitespace on survives `lstrip`. */
  lemma LStripKeepsFrom(s: string, k: nat)
    requires k < |s| && !IsSpace(s[k])
    ensures var r := LStrip(s); |r| >= |s| - k && r[|r| - (|s| - k)..] == s[k..] && r[|r| - 1] == s[|s| - 1]
  {
    var r := LStrip(s);
    LStripStopsAt(s, k);
    SuffixOfSuffix(s, |s| - |r|, |s| - k);
  }

  /** `s.rstrip()` */
  function RStrip(s: string): (r: string)
    ensures |r| <= |s| && r == s[..|r|]
    ensures r == [] || !IsSpace(r[|r| - 1])
  {
    if s != [] && IsSpace(s[|s| - 1]) then RStrip(s[..|s| - 1]) else s
  }

  /** What `rstrip` removes is whitespace. */
  lemma {:induction false} RStripDropsSpace(s: string)
    ensures AllSpace(s[|RStrip(s)|..])
    decreases |s|
  {
    if s != [] && IsSpace(s[|s| - 1]) {
      RStripDropsSpace(s[..|s| - 1]);
      var k := |RStrip(s)|;
      assert forall j :: 0 <= j < |s| - 1 - k ==> s[k..][j] == s[..|s| - 1][k..][j];
    }
  }

  /** A text is its right-stripped form followed by whitespace. */
  lemma RStripSplit(s: string)
    ensures s == RStrip(s) + s[|RStrip(s)|..] && AllSpace(s[|RStrip(s)|..])
  {
    RStripDropsSpace(s);
  }

  /** `s.strip()` */
  function Strip(s: string): (r: string)
    ensures |r| <= |s|
  {
    var t := RStrip(s);
    LStrip(t)
  }

  /** `strip` leaves nothing exactly when the text is all whitespace. */
  lemma StripEmpty(s: string)
    ensures Strip(s) == [] <==> AllSpace(s)
  {
    var t := RStrip(s);
    RStripDropsSpace(s);
    assert t == [] ==> AllSpace(s) by {
      if t == [] { assert s[|t|..] == s; }
    }
    assert t != [] ==> LStrip(t) != [] by {
      if t != [] { LStripStopsAt(t, |t| - 1); }
    }
  }

  /** A text that does not end in whitespace is only left-stripped. */
  lemma StripOfRightTrimmed(s: string)
    requires s != [] && !IsSpace(s[|s| - 1])
    ensures Strip(s) == LStrip(s)
  {
    assert RStrip(s) == s;
  }

  /** `s.startswith(p)` */
  predicate StartsWith(s: string, p: string) {
    |p| <= |s| && s[..|p|] == p
  }

  /** A string starts with any prefix it was built from. */
  lemma StartsWithConcat(p: string, q: string)
    ensures StartsWith(p + q, p)
  {
    assert (p + q)[..|p|] == p;
  }

  /** A text built from three pieces starts with the first and with the first two. */
  lemma PrefixesOf(a: string, b: string, c: string)
    ensures StartsWith(a + b + c, a) && StartsWith(a + b + c, a + b)
  {
    assert (a + b + c)[..|a|] == a;
    assert (a + b + c)[..|a + b|] == a + b;
  }

  /** `s.endswith(p)` */
  predicate EndsWith(s: string, p: string) {
    |p| <= |s| && s[|s| - |p|..] == p
  }

  /** A string ends with any suffix it was built from. */
  lemma EndsWithConcat(p: string, q: string)
    ensures EndsWith(p + q, q)
  {
    assert (p + q)[|p + q| - |q|..] == q;
  }

  /** A suffix of a suffix is a suffix of the whole. */
  lemma SuffixOfSuffix<T>(s: seq<T>, k: nat, n: nat)
    requires k <= |s| && n <= |s| - k
    ensures s[k..][|s| - k - n..] == s[|s| - n..]
  {
  }

  /** `r` is what remains of `s` after some leading elements were dropped. */
  predicate IsSuffix<T(==)>(r: seq<T>, s: seq<T>) {
    |r| <= |s| && r == s[|s| - |r|..]
  }

  /** A suffix of a suffix of `s` is a suffix of `s`. */
  lemma SuffixTrans<T>(r: seq<T>, s: seq<T>, k: nat)
    requires k <= |s| && IsSuffix(r, s[k..])
    ensures IsSuffix(r, s)
  {
    SuffixOfSuffix(s, k, |r|);
  }

  /** `s.find(sub)`: the first index at which `sub` occurs, or -1. */
  function Find(s: string, sub: string): (r: int)
    ensures r == -1 || 0 <= r <= |s| - |sub|
    ensures r >= 0 ==> StartsWith(s[r..], sub)
  {
    if StartsWith(s, sub) then 0
    else if s == [] then -1
    else
      var k := Find(s[1..], sub);
      if k < 0 then -1 else k + 1
  }

  /** `sub` occurs nowhere before the index `find` reports, and nowhere at
      all when it reports -1. */
  lemma {:induction false} FindIsFirst(s: string, sub: string)
    ensures forall j :: 0 <= j < |s| && (Find(s, sub) < 0 || j < Find(s, sub)) ==> !StartsWith(s[j..], sub)
    decreases |s|
  {
    if !StartsWith(s, sub) && s != [] {
      FindIsFirst(s[1..], sub);
      assert forall j :: 1 <= j < |s| ==> s[j..] == s[1..][j - 1..];
    }
  }

  /** `s.find(c)` for a single character. */
  function FindChar(s: string, c: char): (r: int)
    ensures r < 0 <==> c !in s
    ensures r >= 0 ==> r < |s| && s[r] == c && c !in s[..r]
  {
    if s == [] then -1
    else if s[0] == c then 0
    else
      var k := FindChar(s[1..], c);
      if k < 0 then -1
      else
        assert s[..k + 1] == [s[0]] + s[1..][..k];
        k + 1
  }

  /** The first occurrence is the only index holding `c` with no `c` before it. */
  lemma FindCharAt(s: string, c: char, k: nat)
    requires k < |s| && s[k] == c && c !in s[..k]
    ensures FindChar(s, c) == k
  {
    assert s[k] in s;
    assert forall j :: 0 <= j < k ==> s[j] != c by {
      forall j | 0 <= j < k ensures s[j] != c { assert s[j] == s[..k][j]; }
    }
    assert forall m :: k < m <= |s| ==> s[..m][k] == c;
  }

  /** `sub in s` */
  predicate Contains(s: string, sub: string) {
    Find(s, sub) >= 0
  }

  /** A string holds whatever was placed inside it, at the place it was put. */
  lemma ContainsInside(pre: string, x: string, post: string)
    ensures (pre + x + post)[|pre|..|pre| + |x|] == x
    ensures Contains(pre + x + post, x)
  {
    var s := pre + x + post;
    assert s[|pre|..|pre| + |x|] == x;
    ContainsAt(s, x, |pre|);
  }

  /** `sub` occurring at `k` means `sub in s`. */
  lemma ContainsAt(s: string, sub: string, k: nat)
    requires k + |sub| <= |s| && s[k..k + |sub|] == sub
    ensures Contains(s, sub)
  {
    FindIsFirst(s, sub);
    assert s[k..][..|sub|] == sub;
  }

  /** Whatever a piece contains, a string made around that piece contains too. */
  lemma ContainsWithin(pre: string, x: string, post: string, sub: string)
    requires Contains(x, sub)
    ensures Contains(pre + x + post, sub)
  {
    var k := Find(x, sub);
    var s := pre + x + post;
    assert x[k..][..|sub|] == sub;
    assert s[|pre| + k..|pre| + k + |sub|] == x[k..k + |sub|];
    ContainsAt(s, sub, |pre| + k);
  }

  /** Two strings placed between the same text are equal when the results are. */
  lemma InsideInjective(pre: string, x: string, y: string, post: string)
    requires pre + x + post == pre + y + post
    ensures x == y
  {
    ContainsInside(pre, x, post);
    ContainsInside(pre, y, post);
  }

  /** `s.count(sub)`: non-overlapping occurrences, scanning left to right. */
  function Count(s: string, sub: string): (n: nat)
    requires sub != []
    decreases |s|
  {
    if |s| < |sub| then 0
    else if StartsWith(s, sub) then 1 + Count(s[|sub|..], sub)
    else Count(s[1..], sub)
  }

  /** `s.split(sep)` for a non-empty separator. */
  function Split(s: string, sep: string): (parts: seq<string>)
    requires sep != []
    ensures |parts| >= 1
    decreases |s|
  {
    var k := Find(s, sep);
    if k < 0 then [s] else [s[..k]] + Split(s[k + |sep|..], sep)
  }

  /** Where `sep` is found, `split` cuts the text before it off as the first part. */
  lemma SplitAtFound(s: string, sep: string)
    requires sep != [] && Find(s, sep) >= 0
    ensures Split(s, sep) == [s[..Find(s, sep)]] + Split(s[Find(s, sep) + |sep|..], sep)
  {
  }

  /** `sep.join(parts)` */
  function Join(sep: string, parts: seq<string>): string {
    if parts == [] then []
    else if |parts| == 1 then parts[0]
    else parts[0] + sep + Join(sep, parts[1..])
  }

  /** `s.replace(pat, repl)` for a non-empty `pat`. */
  function ReplaceAll(s: string, pat: string, repl: string): string
    requires pat != []
  {
    Join(repl, Split(s, pat))
  }

  /** `s.replace(pat, repl, 1)` for a non-empty `pat`. */
  function ReplaceFirst(s: string, pat: string, repl: string): string
    requires pat != []
  {
    var k := Find(s, pat);
    if k < 0 then s else s[..k] + repl + s[k + |pat|..]
  }

  /** A character at which `str.splitlines()` ends a line. */
  predicate IsLineBreak(c: char) {
    c == '\n' || c == '\r' || c == '\U{000B}' || c == '\U{000C}'
    || ('\U{001C}' <= c <= '\U{001E}') || c == '\U{0085}'
    || c == '\U{2028}' || c == '\U{2029}'
  }

  /** Index of the first line break in `s`, or `|s|`. */
  function LineEnd(s: string): (k: nat)
    ensures k <= |s|
    ensures k < |s| ==> IsLineBreak(s[k])
    ensures forall j :: 0 <= j < k ==> !IsLineBreak(s[j])
  {
    if s == [] || IsLineBreak(s[0]) then 0 else 1 + LineEnd(s[1..])
  }

  /** `s.splitlines()`: lines without their terminators; `"\r\n"` is one break
      and a trailing break does not start an empty last line. */
  function SplitLines(s: string): (lines: seq<string>)
    ensures forall i :: 0 <= i < |lines| ==> forall j :: 0 <= j < |lines[i]| ==> !IsLineBreak(lines[i][j])
    decreases |s|
  {
    if s == [] then []
    else
      var k := LineEnd(s);
      if k == |s| then [s]
      else
        var next := if s[k] == '\r' && k + 1 < |s| && s[k + 1] == '\n' then k + 2 else k + 1;
        [s[..k]] + SplitLines(s[next..])
  }

  /** `s.split()` with no argument: the maximal runs of non-whitespace. */
  function Words(s: string): seq<string>
    decreases |s|
  {
    var t := LStrip(s);
    if t == [] then []
    else
      var k := WordEnd(t);
      [t[..k]] + Words(t[k..])
  }

  /** A non-empty run of non-whitespace. */
  predicate IsWord(w: string) {
    w != [] && forall j :: 0 <= j < |w| ==> !IsSpace(w[j])
  }

  /** Every word `split()` yields is a non-empty run of non-whitespace. */
  lemma {:induction false} WordsHaveNoSpace(s: string)
    ensures forall i :: 0 <= i < |Words(s)| ==> IsWord(Words(s)[i])
    decreases |s|
  {
    var t := LStrip(s);
    if t != [] {
      var k := WordEnd(t);
      WordsHaveNoSpace(t[k..]);
      FirstWordIsWord(t);
      WordsConsIsWord(t[..k], Words(t[k..]));
    }
  }

  lemma FirstWordIsWord(t: string)
    requires t != [] && !IsSpace(t[0])
    ensures IsWord(t[..WordEnd(t)])
  {
    var k := WordEnd(t);
    forall j | 0 <= j < k ensures !IsSpace(t[..k][j]) {
      assert t[..k][j] == t[j];
    }
  }

  lemma WordsConsIsWord(w: string, rest: seq<string>)
    requires IsWord(w) && forall i :: 0 <= i < |rest| ==> IsWord(rest[i])
    ensures forall i :: 0 <= i < |[w] + rest| ==> IsWord(([w] + rest)[i])
  {
    forall i | 1 <= i < |[w] + rest| ensures IsWord(([w] + rest)[i]) {
      assert ([w] + rest)[i] == rest[i - 1];
    }
  }

  /** Length of the run of non-whitespace characters that starts `s`. */
  function WordEnd(s: string): (k: nat)
    requires s != [] && !IsSpace(s[0])
    ensures 1 <= k <= |s|
    ensures k < |s| ==> IsSpace(s[k])
    ensures forall j :: 0 <= j < k ==> !IsSpace(s[j])
    decreases |s|
  {
    if |s| == 1 || IsSpace(s[1]) then 1 else 1 + WordEnd(s[1..])
  }

  /** `c.lower()` restricted to ASCII letters. */
  function LowerChar(c: char): char {
    if 'A' <= c <= 'Z' then (c as int + 32) as char else c
  }

  /** A character `\w` matches, restricted to ASCII letters, digits and '_'. */
  predicate IsWordChar(c: char) {
    'a' <= c <= 'z' || 'A' <= c <= 'Z' || '0' <= c <= '9' || c == '_'
  }

  /** `s.lower()` restricted to ASCII letters. */
  function Lower(s: string): (r: string)
    ensures |r| == |s|
    ensures forall i :: 0 <= i < |s| ==> r[i] == LowerChar(s[i])
  {
    if s == [] then [] else [LowerChar(s[0])] + Lower(s[1..])
  }

  /** A text without upper-case letters is its own lower-case form. */
  lemma LowerKeepsLower(s: string)
    requires forall i :: 0 <= i < |s| ==> !('A' <= s[i] <= 'Z')
    ensures Lower(s) == s
  {
  }

  /** `str(n)` for a natural number. */
  function NatToString(n: nat): (r: string)
    ensures r != []
    ensures forall i :: 0 <= i < |r| ==> '0' <= r[i] <= '9'
    ensures n < 10 <==> |r| == 1
  {
    var d := ['0' + (n % 10) as char];
    if n < 10 then d else NatToString(n / 10) + d
  }

  /** Different numbers print differently. */
  lemma {:induction false} NatToStringInjective(n: nat, m: nat)
    requires NatToString(n) == NatToString(m)
    ensures n == m
    decreases n
  {
    var r := NatToString(n);
    assert r[|r| - 1] == '0' + (n % 10) as char;
    assert r[|r| - 1] == '0' + (m % 10) as char;
    if n >= 10 {
      assert r[..|r| - 1] == NatToString(n / 10) == NatToString(m / 10);
      NatToStringInjective(n / 10, m / 10);
    }
  }

  /** `str(i)` for an integer. */
  function IntToString(i: int): string {
    if i < 0 then "-" + NatToString(-i) else NatToString(i)
  }

  /** `f"{n:0{width}d}"` for a natural number: left-padded with zeros. */
  function ZeroPad(n: nat, width: nat): (r: string)
    ensures |r| >= width
  {
    var digits := NatToString(n);
    if |digits| >= width then digits else seq(width - |digits|, _ => '0') + digits
  }

  /** A positive number prints without a leading zero. */
  lemma {:induction false} NatToStringLeading(n: nat)
    requires n >= 1
    ensures NatToString(n)[0] != '0'
    decreases n
  {
    if n >= 10 {
      NatToStringLeading(n / 10);
      assert NatToString(n)[0] == NatToString(n / 10)[0];
    }
  }

  /** Different numbers pad differently. */
  lemma ZeroPadInjective(a: nat, b: nat, width: nat)
    requires ZeroPad(a, width) == ZeroPad(b, width)
    ensures a == b
  {
    var da := NatToString(a);
    var db := NatToString(b);
    var r := ZeroPad(a, width);
    if |da| == |db| {
      assert da == r[|r| - |da|..] && db == r[|r| - |db|..];
      NatToStringInjective(a, b);
    } else if |da| < |db| {
      assert |da| < width;
      assert db[0] == r[|r| - |db|] == '0';
      if b >= 1 { NatToStringLeading(b); }
    } else {
      assert |db| < width;
      assert da[0] == r[|r| - |da|] == '0';
      if a >= 1 { NatToStringLeading(a); }
    }
  }

  /** Searching for a one-character string is searching for the character. */
  lemma FindSingle(s: string, c: char)
    ensures Find(s, [c]) == FindChar(s, c)
  {
    var k := Find(s, [c]);
    FindIsFirst(s, [c]);
    if k >= 0 {
      assert s[k] == s[k..][0] == c;
      assert forall j :: 0 <= j < k ==> s[j..][0] == s[j];
      FindCharAt(s, c, k);
    }
  }

  /** The parts `split` returns for a one-character separator do not hold it. */
  lemma {:induction false} SplitPartsFree(s: string, c: char)
    ensures forall i :: 0 <= i < |Split(s, [c])| ==> c !in Split(s, [c])[i]
    decreases |s|
  {
    FindSingle(s, c);
    var k := Find(s, [c]);
    FindIsFirst(s, [c]);
    if k >= 0 {
      SplitPartsFree(s[k + 1..], c);
    }
  }

  /** Joining parts free of the one-character separator and splitting again
      gives the parts back. */
  lemma {:induction false} SplitJoin(parts: seq<string>, c: char)
    requires |parts| >= 1
    requires forall i :: 0 <= i < |parts| ==> c !in parts[i]
    ensures Split(Join([c], parts), [c]) == parts
    decreases |parts|
  {
    var s := Join([c], parts);
    FindSingle(s, c);
    if |parts| > 1 {
      var t := Join([c], parts[1..]);
      assert s == parts[0] + [c] + t;
      FindCharAt(s, c, |parts[0]|);
      assert s[..|parts[0]|] == parts[0];
      assert s[|parts[0]| + 1..] == t;
      SplitJoin(parts[1..], c);
    }
  }

  /** `int(n * factor)` for a rational factor `num / den`: the product
      truncated toward zero. */
  function ScaledInt(n: nat, num: int, den: nat): (r: int)
    requires den > 0
    ensures num >= 0 ==> 0 <= r && r * den <= n * num < (r + 1) * den
  {
    if n * num >= 0 then n * num / den else -((-(n * num)) / den)
  }

  /** Scaling by a fraction in [0, 1] stays within [0, n]. */
  lemma ScaledIntWithin(n: nat, num: int, den: nat)
    requires den > 0 && 0 <= num <= den
    ensures 0 <= ScaledInt(n, num, den) <= n
  {
    var k := ScaledInt(n, num, den);
    assert n * num <= n * den by {
      assert n * den - n * num == n * (den - num);
    }
  }

  /** The index Python uses for the bound `k` of a slice of length `n`. */
  function SliceIndex(n: nat, k: int): (i: nat)
    ensures i <= n
    ensures 0 <= k <= n ==> i == k
  {
    if k < 0 then (if k + n < 0 then 0 else k + n) else if k > n then n else k
  }

  /** `s[:k]` */
  function Take<T>(s: seq<T>, k: int): seq<T> {
    s[..SliceIndex(|s|, k)]
  }

  /** `s[k:]` */
  function Drop<T>(s: seq<T>, k: int): seq<T> {
    s[SliceIndex(|s|, k)..]
  }

  /** `s[a:b]` */
  function Slice<T>(s: seq<T>, a: int, b: int): seq<T> {
    var i := SliceIndex(|s|, a);
    var j := SliceIndex(|s|, b);
    if i <= j then s[i..j] else []
  }
}
