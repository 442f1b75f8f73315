/** String helpers shared by every module: the few JavaScript string
    operations the site's scripts rely on, written out over seq<char>. */
module Strings {

  datatype Option<T> = None | Some(value: T)

  /** A character matched by the JavaScript class \s and removed by trim():
      the ASCII blanks plus the Unicode space separators and line terminators. */
  predicate IsSpace(c: char)
  {
    var n := c as int;
    n == 0x09 || n == 0x0A || n == 0x0B || n == 0x0C || n == 0x0D || n == 0x20 ||
    n == 0xA0 || n == 0x1680 || (0x2000 <= n <= 0x200A) || n == 0x2028 || n == 0x2029 ||
    n == 0x202F || n == 0x205F || n == 0x3000 || n == 0xFEFF
  }

  predicate NoSpace(s: string)
  {
    forall i :: 0 <= i < |s| ==> !IsSpace(s[i])
  }

  /** `s.includes(sub)` */
  predicate Contains(s: string, sub: string)
    decreases |s|
  {
    sub <= s || (|s| > 0 && Contains(s[1..], sub))
  }

  /** `s.endsWith(suffix)` */
  predicate EndsWith(s: string, suffix: string)
  {
    |suffix| <= |s| && s[|s| - |suffix|..] == suffix
  }

  /** Leading whitespace dropped: `trimStart()`. */
  function TrimStart(s: string): (r: string)
    ensures |r| <= |s| && r == s[|s| - |r|..]
    ensures r == [] || !IsSpace(r[0])
    ensures forall i :: 0 <= i < |s| - |r| ==> IsSpace(s[i])
  {
    if |s| > 0 && IsSpace(s[0]) then TrimStart(s[1..]) else s
  }

  /** Trailing whitespace dropped: `trimEnd()`. */
  function TrimEnd(s: string): (r: string)
    ensures |r| <= |s| && r == s[..|r|]
    ensures r == [] || !IsSpace(r[|r| - 1])
    ensures forall i :: |r| <= i < |s| ==> IsSpace(s[i])
  {
    if |s| > 0 && IsSpace(s[|s| - 1]) then TrimEnd(s[..|s| - 1]) else s
  }

  /** `trim()` */
  function Trim(s: string): (r: string)
  {
    TrimEnd(TrimStart(s))
  }

  /** Nothing but whitespace: what `s.trim() === ''` tests. */
  predicate Blank(s: string)
  {
    forall i :: 0 <= i < |s| ==> IsSpace(s[i])
  }

  /** A string trims to nothing exactly when it is blank. */
  lemma TrimEmptyIffBlank(s: string)
    ensures Trim(s) == [] <==> Blank(s)
  {
    var t := TrimStart(s);
    if Trim(s) != [] {
      var r := Trim(s);
      assert r[0] == t[0];
      assert s[|s| - |t|] == t[0];
    }
  }

  /** ASCII upper-case letters lowered, everything else kept. */
  function LowerChar(c: char): char
  {
    if 'A' <= c <= 'Z' then (c as int + 32) as char else c
  }

  /** No upper-case ASCII letter is white space. */
  lemma UpperNotSpace(c: char)
    requires 'A' <= c <= 'Z'
    ensures !IsSpace(c)
  {
  }

  /** `toLowerCase()`, restricted to the ASCII letters. */
  function ToLower(s: string): (r: string)
    ensures |r| == |s|
    ensures forall i :: 0 <= i < |s| ==> r[i] == LowerChar(s[i])
  {
    if s == [] then [] else [LowerChar(s[0])] + ToLower(s[1..])
  }

  /** `replace(/\s+/g, '')` */
  function RemoveSpaces(s: string): (r: string)
    ensures NoSpace(r)
    ensures |r| <= |s|
  {
    if s == [] then []
    else if IsSpace(s[0]) then RemoveSpaces(s[1..])
    else [s[0]] + RemoveSpaces(s[1..])
  }

  /** `s.split(sep).pop()`: the part after the last separator (the whole string if there is none). */
  function AfterLast(s: string, sep: char): (r: string)
    ensures |r| <= |s| && r == s[|s| - |r|..]
    ensures sep !in r
    ensures |r| == |s| || s[|s| - |r| - 1] == sep
  {
    if s == [] then []
    else if s[|s| - 1] == sep then []
    else AfterLast(s[..|s| - 1], sep) + [s[|s| - 1]]
  }

  /** `s.split(sep)[0]`: the part before the first separator (the whole string if there is none). */
  function BeforeFirst(s: string, sep: char): (r: string)
    ensures |r| <= |s| && r == s[..|r|]
    ensures sep !in r
    ensures |r| == |s| || s[|r|] == sep
  {
    if s == [] then []
    else if s[0] == sep then []
    else [s[0]] + BeforeFirst(s[1..], sep)
  }

  /** `img.src || img.dataset.src || ''`: an image's address, the first non-empty of the two. */
  function ImageSource(src: string, dataSrc: Option<string>): (s: string)
    ensures src != [] ==> s == src
    ensures src == [] && dataSrc.Some? ==> s == dataSrc.value
    ensures src == [] && dataSrc.None? ==> s == []
  {
    if src != [] then src else if dataSrc.Some? then dataSrc.value else []
  }

  /** The file name of an address up to its first dot: `split('/').pop().split('.')[0]`. */
  function FileStem(src: string): (stem: string)
    ensures '/' !in stem && '.' !in stem
    ensures stem <= AfterLast(src, '/')
    ensures |stem| == |AfterLast(src, '/')| || AfterLast(src, '/')[|stem|] == '.'
  {
    BeforeFirst(AfterLast(src, '/'), '.')
  }

  /** `s.replace(pattern, replacement)` with a string pattern: only the first occurrence. */
  function ReplaceFirst(s: string, pattern: string, replacement: string): (r: string)
    requires pattern != []
    decreases |s|
  {
    if pattern <= s then replacement + s[|pattern|..]
    else if s == [] then []
    else [s[0]] + ReplaceFirst(s[1..], pattern, replacement)
  }

  /** Only the first occurrence is replaced: with no occurrence starting inside `a`,
      the pattern right after `a` is the one that changes, and `b` is kept as it is. */
  lemma {:induction false} ReplaceFirstAt(a: string, pattern: string, b: string, replacement: string)
    requires pattern != []
    requires forall k :: 0 <= k < |a| ==> !(pattern <= (a + pattern + b)[k..])
    ensures ReplaceFirst(a + pattern + b, pattern, replacement) == a + replacement + b
    decreases |a|
  {
    var s := a + pattern + b;
    if a == [] {
      assert s == pattern + b;
      assert pattern <= s;
      assert s[|pattern|..] == b;
    } else {
      assert !(pattern <= s[0..]) by { assert s[0..] == s; }
      assert s[1..] == a[1..] + pattern + b;
      forall k | 0 <= k < |a[1..]|
        ensures !(pattern <= (a[1..] + pattern + b)[k..])
      {
        assert (a[1..] + pattern + b)[k..] == s[k + 1..];
      }
      ReplaceFirstAt(a[1..], pattern, b, replacement);
      assert [s[0]] + (a[1..] + replacement + b) == a + replacement + b;
    }
  }

  /** A string that does not contain the pattern comes back unchanged. */
  lemma {:induction false} ReplaceFirstAbsent(s: string, pattern: string, replacement: string)
    requires pattern != [] && !Contains(s, pattern)
    ensures ReplaceFirst(s, pattern, replacement) == s
    decreases |s|
  {
    if s != [] {
      ReplaceFirstAbsent(s[1..], pattern, replacement);
    }
  }

  /** A string contains what it starts with, and keeps containing it when extended. */
  lemma {:induction false} ContainsAppend(s: string, t: string, sub: string)
    requires Contains(s, sub)
    ensures Contains(s + t, sub)
    decreases |s|
  {
    if sub <= s {
      assert sub <= s + t;
    } else {
      assert (s + t)[1..] == s[1..] + t;
      ContainsAppend(s[1..], t, sub);
    }
  }

  /** Whatever is contained in the tail of a string is contained in it. */
  lemma {:induction false} ContainsSuffix(s: string, t: string, sub: string)
    requires Contains(t, sub)
    ensures Contains(s + t, sub)
    decreases |s|
  {
    if s != [] {
      assert (s + t)[1..] == s[1..] + t;
      ContainsSuffix(s[1..], t, sub);
    } else {
      assert s + t == t;
    }
  }

  /** `a.includes(b)` holds when b occurs at a known position. */
  lemma {:induction false} ContainsAt(s: string, k: nat, sub: string)
    requires k + |sub| <= |s| && s[k..k + |sub|] == sub
    ensures Contains(s, sub)
    decreases k
  {
    if k == 0 {
      assert s[..|sub|] == sub;
    } else {
      assert s[1..][k - 1..k - 1 + |sub|] == s[k..k + |sub|];
      ContainsAt(s[1..], k - 1, sub);
    }
  }

  /** Every string includes the empty string. */
  lemma ContainsEmpty(s: string)
    ensures Contains(s, [])
  {
  }

  /** `parts.join(sep)` */
  function Join(parts: seq<string>, sep: string): (r: string)
  {
    if parts == [] then []
    else if |parts| == 1 then parts[0]
    else parts[0] + sep + Join(parts[1..], sep)
  }

  /** Decimal rendering of a natural number, as template literals print it. */
  function NatToString(n: nat): (r: string)
    ensures r != []
    ensures forall i :: 0 <= i < |r| ==> '0' <= r[i] <= '9'
  {
    if n < 10 then [DigitChar(n)] else NatToString(n / 10) + [DigitChar(n % 10)]
  }

  function DigitChar(d: nat): (c: char)
    requires d < 10
    ensures '0' <= c <= '9'
  {
    (d + 48) as char
  }

  /** `Math.round(a / b)` for non-negative a and positive b: halves round up. */
  function RoundDiv(a: nat, b: nat): (r: nat)
    requires b > 0
    ensures 2 * a < (2 * r + 1) * b && (2 * r - 1) * b <= 2 * a
  {
    (2 * a + b) / (2 * b)
  }

  function Min(a: int, b: int): int { if a < b then a else b }
  function Max(a: int, b: int): int { if a < b then b else a }
}
