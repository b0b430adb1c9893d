/** The few Python string built-ins the core relies on: `str.strip`,
    `str.rstrip(chars)` and `str.lower` (restricted to ASCII letters). */
module Text {

  /** The characters for which Python's `str.isspace()` holds; `str.strip()`
      with no argument removes exactly these from both ends. */
  const Whitespace: set<char> := {
    '\t', '\n', '\U{000B}', '\U{000C}', '\r',
    '\U{001C}', '\U{001D}', '\U{001E}', '\U{001F}', ' ',
    '\U{0085}', '\U{00A0}', '\U{1680}',
    '\U{2000}', '\U{2001}', '\U{2002}', '\U{2003}', '\U{2004}', '\U{2005}',
    '\U{2006}', '\U{2007}', '\U{2008}', '\U{2009}', '\U{200A}',
    '\U{2028}', '\U{2029}', '\U{202F}', '\U{205F}', '\U{3000}'
  }

  /** Where the kept part of `s[..n]` ends when characters of `chars` are
      removed from its end. */
  function KeptEnd(s: string, chars: set<char>, n: nat): (e: nat)
    requires n <= |s|
    ensures e <= n
    ensures e == 0 || s[e - 1] !in chars
    ensures forall i | e <= i < n :: s[i] in chars
  {
    if n == 0 || s[n - 1] !in chars then n else KeptEnd(s, chars, n - 1)
  }

  /** Where the kept part of `s[k..]` starts when characters of `chars` are
      removed from its start. */
  function KeptStart(s: string, chars: set<char>, k: nat): (b: nat)
    requires k <= |s|
    ensures k <= b <= |s|
    ensures b == |s| || s[b] !in chars
    ensures forall i | k <= i < b :: s[i] in chars
    decreases |s| - k
  {
    if k == |s| || s[k] !in chars then k else KeptStart(s, chars, k + 1)
  }

  /** `s.rstrip(chars)`: the longest prefix of `s` that does not end in one of
      `chars`; everything removed is in `chars`. */
  function RStrip(s: string, chars: set<char>): (r: string)
    ensures r <= s
    ensures r == [] || r[|r| - 1] !in chars
    ensures forall i | |r| <= i < |s| :: s[i] in chars
  {
    s[..KeptEnd(s, chars, |s|)]
  }

  /** `s.lstrip(chars)`: the longest suffix of `s` that does not start with one
      of `chars`; everything removed is in `chars`. */
  function LStrip(s: string, chars: set<char>): (r: string)
    ensures |r| <= |s| && r == s[|s| - |r|..]
    ensures r == [] || r[0] !in chars
    ensures forall i | 0 <= i < |s| - |r| :: s[i] in chars
  {
    s[KeptStart(s, chars, 0)..]
  }

  /** `s.strip()` over the given characters: both ends trimmed. The result is
      empty exactly when every character of `s` is one of `chars`. */
  function Strip(s: string, chars: set<char>): (r: string)
    ensures r == [] <==> forall i | 0 <= i < |s| :: s[i] in chars
    ensures r != [] ==> r[0] !in chars && r[|r| - 1] !in chars
  {
    var b := KeptStart(s, chars, 0);
    var e := KeptEnd(s, chars, |s|);
    if b == |s| then
      []
    else
      assert s[b] !in chars && b < e;
      s[b..e]
  }

  /** Stripping both ends is stripping the start, then the end. */
  lemma StripIsLStripThenRStrip(s: string, chars: set<char>)
    ensures Strip(s, chars) == RStrip(LStrip(s, chars), chars)
  {
    var l := LStrip(s, chars);
    var r := RStrip(l, chars);
    var b := KeptStart(s, chars, 0);
    var e := KeptEnd(s, chars, |s|);
    assert l == s[b..];
    if b < |s| {
      assert s[b] !in chars;
      assert r == s[|s| - |l|..][..|r|];
      assert |s| - |l| + |r| == e;
    }
  }

  /** Stripping is idempotent: a stripped string is its own strip. */
  lemma StripIdempotent(s: string, chars: set<char>)
    ensures Strip(Strip(s, chars), chars) == Strip(s, chars)
  {
    var t := Strip(s, chars);
    if t != [] {
      assert KeptStart(t, chars, 0) == 0;
      assert KeptEnd(t, chars, |t|) == |t|;
    }
  }

  /** Python's `str.lower()` on one character, for the ASCII letters. */
  function LowerChar(c: char): (d: char)
    ensures 'A' <= c <= 'Z' ==> d as int == c as int + 32
    ensures !('A' <= c <= 'Z') ==> d == c
  {
    if 'A' <= c <= 'Z' then (c as int + 32) as char else c
  }

  function Lower(s: string): (r: string)
    ensures |r| == |s|
  {
    seq(|s|, i requires 0 <= i < |s| => LowerChar(s[i]))
  }
}
