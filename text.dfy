/** The Python string operations the backends use on paths, URLs and model
    replies: prefix and suffix tests, `str.strip()`, `str.lstrip(c)` and the
    Markdown code-fence stripping applied to every model reply. */
module Text {

  predicate StartsWith(s: string, p: string) {
    |p| <= |s| && s[..|p|] == p
  }

  predicate EndsWith(s: string, p: string) {
    |p| <= |s| && s[|s| - |p|..] == p
  }

  /** Two prefixes that differ in their first character cannot both hold. */
  lemma PrefixesExclusive(s: string, p: string, q: string)
    requires p != [] && q != [] && p[0] != q[0]
    ensures !(StartsWith(s, p) && StartsWith(s, q))
  {
    if StartsWith(s, p) {
      assert s[0] == s[..|p|][0] == p[0];
    }
  }

  /** Python's `str.isspace()` for one character: the characters that
      `str.strip()` with no argument removes. */
  predicate IsSpace(c: char) {
    ('\U{9}' <= c <= '\U{D}') || ('\U{1C}' <= c <= '\U{20}')
    || c == '\U{85}' || c == '\U{A0}' || c == '\U{1680}'
    || ('\U{2000}' <= c <= '\U{200A}') || c == '\U{2028}' || c == '\U{2029}'
    || c == '\U{202F}' || c == '\U{205F}' || c == '\U{3000}'
  }

  /** Number of whitespace characters at the front of `s`. */
  function LeadingSpaces(s: string): (n: nat)
    ensures n <= |s|
    ensures forall k :: 0 <= k < n ==> IsSpace(s[k])
    ensures n < |s| ==> !IsSpace(s[n])
  {
    if s != [] && IsSpace(s[0]) then 1 + LeadingSpaces(s[1..]) else 0
  }

  /** Number of whitespace characters at the back of `s`. */
  function TrailingSpaces(s: string): (n: nat)
    ensures n <= |s|
    ensures forall k :: |s| - n <= k < |s| ==> IsSpace(s[k])
    ensures n < |s| ==> !IsSpace(s[|s| - n - 1])
  {
    if s != [] && IsSpace(s[|s| - 1]) then 1 + TrailingSpaces(s[..|s| - 1]) else 0
  }

  /** The slice `s[i..j]` that `str.strip()` keeps: everything outside it is
      whitespace, and it neither starts nor ends with whitespace. */
  function StripBounds(s: string): (b: (nat, nat))
    ensures b.0 <= b.1 <= |s|
    ensures forall k :: 0 <= k < b.0 ==> IsSpace(s[k])
    ensures forall k :: b.1 <= k < |s| ==> IsSpace(s[k])
    ensures b.0 < b.1 ==> !IsSpace(s[b.0]) && !IsSpace(s[b.1 - 1])
  {
    var i := LeadingSpaces(s);
    var a := s[i..];
    var t := TrailingSpaces(a);
    if i == |s| then (i, i) else (i, |s| - t)
  }

  /** Python's `s.strip()`. */
  function Strip(s: string): string {
    var b := StripBounds(s);
    s[b.0..b.1]
  }

  /** Python's `s.lstrip(c)` for a single character `c`: removes every leading
      copy of `c` and nothing else. */
  function LStrip(s: string, c: char): (r: string)
    ensures |r| <= |s| && r == s[|s| - |r|..]
    ensures forall k :: 0 <= k < |s| - |r| ==> s[k] == c
    ensures r == [] || r[0] != c
  {
    if s != [] && s[0] == c then LStrip(s[1..], c) else s
  }

  const JsonFence: string := "```json"
  const Fence: string := "```"

  /** The reply clean-up done before `json.loads`: drop a leading "```json"
      (7 characters) if present, then a trailing "```" (3 characters) if
      present, each at most once. The reply is exactly what was removed around
      the result. */
  function StripFence(t: string): (r: string)
    ensures t == (if StartsWith(t, JsonFence) then JsonFence else "") + r
                 + (if EndsWith(t, Fence) then Fence else "")
  {
    var a := if StartsWith(t, JsonFence) then t[7..] else t;
    assert StartsWith(t, JsonFence) && |t| < 10 ==> t[|t| - 3..][6 - (|t| - 3)] == 'n';
    assert StartsWith(t, JsonFence) && |t| >= 10 ==> a[|a| - 3..] == t[|t| - 3..];
    if EndsWith(a, Fence) then a[..|a| - 3] else a
  }

  /** A reply with neither fence is passed through unchanged. */
  lemma StripFenceNoFence(t: string)
    requires !StartsWith(t, JsonFence) && !EndsWith(t, Fence)
    ensures StripFence(t) == t
  {
  }

  /** Each fence is removed at most once: a doubled fence keeps one copy. */
  lemma StripFenceOnce()
    ensures StripFence("```json```json{}``````") == "```json{}```"
  {
  }
}
