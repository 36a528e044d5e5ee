/** The regular expressions of the enhanced `download_audio`, written out as
    string scans with Python `re` semantics (`re.sub` anchored at `^`,
    `re.search` trying every start position from the left, greedy and lazy
    quantifiers with backtracking, `.` not matching a newline, `$` matching at
    the end or before a final newline). */
module Patterns {
  import opened Text
  import opened PyJson

  /** Index of the first '/' at or after `i`, or `|s|` when there is none. */
  function SlashFrom(s: string, i: nat): (j: nat)
    requires i <= |s|
    ensures i <= j <= |s|
    ensures forall k :: i <= k < j ==> s[k] != '/'
    ensures j < |s| ==> s[j] == '/'
    decreases |s| - i
  {
    if i == |s| || s[i] == '/' then i else SlashFrom(s, i + 1)
  }

  // ---------------------------------------------------------------------
  // re.sub(r'^https?://[^/]+', '', url)
  // ---------------------------------------------------------------------

  /** Length of the `https?://` part at the start of `url`, 0 if absent. */
  function SchemeLength(url: string): nat {
    if StartsWith(url, "https://") then 8
    else if StartsWith(url, "http://") then 7
    else 0
  }

  /** The anchored pattern matches: a scheme followed by at least one
      character other than '/'. */
  predicate HasHost(url: string) {
    SchemeLength(url) > 0 && SchemeLength(url) < |url| && url[SchemeLength(url)] != '/'
  }

  /** Removes a leading `scheme://host[:port]`, leaving the path (which is then
      empty or starts with '/'); any other string is returned unchanged. */
  function StripHost(url: string): (r: string)
    ensures |r| <= |url| && r == url[|url| - |r|..]
    ensures HasHost(url) <==> r != url
    ensures r != url ==> r == [] || r[0] == '/'
    ensures r != url ==> forall k :: SchemeLength(url) <= k < |url| - |r| ==> url[k] != '/'
  {
    if HasHost(url) then url[SlashFrom(url, SchemeLength(url))..] else url
  }

  /** A reference that already starts with '/' has no host to strip. */
  lemma StripHostKeepsRooted(url: string)
    requires StartsWith(url, "/")
    ensures StripHost(url) == url
  {
    assert url[0] == '/';
    assert !StartsWith(url, "http://") && !StartsWith(url, "https://") by {
      assert "http://"[0] == 'h' && "https://"[0] == 'h';
    }
  }

  /** The strip recovers the path of `scheme://host` followed by a path. */
  lemma StripHostRoundTrip(scheme: string, host: string, path: string)
    requires scheme == "http://" || scheme == "https://"
    requires host != [] && forall k :: 0 <= k < |host| ==> host[k] != '/'
    requires path == [] || path[0] == '/'
    ensures StripHost(scheme + host + path) == path
  {
    var url := scheme + host + path;
    assert url[..|scheme|] == scheme;
    if scheme == "http://" {
      assert url[4] == scheme[4] == ':' && "https://"[4] == 's';
    }
    assert SchemeLength(url) == |scheme|;
    assert url[|scheme|] == host[0];
    var j := SlashFrom(url, |scheme|);
    assert forall k :: |scheme| <= k < |scheme| + |host| ==> url[k] == host[k - |scheme|];
    if path != [] {
      assert url[|scheme| + |host|] == path[0];
    }
    assert j == |scheme| + |host|;
    assert url[j..] == path;
  }

  // ---------------------------------------------------------------------
  // Shared pieces: \d+ and the lazy group (.+?) followed by (?:stop|$)
  // ---------------------------------------------------------------------

  /** `\d`, for ASCII digits. */
  predicate IsDigit(c: char) {
    '0' <= c <= '9'
  }

  /** End of the longest run of digits starting at `i`. */
  function DigitsFrom(s: string, i: nat): (j: nat)
    requires i <= |s|
    ensures i <= j <= |s|
    ensures forall k :: i <= k < j ==> IsDigit(s[k])
    ensures j < |s| ==> !IsDigit(s[j])
    decreases |s| - i
  {
    if i < |s| && IsDigit(s[i]) then DigitsFrom(s, i + 1) else i
  }

  /** `(?:stop|$)` can match at position `e`. */
  predicate Follows(s: string, e: nat, stop: char) {
    e == |s| || (e < |s| && s[e] == stop) || (e + 1 == |s| && s[e] == '\n')
  }

  /** End of the lazy `.+?` whose first character is already consumed and
      whose current end is `k`: the first position at which `(?:stop|$)`
      matches, unless a newline (which `.` refuses) comes first. */
  function LazyEnd(s: string, k: nat, stop: char): (r: Option<nat>)
    requires k <= |s|
    ensures r.Some? ==> k <= r.value <= |s| && Follows(s, r.value, stop)
    ensures r.Some? ==> forall m :: k <= m < r.value ==> s[m] != '\n' && !Follows(s, m, stop)
    decreases |s| - k
  {
    if Follows(s, k, stop) then Some(k)
    else if s[k] == '\n' then None
    else LazyEnd(s, k + 1, stop)
  }

  /** The text captured by `(.+?)(?:stop|$)` when the group starts at
      `start`: at least one character, no newline, as short as possible. */
  function LazyGroup(s: string, start: nat, stop: char): (r: Option<string>)
    requires start <= |s|
    ensures r.Some? ==> |r.value| >= 1 && start + |r.value| <= |s|
    ensures r.Some? ==> r.value == s[start..start + |r.value|]
    ensures r.Some? ==> Follows(s, start + |r.value|, stop)
    ensures r.Some? ==> forall k :: 0 <= k < |r.value| ==> r.value[k] != '\n'
  {
    if start == |s| || s[start] == '\n' then None
    else match LazyEnd(s, start + 1, stop)
      case Some(e) => Some(s[start..e])
      case None => None
  }

  /** With no stop character and no newline ahead, the lazy group runs to
      the end of the string. */
  lemma {:induction false} LazyEndRunsToEnd(s: string, k: nat, stop: char)
    requires k <= |s|
    requires forall m :: k <= m < |s| ==> s[m] != stop && s[m] != '\n'
    ensures LazyEnd(s, k, stop) == Some(|s|)
    decreases |s| - k
  {
    if k < |s| {
      LazyEndRunsToEnd(s, k + 1, stop);
    }
  }

  // ---------------------------------------------------------------------
  // re.search(r'/data/upload/(\d+)/(.+?)(?:\?|$)', url)
  // ---------------------------------------------------------------------

  const UploadPrefix: string := "/data/upload/"

  /** The match of the upload pattern starting exactly at `i`, as
      (project id, raw file name). */
  function UploadAt(s: string, i: nat): (r: Option<(string, string)>)
    requires i <= |s|
    ensures r.Some? ==> r.value.0 != [] && forall k :: 0 <= k < |r.value.0| ==> IsDigit(r.value.0[k])
    ensures r.Some? ==> r.value.1 != []
    ensures r.Some? ==> var n := |UploadPrefix| + |r.value.0| + 1 + |r.value.1|;
                        i + n <= |s| && s[i..i + n] == UploadPrefix + r.value.0 + "/" + r.value.1
  {
    if StartsWith(s[i..], UploadPrefix) then
      var d := DigitsFrom(s, i + 13);
      if d > i + 13 && d < |s| && s[d] == '/' then
        match LazyGroup(s, d + 1, '?')
        case Some(name) =>
          UploadParts(s, i, d, name);
          Some((s[i + 13..d], name))
        case None => None
      else None
    else None
  }

  /** The text of an upload match, cut at the prefix, the digits, the '/'
      and the name. */
  lemma UploadParts(s: string, i: nat, d: nat, name: string)
    requires i + 13 <= d < |s| && StartsWith(s[i..], UploadPrefix) && s[d] == '/'
    requires d + 1 + |name| <= |s| && name == s[d + 1..d + 1 + |name|]
    ensures s[i..d + 1 + |name|] == UploadPrefix + s[i + 13..d] + "/" + name
  {
    var e := d + 1 + |name|;
    assert s[i..i + 13] == s[i..][..13] == UploadPrefix;
    assert s[i..e] == s[i..i + 13] + s[i + 13..d] + [s[d]] + s[d + 1..e];
  }

  /** Start of the leftmost match of the upload pattern at or after `i`:
      no match starts before it, and `None` only when none starts anywhere. */
  function UploadSearch(s: string, i: nat): (r: Option<nat>)
    requires i <= |s|
    ensures r.Some? ==> i <= r.value <= |s| && UploadAt(s, r.value).Some?
    ensures r.Some? ==> forall j :: i <= j < r.value ==> UploadAt(s, j).None?
    ensures r.None? ==> forall j :: i <= j <= |s| ==> UploadAt(s, j).None?
    decreases |s| - i
  {
    if UploadAt(s, i).Some? then Some(i)
    else if i == |s| then None
    else UploadSearch(s, i + 1)
  }

  /** `re.search(r'/data/upload/(\d+)/(.+?)(?:\?|$)', url)`: the project id
      (group 1) and the still percent-encoded file name (group 2). */
  function UploadMatch(url: string): Option<(string, string)> {
    match UploadSearch(url, 0)
    case Some(j) => UploadAt(url, j)
    case None => None
  }

  /** The pattern recovers the project id and the file name of an upload
      reference whose name carries no query and no newline. */
  lemma UploadRoundTrip(id: string, name: string)
    requires id != [] && forall k :: 0 <= k < |id| ==> IsDigit(id[k])
    requires name != [] && forall k :: 0 <= k < |name| ==> name[k] != '?' && name[k] != '\n'
    ensures UploadMatch(UploadPrefix + id + "/" + name) == Some((id, name))
  {
    var s := UploadPrefix + id + "/" + name;
    var d := 13 + |id|;
    assert s[0..][..13] == UploadPrefix;
    assert forall k :: 13 <= k < d ==> s[k] == id[k - 13];
    assert s[d] == '/';
    assert DigitsFrom(s, 13) == d;
    assert forall m :: d + 1 <= m < |s| ==> s[m] == name[m - d - 1];
    LazyEndRunsToEnd(s, d + 2, '?');
    assert s[13..d] == id;
    assert s[d + 1..|s|] == name;
    assert s[d + 1] == name[0];
    assert LazyGroup(s, d + 1, '?') == Some(name);
    assert StartsWith(s[0..], UploadPrefix);
    assert UploadAt(s, 0) == Some((id, name));
  }

  // ---------------------------------------------------------------------
  // re.search(r'/data/local-files/\?d=(.+?)(?:&|$)', url)
  // ---------------------------------------------------------------------

  const LocalFilesPrefix: string := "/data/local-files/?d="

  function LocalFilesAt(s: string, i: nat): (r: Option<string>)
    requires i <= |s|
    ensures r.Some? ==> i + |LocalFilesPrefix| + |r.value| <= |s|
    ensures r.Some? ==> s[i..i + |LocalFilesPrefix| + |r.value|] == LocalFilesPrefix + r.value
  {
    if StartsWith(s[i..], LocalFilesPrefix) then
      match LazyGroup(s, i + 21, '&')
      case Some(p) =>
        assert s[i..i + 21 + |p|] == s[i..i + 21] + p;
        Some(p)
      case None => None
    else None
  }

  /** Start of the leftmost match of the local-files pattern at or after `i`. */
  function LocalFilesSearch(s: string, i: nat): (r: Option<nat>)
    requires i <= |s|
    ensures r.Some? ==> i <= r.value <= |s| && LocalFilesAt(s, r.value).Some?
    ensures r.Some? ==> forall j :: i <= j < r.value ==> LocalFilesAt(s, j).None?
    ensures r.None? ==> forall j :: i <= j <= |s| ==> LocalFilesAt(s, j).None?
    decreases |s| - i
  {
    if LocalFilesAt(s, i).Some? then Some(i)
    else if i == |s| then None
    else LocalFilesSearch(s, i + 1)
  }

  /** `re.search(r'/data/local-files/\?d=(.+?)(?:&|$)', url)`: group 1, the
      still percent-encoded local path. */
  function LocalFilesMatch(url: string): Option<string> {
    match LocalFilesSearch(url, 0)
    case Some(j) => LocalFilesAt(url, j)
    case None => None
  }

  /** The pattern recovers the path of a local-files reference whose path
      carries no further parameter and no newline. */
  lemma LocalFilesRoundTrip(path: string)
    requires path != [] && forall k :: 0 <= k < |path| ==> path[k] != '&' && path[k] != '\n'
    ensures LocalFilesMatch(LocalFilesPrefix + path) == Some(path)
  {
    var s := LocalFilesPrefix + path;
    assert s[0..][..21] == LocalFilesPrefix;
    assert forall m :: 21 <= m < |s| ==> s[m] == path[m - 21];
    LazyEndRunsToEnd(s, 22, '&');
    assert s[21..|s|] == path;
    assert s[21] == path[0];
    assert LazyGroup(s, 21, '&') == Some(path);
    assert StartsWith(s[0..], LocalFilesPrefix);
    assert LocalFilesAt(s, 0) == Some(path);
  }

  // ---------------------------------------------------------------------
  // re.search(r'([^/]+\.(?:mp3|wav|ogg|flac|m4a))(?:\?|$)', url, re.IGNORECASE)
  // ---------------------------------------------------------------------

  const AudioExtensions: seq<string> := ["mp3", "wav", "ogg", "flac", "m4a"]

  /** ASCII lower-casing; none of the extensions' letters has a non-ASCII
      case-insensitive partner in Python's `re`. */
  function Lower(c: char): char {
    if 'A' <= c <= 'Z' then (c as int + 32) as char else c
  }

  /** `ext` matches case-insensitively at position `p`. */
  predicate ExtAt(s: string, p: nat, ext: string) {
    p + |ext| <= |s| && forall k :: 0 <= k < |ext| ==> Lower(s[p + k]) == ext[k]
  }

  /** The alternation `(?:mp3|...)` followed by `(?:\?|$)`, tried in order at
      `p`: the end of the first alternative that lets the whole tail match. */
  function FirstExtension(s: string, p: nat, exts: seq<string>): (r: Option<nat>)
    ensures r.Some? ==> exists k :: 0 <= k < |exts| && r.value == p + |exts[k]|
                          && ExtAt(s, p, exts[k]) && Follows(s, r.value, '?')
  {
    if exts == [] then None
    else if ExtAt(s, p, exts[0]) && Follows(s, p + |exts[0]|, '?') then Some(p + |exts[0]|)
    else FirstExtension(s, p, exts[1..])
  }

  /** With the dot of `\.` at `m`: where the match ends, if it can. */
  function ExtensionEnd(s: string, m: nat): (r: Option<nat>)
    ensures r.Some? ==> m < |s| && s[m] == '.' && m < r.value <= |s|
    ensures r.Some? ==> exists k :: 0 <= k < |AudioExtensions| && r.value == m + 1 + |AudioExtensions[k]|
                          && ExtAt(s, m + 1, AudioExtensions[k]) && Follows(s, r.value, '?')
  {
    if m < |s| && s[m] == '.' then FirstExtension(s, m + 1, AudioExtensions) else None
  }

  /** Backtracking from the right: the last position strictly between `i`
      and `hi` that satisfies `ok`, if there is one. */
  function LastWhere(ok: nat -> bool, i: nat, hi: nat): (r: Option<nat>)
    ensures r.Some? ==> i < r.value < hi && ok(r.value)
    ensures r.Some? ==> forall m :: r.value < m < hi ==> !ok(m)
    ensures r.None? ==> forall m :: i < m < hi ==> !ok(m)
    decreases hi
  {
    if hi <= i + 1 then None
    else if ok(hi - 1) then Some(hi - 1)
    else LastWhere(ok, i, hi - 1)
  }

  /** Greedy `[^/]+` from `i`: the dot of `\.` is tried at `hi - 1`, then
      further left, never at `i` itself (the class needs one character).
      Returns the rightmost dot position that lets the match complete. */
  function GreedyDot(s: string, i: nat, hi: nat): (r: Option<nat>)
    requires hi <= |s|
    ensures r.Some? ==> i < r.value < hi && ExtensionEnd(s, r.value).Some?
    ensures r.Some? ==> forall m :: r.value < m < hi ==> ExtensionEnd(s, m).None?
    ensures r.None? ==> forall m :: i < m < hi ==> ExtensionEnd(s, m).None?
  {
    var completes := (m: nat) => ExtensionEnd(s, m).Some?;
    assert forall m: nat :: completes(m) == ExtensionEnd(s, m).Some?;
    LastWhere(completes, i, hi)
  }

  /** Where an extension without '/' matches, the text has no '/'. */
  lemma ExtAtHasNoSlash(s: string, p: nat, ext: string)
    requires ExtAt(s, p, ext) && forall j :: 0 <= j < |ext| ==> ext[j] != '/'
    ensures forall q :: p <= q < p + |ext| ==> s[q] != '/'
  {
    forall q | p <= q < p + |ext|
      ensures s[q] != '/'
    {
      assert Lower(s[q]) == ext[q - p];
    }
  }

  /** No extension letter is a '/', so a match whose dot lies before a '/'
      also ends before it. */
  lemma ExtensionBeforeSlash(s: string, m: nat, hi: nat)
    requires m < hi <= |s| && (hi < |s| ==> s[hi] == '/')
    ensures ExtensionEnd(s, m).Some? ==> ExtensionEnd(s, m).value <= hi
  {
    var r := ExtensionEnd(s, m);
    if r.Some? {
      var k :| 0 <= k < |AudioExtensions| && r.value == m + 1 + |AudioExtensions[k]|
                && ExtAt(s, m + 1, AudioExtensions[k]) && Follows(s, r.value, '?');
      ExtensionLetters(k);
      ExtAtHasNoSlash(s, m + 1, AudioExtensions[k]);
    }
  }

  /** End of the audio-name match starting exactly at `i`. */
  function AudioAt(s: string, i: nat): (r: Option<nat>)
    ensures r.Some? ==> i < r.value <= |s|
    ensures r.Some? ==> r.value <= SlashFrom(s, i) && Follows(s, r.value, '?')
  {
    if i < |s| && s[i] != '/' then
      var hi := SlashFrom(s, i);
      match GreedyDot(s, i, hi)
      case Some(m) =>
        ExtensionBeforeSlash(s, m, hi);
        ExtensionEnd(s, m)
      case None => None
    else None
  }

  /** Scanning from the left: the first position from `i` up to `hi`
      (exclusive) that satisfies `ok`, if there is one. */
  function FirstWhere(ok: nat -> bool, i: nat, hi: nat): (r: Option<nat>)
    requires i <= hi
    ensures r.Some? ==> i <= r.value < hi && ok(r.value)
    ensures r.Some? ==> forall j :: i <= j < r.value ==> !ok(j)
    ensures r.None? ==> forall j :: i <= j < hi ==> !ok(j)
    decreases hi - i
  {
    if i == hi then None
    else if ok(i) then Some(i)
    else FirstWhere(ok, i + 1, hi)
  }

  /** The scan stops at the first position that satisfies `ok`. */
  lemma {:induction false} FirstWhereFinds(ok: nat -> bool, i: nat, from: nat, hi: nat)
    requires from <= i < hi && ok(i)
    requires forall j :: from <= j < i ==> !ok(j)
    ensures FirstWhere(ok, from, hi) == Some(i)
    decreases i - from
  {
    if from < i {
      FirstWhereFinds(ok, i, from + 1, hi);
    }
  }

  /** Start of the leftmost audio-name match at or after `i`: `re.search`
      tries each start in turn. */
  function AudioSearch(s: string, i: nat): (r: Option<nat>)
    requires i <= |s|
    ensures r.Some? ==> i <= r.value < |s| && AudioAt(s, r.value).Some?
    ensures r.Some? ==> forall j :: i <= j < r.value ==> AudioAt(s, j).None?
    ensures r.None? ==> forall j :: i <= j < |s| ==> AudioAt(s, j).None?
  {
    var matches := (j: nat) => AudioAt(s, j).Some?;
    assert forall j: nat :: matches(j) == AudioAt(s, j).Some?;
    FirstWhere(matches, i, |s|)
  }

  /** `re.search(r'([^/]+\.(?:mp3|wav|ogg|flac|m4a))(?:\?|$)', url, re.I)`:
      group 1, an audio file name without any '/'. */
  function AudioNameMatch(url: string): Option<string> {
    match AudioSearch(url, 0)
    case Some(j) => Some(url[j..AudioAt(url, j).value])
    case None => None
  }

  /** The alternation succeeds when any of its alternatives can complete
      the match. */
  lemma {:induction false} FirstExtensionFinds(s: string, p: nat, exts: seq<string>, k: nat)
    requires k < |exts| && ExtAt(s, p, exts[k]) && Follows(s, p + |exts[k]|, '?')
    ensures FirstExtension(s, p, exts).Some?
  {
    if !(ExtAt(s, p, exts[0]) && Follows(s, p + |exts[0]|, '?')) {
      assert exts[1..][k - 1] == exts[k];
      FirstExtensionFinds(s, p, exts[1..], k - 1);
    }
  }

  /** The extensions are lower-case letters and digits. */
  lemma ExtensionLetters(e: nat)
    requires e < |AudioExtensions|
    ensures forall k :: 0 <= k < |AudioExtensions[e]| ==>
              var c := AudioExtensions[e][k];
              c != '/' && c != '?' && c != '\n' && c != '.' && Lower(c) == c
  {
  }

  /** A final `.ext` completes the match at its dot. */
  lemma ExtensionAtEnd(pre: string, e: nat)
    requires e < |AudioExtensions|
    ensures ExtensionEnd(pre + "." + AudioExtensions[e], |pre|).Some?
  {
    var ext := AudioExtensions[e];
    var s := pre + "." + ext;
    ExtensionLetters(e);
    assert forall k :: 0 <= k < |ext| ==> s[|pre| + 1 + k] == ext[k];
    assert ExtAt(s, |pre| + 1, ext);
    FirstExtensionFinds(s, |pre| + 1, AudioExtensions, e);
  }

  /** A match that starts where no '/' or '?' follows, and that has an
      extension somewhere ahead, runs to the end of the string. */
  lemma AudioAtToEnd(s: string, i: nat, m: nat)
    requires i < m < |s| && s[|s| - 1] != '\n'
    requires forall k :: i <= k < |s| ==> s[k] != '/' && s[k] != '?'
    requires ExtensionEnd(s, m).Some?
    ensures AudioAt(s, i) == Some(|s|)
  {
    assert SlashFrom(s, i) == |s|;
    assert GreedyDot(s, i, |s|).Some?;
  }

  /** No match starts at or before a '/' that has no '?' before it. */
  lemma NoAudioBeforeSlash(s: string, p: nat)
    requires p + 1 < |s| && s[p] == '/'
    requires forall k :: 0 <= k < p ==> s[k] != '?'
    ensures forall j :: 0 <= j <= p ==> AudioAt(s, j).None?
  {
    forall j | 0 <= j <= p
      ensures AudioAt(s, j).None?
    {
      if j < p && s[j] != '/' {
        assert SlashFrom(s, j) <= p;
      }
    }
  }

  /** The search reports the first start at which a match exists. */
  lemma AudioSearchFinds(s: string, i: nat)
    requires i < |s| && AudioAt(s, i).Some?
    requires forall j :: 0 <= j < i ==> AudioAt(s, j).None?
    ensures AudioSearch(s, 0) == Some(i)
  {
    var matches := (j: nat) => AudioAt(s, j).Some?;
    assert forall j: nat :: matches(j) == AudioAt(s, j).Some?;
    FirstWhereFinds(matches, i, 0, |s|);
  }

  /** The name search is given everything after the last '/' when that part
      has an audio extension and no '?' occurs anywhere. */
  lemma AudioNameAfterSlash(s: string, p: nat, m: nat)
    requires p + 1 < m < |s| && s[p] == '/' && s[|s| - 1] != '\n'
    requires forall k :: 0 <= k < |s| ==> s[k] != '?'
    requires forall k :: p < k < |s| ==> s[k] != '/'
    requires ExtensionEnd(s, m).Some?
    ensures AudioNameMatch(s) == Some(s[p + 1..])
  {
    AudioAtToEnd(s, p + 1, m);
    NoAudioBeforeSlash(s, p);
    AudioSearchFinds(s, p + 1);
    assert s[p + 1..|s|] == s[p + 1..];
  }

  /** Where the separators of `dir/base.ext` lie. */
  lemma PathLayout(dir: string, base: string, ext: string)
    requires forall k :: 0 <= k < |dir| ==> dir[k] != '?'
    requires forall k :: 0 <= k < |base| ==> base[k] != '/' && base[k] != '?'
    requires ext != [] && forall k :: 0 <= k < |ext| ==> ext[k] != '/' && ext[k] != '?' && ext[k] != '\n'
    ensures var s := dir + "/" + base + "." + ext;
      && s[|dir|] == '/' && s[|s| - 1] != '\n'
      && (forall k :: 0 <= k < |s| ==> s[k] != '?')
      && (forall k :: |dir| < k < |s| ==> s[k] != '/')
      && s[|dir| + 1..] == base + "." + ext
  {
    var s := dir + "/" + base + "." + ext;
    assert forall k :: 0 <= k < |dir| ==> s[k] == dir[k];
    assert forall k :: |dir| < k <= |dir| + |base| ==> s[k] == base[k - |dir| - 1];
    assert forall k :: |dir| + |base| + 1 < k < |s| ==> s[k] == ext[k - |dir| - |base| - 2];
  }

  /** The name search is given the file name of a path that ends in an audio
      extension, whatever directories precede it (as long as they carry no
      query mark). */
  lemma AudioNameOfPath(dir: string, base: string, e: nat)
    requires e < |AudioExtensions|
    requires forall k :: 0 <= k < |dir| ==> dir[k] != '?'
    requires base != [] && forall k :: 0 <= k < |base| ==> base[k] != '/' && base[k] != '?'
    ensures AudioNameMatch(dir + "/" + base + "." + AudioExtensions[e]) == Some(base + "." + AudioExtensions[e])
  {
    var pre := dir + "/" + base;
    var s := pre + "." + AudioExtensions[e];
    AudioPathLayout(dir, base, e);
    ExtensionAtEnd(pre, e);
    AudioNameOfLayout(s, |dir|, |pre|, base + "." + AudioExtensions[e]);
  }

  /** `AudioNameAfterSlash`, with the file name given by its value. */
  lemma AudioNameOfLayout(s: string, p: nat, m: nat, name: string)
    requires p + 1 < m < |s| && s[p] == '/' && s[|s| - 1] != '\n'
    requires forall k :: 0 <= k < |s| ==> s[k] != '?'
    requires forall k :: p < k < |s| ==> s[k] != '/'
    requires ExtensionEnd(s, m).Some? && s[p + 1..] == name
    ensures AudioNameMatch(s) == Some(name)
  {
    AudioNameAfterSlash(s, p, m);
  }

  /** The layout of `dir/base.ext` for one of the five extensions, stated as
      the preconditions of `AudioNameAfterSlash`. */
  lemma AudioPathLayout(dir: string, base: string, e: nat)
    requires e < |AudioExtensions|
    requires forall k :: 0 <= k < |dir| ==> dir[k] != '?'
    requires base != [] && forall k :: 0 <= k < |base| ==> base[k] != '/' && base[k] != '?'
    ensures var pre := dir + "/" + base; var s := pre + "." + AudioExtensions[e];
      && |dir| + 1 < |pre| < |s| && s[|dir|] == '/' && s[|s| - 1] != '\n'
      && (forall k :: 0 <= k < |s| ==> s[k] != '?')
      && (forall k :: |dir| < k < |s| ==> s[k] != '/')
      && s[|dir| + 1..] == base + "." + AudioExtensions[e]
  {
    ExtensionLetters(e);
    PathLayout(dir, base, AudioExtensions[e]);
  }
}
