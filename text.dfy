/** String operations the core relies on: character search, ASCII lower-casing,
    `String.prototype.split('.').pop()` and Node's `path.extname`. */
module Text {

  /** Index of the first c in s, or |s| when there is none. */
  function IndexOf(s: string, c: char): (i: nat)
    ensures i <= |s|
    ensures i < |s| ==> s[i] == c
    ensures forall k :: 0 <= k < i ==> s[k] != c
    decreases |s|
  {
    if |s| == 0 then 0
    else if s[0] == c then 0
    else 1 + IndexOf(s[1..], c)
  }

  /** Index of the last c in s, or -1 when there is none. */
  function LastIndexOf(s: string, c: char): (i: int)
    ensures -1 <= i < |s|
    ensures 0 <= i ==> s[i] == c
    ensures forall k :: i < k < |s| ==> s[k] != c
    decreases |s|
  {
    if |s| == 0 then -1
    else if s[|s| - 1] == c then |s| - 1
    else LastIndexOf(s[..|s| - 1], c)
  }

  function LowerChar(c: char): char {
    if 'A' <= c <= 'Z' then (c as int + 32) as char else c
  }

  /** `toLowerCase()` on the ASCII letters; every other character is kept. */
  function Lower(s: string): (t: string)
    ensures |t| == |s|
    ensures forall i :: 0 <= i < |s| ==> t[i] == LowerChar(s[i])
  {
    seq(|s|, i requires 0 <= i < |s| => LowerChar(s[i]))
  }

  /** `s.split('.').pop()`: the text after the last '.', or all of s when it has none. */
  function AfterLastDot(s: string): (t: string)
    ensures |t| <= |s| && t == s[|s| - |t|..]
    ensures forall j :: 0 <= j < |t| ==> t[j] != '.'
    ensures |t| < |s| ==> s[|s| - |t| - 1] == '.'
  {
    s[LastIndexOf(s, '.') + 1..]
  }

  /** s without its trailing '/' characters. */
  function TrimTrailingSlashes(s: string): (t: string)
    ensures |t| <= |s| && t == s[..|t|]
    ensures t == [] || t[|t| - 1] != '/'
    ensures forall k :: |t| <= k < |s| ==> s[k] == '/'
    decreases |s|
  {
    if |s| > 0 && s[|s| - 1] == '/' then TrimTrailingSlashes(s[..|s| - 1]) else s
  }

  /** The last path segment, trailing separators ignored: the part of the trimmed
      path after its last '/', or all of it when it has none. */
  function Basename(path: string): (b: string)
    ensures forall j :: 0 <= j < |b| ==> b[j] != '/'
    ensures var t := TrimTrailingSlashes(path);
      && |b| <= |t| && b == t[|t| - |b|..]
      && (|b| < |t| ==> t[|t| - |b| - 1] == '/')
  {
    var t := TrimTrailingSlashes(path);
    t[LastIndexOf(t, '/') + 1..]
  }

  /** Node's POSIX `path.extname`: from the last '.' of the last segment to its end;
      empty when the segment has no '.', when that '.' opens the segment (".png"),
      and for the segment "..". */
  function Extname(path: string): (e: string)
    ensures e != [] ==> e[0] == '.'
    ensures forall j :: 0 < j < |e| ==> e[j] != '.' && e[j] != '/'
    ensures e != [] ==> |e| < |Basename(path)| && e == Basename(path)[|Basename(path)| - |e|..]
    ensures var b := Basename(path);
      e == [] <==> b == ".." || forall k :: 0 < k < |b| ==> b[k] != '.'
  {
    var b := Basename(path);
    var d := LastIndexOf(b, '.');
    if d <= 0 || b == ".." then []
    else
      b[d..]
  }
}
