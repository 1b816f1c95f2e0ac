/** Small shared vocabulary: an optional value, JavaScript's notion of
    white space (used by `trim()`, `\s` and `\S`), sums of counts and the
    `Array.prototype.join` of strings. */
module Common {

  datatype Option<+T> = None | Some(value: T) {
    function GetOr(default: T): T {
      match this
      case Some(v) => v
      case None => default
    }
  }

  /** The characters ECMAScript counts as WhiteSpace or LineTerminator. */
  predicate IsSpace(c: char) {
    c == ' ' || c == '\t' || c == '\n' || c == '\r' || c == '\U{B}' || c == '\U{C}'
    || c == '\U{A0}' || c == '\U{1680}' || ('\U{2000}' <= c <= '\U{200A}')
    || c == '\U{2028}' || c == '\U{2029}' || c == '\U{202F}' || c == '\U{205F}'
    || c == '\U{3000}' || c == '\U{FEFF}'
  }

  predicate IsBlank(s: string) {
    forall i :: 0 <= i < |s| ==> IsSpace(s[i])
  }

  predicate NoSpace(s: string) {
    forall i :: 0 <= i < |s| ==> !IsSpace(s[i])
  }

  /** `s.trimStart()`: drops the leading white space. */
  function TrimStart(s: string): (r: string)
    ensures |r| <= |s| && r == s[|s| - |r|..]
    ensures r == [] || !IsSpace(r[0])
    ensures r == [] <==> IsBlank(s)
  {
    if |s| > 0 && IsSpace(s[0]) then
      var r := TrimStart(s[1..]);
      assert IsBlank(s[1..]) ==> IsBlank(s) by {
        if IsBlank(s[1..]) {
          forall i | 1 <= i < |s| ensures IsSpace(s[i]) { assert s[i] == s[1..][i - 1]; }
        }
      }
      r
    else s
  }

  /** `s.trimEnd()`: drops the trailing white space. */
  function TrimEnd(s: string): (r: string)
    ensures |r| <= |s| && r == s[..|r|]
    ensures r == [] || !IsSpace(r[|r| - 1])
    ensures r == [] <==> IsBlank(s)
  {
    if |s| > 0 && IsSpace(s[|s| - 1]) then
      var r := TrimEnd(s[..|s| - 1]);
      assert IsBlank(s[..|s| - 1]) ==> IsBlank(s) by {
        if IsBlank(s[..|s| - 1]) {
          forall i | 0 <= i < |s| - 1 ensures IsSpace(s[i]) { assert s[i] == s[..|s| - 1][i]; }
        }
      }
      r
    else s
  }

  /** `s.trim()`; `!s.trim()` in the source holds exactly when every
      character is white space. */
  function Trim(s: string): (r: string)
    ensures r == "" <==> IsBlank(s)
    ensures r == [] || (!IsSpace(r[0]) && !IsSpace(r[|r| - 1]))
  {
    var t := TrimStart(s);
    var r := TrimEnd(t);
    assert r != [] ==> r[0] == t[0];
    r
  }

  function Sum(s: seq<int>): int {
    if s == [] then 0 else Sum(s[..|s| - 1]) + s[|s| - 1]
  }

  lemma {:induction false} SumNonNegative(s: seq<int>)
    requires forall i :: 0 <= i < |s| ==> s[i] >= 0
    ensures Sum(s) >= 0
  {
    if s != [] {
      SumNonNegative(s[..|s| - 1]);
    }
  }

  /** `parts.join(sep)`. */
  function Join(parts: seq<string>, sep: string): string {
    if |parts| == 0 then ""
    else if |parts| == 1 then parts[0]
    else Join(parts[..|parts| - 1], sep) + sep + parts[|parts| - 1]
  }

  /** Joining non-empty parts gives the empty string only for no parts. */
  lemma JoinEmptyIffNoParts(parts: seq<string>, sep: string)
    requires forall i :: 0 <= i < |parts| ==> parts[i] != ""
    ensures Join(parts, sep) == "" <==> parts == []
  {
    if |parts| > 1 {
      var last := parts[|parts| - 1];
      assert |Join(parts, sep)| >= |last| > 0;
    }
  }
}
