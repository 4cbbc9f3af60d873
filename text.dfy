/**
 * The JavaScript string and array built-ins the application leans on:
 * the `\s` character class (which `String.prototype.trim` also uses),
 * `trim`, `toLowerCase`, `includes`, `startsWith` and `slice(0, end)`.
 */
module Text {
  import opened Wrappers

  /** JavaScript's WhiteSpace and LineTerminator code points: the class `\s`. */
  predicate IsSpace(c: char) {
    c == '\t' || c == '\n' || c == '\U{000B}' || c == '\U{000C}' || c == '\r' || c == ' '
    || c == '\U{00A0}' || c == '\U{1680}' || ('\U{2000}' <= c <= '\U{200A}')
    || c == '\U{2028}' || c == '\U{2029}' || c == '\U{202F}' || c == '\U{205F}'
    || c == '\U{3000}' || c == '\U{FEFF}'
  }

  predicate AllSpace(s: string) {
    forall i :: 0 <= i < |s| ==> IsSpace(s[i])
  }

  /** `s.trimStart()`: drops the longest all-space prefix. */
  function TrimStart(s: string): (r: string)
    ensures |r| <= |s| && r == s[|s| - |r|..]
    ensures AllSpace(s[..|s| - |r|])
    ensures r == [] || !IsSpace(r[0])
  {
    if s != [] && IsSpace(s[0]) then TrimStart(s[1..]) else s
  }

  lemma TrimStartNonSpace(u: string)
    requires u == [] || !IsSpace(u[0])
    ensures TrimStart(u) == u
  {
  }

  /** White space before a string that does not start with one is all `trimStart` drops. */
  lemma {:induction false} TrimStartAfterSpace(ws: string, u: string)
    requires AllSpace(ws) && (u == [] || !IsSpace(u[0]))
    ensures TrimStart(ws + u) == u
    decreases |ws|
  {
    if ws == [] {
      assert ws + u == u;
    } else {
      assert (ws + u)[1..] == ws[1..] + u;
      TrimStartAfterSpace(ws[1..], u);
    }
  }

  lemma Regroup3(a: string, b: string, c: string)
    ensures a + b + c == a + (b + c)
  {
  }

  lemma Regroup(a: string, b: string, c: string, d: string)
    ensures a + b + c + d == a + (b + (c + d))
  {
  }

  /** `s.trimEnd()`: drops the longest all-space suffix. */
  function TrimEnd(s: string): (r: string)
    ensures |r| <= |s| && r == s[..|r|]
    ensures AllSpace(s[|r|..])
    ensures r == [] || !IsSpace(r[|r| - 1])
  {
    if s != [] && IsSpace(s[|s| - 1]) then TrimEnd(s[..|s| - 1]) else s
  }

  /** `s.trim()`. */
  function Trim(s: string): string {
    TrimEnd(TrimStart(s))
  }

  /** A string trims to empty exactly when it is all space (JavaScript's `!s.trim()`). */
  lemma TrimEmptyIffAllSpace(s: string)
    ensures Trim(s) == [] <==> AllSpace(s)
  {
    var t := TrimStart(s);
    if Trim(s) == [] {
      assert t == t[..0] + t[0..];
      assert AllSpace(t);
      assert s == s[..|s| - |t|] + t;
    }
  }

  /** Trimming twice is trimming once. */
  lemma TrimIdempotent(s: string)
    ensures Trim(Trim(s)) == Trim(s)
  {
    var r := Trim(s);
    if r != [] {
      assert !IsSpace(r[0]) && !IsSpace(r[|r| - 1]);
      assert TrimStart(r) == r;
      assert TrimEnd(r) == r;
    }
  }

  /** A string with no space at either end trims to itself. */
  lemma TrimKeepsInnerText(s: string)
    requires s != [] && !IsSpace(s[0]) && !IsSpace(s[|s| - 1])
    ensures Trim(s) == s
  {
  }

  /** `c.toLowerCase()` for the ASCII letters; every other character is left as it is. */
  function LowerChar(c: char): char {
    if 'A' <= c <= 'Z' then (c as int + 32) as char else c
  }

  /** `s.toLowerCase()`, character by character. */
  function Lower(s: string): (r: string)
    ensures |r| == |s|
    ensures forall i :: 0 <= i < |s| ==> r[i] == LowerChar(s[i])
  {
    if s == [] then [] else [LowerChar(s[0])] + Lower(s[1..])
  }

  /** A string whose characters lower-case one by one to those of `u` lower-cases to `u`. */
  lemma LowerEach(s: string, u: string)
    requires |s| == |u| && forall i :: 0 <= i < |s| ==> LowerChar(s[i]) == u[i]
    ensures Lower(s) == u
  {
  }

  /** `s.includes(sub)`: `sub` occurs in `s` at some position. */
  function Includes(s: string, sub: string): (r: bool)
    ensures r <==> exists i :: 0 <= i <= |s| - |sub| && sub <= s[i..]
  {
    if sub <= s then
      assert s[0..] == s;
      true
    else if s == [] then
      false
    else
      var r := Includes(s[1..], sub);
      assert forall i :: 1 <= i <= |s| - |sub| ==> s[i..] == s[1..][i - 1..];
      assert r ==> exists i :: 0 <= i <= |s| - |sub| && sub <= s[i..] by {
        if r {
          var j :| 0 <= j <= |s| - 1 - |sub| && sub <= s[1..][j..];
          assert s[j + 1..] == s[1..][j..];
        }
      }
      r
  }

  /** JavaScript truthiness of an optional string: present and not empty. */
  predicate Truthy(o: Option<string>) {
    o.Some? && o.value != []
  }

  /** `a || b` on optional strings. */
  function JsOr(a: Option<string>, b: Option<string>): Option<string> {
    if Truthy(a) then a else b
  }

  /** `a || fallback`. */
  function OrDefault(a: Option<string>, fallback: string): string {
    if Truthy(a) then a.value else fallback
  }

  /** `s.startsWith(p)`. */
  predicate StartsWith(s: string, p: string) {
    p <= s
  }

  /** The end index `xs.slice(0, end)` stops at: negative counts back from the end, both clamped. */
  function SliceEnd(len: nat, end: int): (k: nat)
    ensures k <= len
    ensures 0 <= end ==> k == if end < len then end else len
    ensures end < 0 ==> k == if len + end < 0 then 0 else len + end
  {
    if end < 0 then (if len + end < 0 then 0 else len + end)
    else if end < len then end else len
  }

  /** `xs.slice(0, end)`. */
  function SliceTo<T>(xs: seq<T>, end: int): (r: seq<T>)
    ensures r <= xs
  {
    xs[..SliceEnd(|xs|, end)]
  }

  /** `s.indexOf(sep)` for a non-empty separator: the first position where `sep` occurs. */
  function IndexOf(s: string, sep: string): (r: Option<nat>)
    requires sep != []
    ensures r.Some? ==> r.value + |sep| <= |s| && sep <= s[r.value..]
    ensures r.Some? ==> forall j :: 0 <= j < r.value ==> !(sep <= s[j..])
    ensures r.None? ==> forall j :: 0 <= j <= |s| ==> !(sep <= s[j..])
    decreases |s|
  {
    if |s| < |sep| then None
    else if sep <= s then Some(0)
    else
      match IndexOf(s[1..], sep)
      case None =>
        assert forall j :: 1 <= j <= |s| ==> s[j..] == s[1..][j - 1..];
        None
      case Some(i) =>
        assert forall j :: 1 <= j <= i + 1 ==> s[j..] == s[1..][j - 1..];
        Some(i + 1)
  }

  /** `s.split(sep)` for a non-empty separator. */
  function Split(s: string, sep: string): (parts: seq<string>)
    requires sep != []
    ensures |parts| >= 1
    decreases |s|
  {
    match IndexOf(s, sep)
    case None => [s]
    case Some(i) => [s[..i]] + Split(s[i + |sep|..], sep)
  }

  /** Splitting at a separator that first occurs right after `a` yields `a`, then the parts of the rest. */
  lemma SplitAtFirst(a: string, sep: string, b: string)
    requires sep != [] && IndexOf(a + sep + b, sep) == Some(|a|)
    ensures Split(a + sep + b, sep) == [a] + Split(b, sep)
  {
    var s := a + sep + b;
    assert s[..|a|] == a;
    assert s[|a| + |sep|..] == b;
  }

  /** A separator whose first character is absent from `a` occurs first right after `a`. */
  lemma IndexOfAfter(a: string, sep: string, b: string)
    requires sep != [] && sep[0] !in a
    ensures IndexOf(a + sep + b, sep) == Some(|a|)
  {
    var s := a + sep + b;
    assert s[|a|..] == sep + b;
    forall j | 0 <= j < |a|
      ensures !(sep <= s[j..])
    {
      assert s[j] == a[j];
    }
  }

  /** A string in which `sub` does not occur has no `indexOf` for it. */
  lemma IndexOfNotIncluded(s: string, sub: string)
    requires sub != [] && !Includes(s, sub)
    ensures IndexOf(s, sub).None?
  {
  }

  /** `parts.join(sep)`. */
  function Join(parts: seq<string>, sep: string): string
    requires parts != []
  {
    if |parts| == 1 then parts[0] else parts[0] + sep + Join(parts[1..], sep)
  }

  /** Joining one more part adds a separator and that part at the end. */
  lemma {:induction false} JoinSnoc(ps: seq<string>, p: string, sep: string)
    requires ps != []
    ensures Join(ps + [p], sep) == Join(ps, sep) + sep + p
    decreases |ps|
  {
    if |ps| == 1 {
      assert (ps + [p])[1..] == [p];
    } else {
      assert (ps + [p])[1..] == ps[1..] + [p];
      JoinSnoc(ps[1..], p, sep);
    }
  }

  lemma NoCharNoIndex(s: string, c: char)
    requires c !in s
    ensures IndexOf(s, [c]).None?
  {
    forall j | 0 <= j <= |s|
      ensures !([c] <= s[j..])
    {
      if j < |s| {
        assert s[j..][0] == s[j];
      }
    }
  }

  /** Splitting a join at a one-character separator that no part contains gives the parts back. */
  lemma {:induction false} SplitJoin(parts: seq<string>, c: char)
    requires parts != [] && forall i :: 0 <= i < |parts| ==> c !in parts[i]
    ensures Split(Join(parts, [c]), [c]) == parts
    decreases |parts|
  {
    if |parts| == 1 {
      NoCharNoIndex(parts[0], c);
    } else {
      var rest := Join(parts[1..], [c]);
      IndexOfAfter(parts[0], [c], rest);
      SplitAtFirst(parts[0], [c], rest);
      SplitJoin(parts[1..], c);
      assert [parts[0]] + parts[1..] == parts;
    }
  }

  /** A string with no occurrence of the separator is its own only part. */
  lemma SplitWithout(s: string, sep: string)
    requires sep != [] && IndexOf(s, sep).None?
    ensures Split(s, sep) == [s]
  {
  }
}
