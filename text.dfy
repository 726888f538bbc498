/** The pieces of Python's string runtime that the cleaners depend on:
    the whitespace class shared by the regular-expression `\s` and by
    `str.strip()`, `str.strip()` itself, `" ".join(...)` and the ASCII part
    of `str.lower()`. */
module Text {

  /** Python's `str.isspace()`: the characters that a Unicode `\s` matches
      and that `str.strip()` removes. */
  predicate IsWhitespace(c: char) {
    var n := c as int;
    || 0x09 <= n <= 0x0D
    || 0x1C <= n <= 0x20
    || n == 0x85 || n == 0xA0 || n == 0x1680
    || 0x2000 <= n <= 0x200A
    || n == 0x2028 || n == 0x2029 || n == 0x202F || n == 0x205F || n == 0x3000
  }

  /** No whitespace character at either end. */
  predicate Trimmed(s: string) {
    s == [] || (!IsWhitespace(s[0]) && !IsWhitespace(s[|s| - 1]))
  }

  /** No two whitespace characters stand next to each other. */
  predicate NoDoubleWhitespace(s: string) {
    forall i :: 0 <= i < |s| - 1 ==> !IsWhitespace(s[i]) || !IsWhitespace(s[i + 1])
  }

  /** Every character is whitespace (the empty string included). */
  predicate AllWhitespace(s: string) {
    forall i :: 0 <= i < |s| ==> IsWhitespace(s[i])
  }

  /** The length of the whitespace run that starts `s`. */
  function LeadingWhitespace(s: string): (n: nat)
    ensures n <= |s|
    ensures forall i :: 0 <= i < n ==> IsWhitespace(s[i])
    ensures n < |s| ==> !IsWhitespace(s[n])
  {
    if s != [] && IsWhitespace(s[0]) then 1 + LeadingWhitespace(s[1..]) else 0
  }

  /** The length of the whitespace run that ends `s`. */
  function TrailingWhitespace(s: string): (n: nat)
    ensures n <= |s|
    ensures forall i :: |s| - n <= i < |s| ==> IsWhitespace(s[i])
    ensures n < |s| ==> !IsWhitespace(s[|s| - 1 - n])
  {
    if s != [] && IsWhitespace(s[|s| - 1]) then 1 + TrailingWhitespace(s[..|s| - 1]) else 0
  }

  /** `str.strip()` with no argument. */
  function Strip(s: string): (r: string)
    ensures Trimmed(r)
    ensures |r| <= |s|
    ensures Trimmed(s) ==> r == s
    ensures NoDoubleWhitespace(s) ==> NoDoubleWhitespace(r)
  {
    var t := s[LeadingWhitespace(s)..];
    var r := t[..|t| - TrailingWhitespace(t)];
    assert r == s[LeadingWhitespace(s)..LeadingWhitespace(s) + |r|];
    r
  }

  /** `s.strip() == ""`, the blank test the toggle cleaners apply to a token's text. */
  function IsBlank(s: string): (blank: bool)
    ensures blank <==> AllWhitespace(s)
  {
    var a := LeadingWhitespace(s);
    var t := s[a..];
    assert a < |s| ==> t[0] == s[a];
    Strip(s) == []
  }

  /** The total length of `parts`. */
  function TotalLength(parts: seq<string>): nat
  {
    if parts == [] then 0 else |parts[0]| + TotalLength(parts[1..])
  }

  /** `sep.join(parts)`: the parts in order with one separator between each
      two neighbours, so it starts with the first part and is as long as the
      parts plus `|parts| - 1` separators. */
  function Join(sep: string, parts: seq<string>): (r: string)
    ensures parts != [] ==> parts[0] <= r
    ensures |r| == TotalLength(parts) + (if parts == [] then 0 else |sep| * (|parts| - 1))
  {
    if parts == [] then []
    else if |parts| == 1 then parts[0]
    else parts[0] + sep + Join(sep, parts[1..])
  }

  /** The concatenation of `parts`, i.e. `"".join(parts)`. */
  function Concat(parts: seq<string>): string
  {
    if parts == [] then [] else parts[0] + Concat(parts[1..])
  }

  /** The visible (non-whitespace) characters of `s`, in order. */
  function Visible(s: string): string
  {
    if s == [] then []
    else (if IsWhitespace(s[0]) then [] else [s[0]]) + Visible(s[1..])
  }

  lemma {:induction false} VisibleAppend(a: string, b: string)
    ensures Visible(a + b) == Visible(a) + Visible(b)
  {
    if a == [] {
      assert a + b == b;
    } else {
      assert (a + b)[0] == a[0];
      assert (a + b)[1..] == a[1..] + b;
      VisibleAppend(a[1..], b);
    }
  }

  lemma {:induction false} VisibleOfWhitespace(s: string)
    requires AllWhitespace(s)
    ensures Visible(s) == []
  {
    if s != [] {
      VisibleOfWhitespace(s[1..]);
    }
  }

  /** A trimmed string with no visible character is empty. */
  lemma TrimmedInvisibleIsEmpty(s: string)
    requires Trimmed(s) && Visible(s) == []
    ensures s == []
  {
  }

  /** `str.strip()` only removes whitespace. */
  lemma StripKeepsVisible(s: string)
    ensures Visible(Strip(s)) == Visible(s)
  {
    var a := LeadingWhitespace(s);
    var t := s[a..];
    var b := |t| - TrailingWhitespace(t);
    assert s == s[..a] + t;
    assert t == t[..b] + t[b..];
    VisibleAppend(s[..a], t);
    VisibleAppend(t[..b], t[b..]);
    VisibleOfWhitespace(s[..a]);
    VisibleOfWhitespace(t[b..]);
  }

  /** Joining with a whitespace separator adds no visible character. */
  lemma {:induction false} JoinVisible(sep: string, parts: seq<string>)
    requires AllWhitespace(sep)
    ensures Visible(Join(sep, parts)) == Visible(Concat(parts))
  {
    if |parts| == 1 {
      assert parts[1..] == [];
      assert Concat(parts) == parts[0] + Concat(parts[1..]);
      assert parts[0] + [] == parts[0];
    } else if |parts| > 1 {
      JoinVisible(sep, parts[1..]);
      VisibleAppend(parts[0] + sep, Join(sep, parts[1..]));
      VisibleAppend(parts[0], sep);
      VisibleOfWhitespace(sep);
      VisibleAppend(parts[0], Concat(parts[1..]));
    }
  }

  /** `Concat` of strings that are all empty is empty. */
  lemma {:induction false} ConcatOfEmpties(parts: seq<string>)
    requires forall i :: 0 <= i < |parts| ==> parts[i] == []
    ensures Concat(parts) == []
  {
    if parts != [] {
      ConcatOfEmpties(parts[1..]);
    }
  }

  /** The ASCII part of `str.lower()` on one character. */
  function LowerChar(c: char): char
  {
    if 'A' <= c <= 'Z' then (c as int + 32) as char else c
  }

  predicate IsUpperAscii(c: char) {
    'A' <= c <= 'Z'
  }

  /** `str.lower()`, on ASCII letters. */
  function Lower(s: string): (r: string)
    ensures |r| == |s|
    ensures forall i :: 0 <= i < |s| ==> !IsUpperAscii(r[i])
    ensures forall i :: 0 <= i < |s| && !IsUpperAscii(s[i]) ==> r[i] == s[i]
    ensures forall i :: 0 <= i < |s| && IsUpperAscii(s[i]) ==>
      'a' <= r[i] <= 'z' && r[i] as int - 'a' as int == s[i] as int - 'A' as int
  {
    seq(|s|, i requires 0 <= i < |s| => LowerChar(s[i]))
  }

  /** `k` spaces. */
  function Spaces(k: nat): (r: string)
    ensures |r| == k && AllWhitespace(r)
  {
    seq(k, i => ' ')
  }

  /** One space more is one space appended. */
  lemma SpacesSucc(k: nat)
    ensures Spaces(k + 1) == Spaces(k) + " "
  {
    assert forall i :: 0 <= i < k + 1 ==> Spaces(k + 1)[i] == (Spaces(k) + " ")[i];
  }

  /** A string with no whitespace character at all, such as a single word. */
  predicate NoWhitespace(s: string) {
    forall i :: 0 <= i < |s| ==> !IsWhitespace(s[i])
  }

  /** The non-empty strings of `parts`, in order. */
  function NonEmpty(parts: seq<string>): (r: seq<string>)
    ensures |r| <= |parts|
    ensures forall i :: 0 <= i < |r| ==> r[i] != []
  {
    if parts == [] then []
    else (if parts[0] == [] then [] else [parts[0]]) + NonEmpty(parts[1..])
  }

  /** Dropping the empty strings keeps every remaining part as it was, so a
      property of all parts holds of the non-empty ones. */
  lemma {:induction false} NonEmptyNoWhitespace(parts: seq<string>)
    requires forall i :: 0 <= i < |parts| ==> NoWhitespace(parts[i])
    ensures forall i :: 0 <= i < |NonEmpty(parts)| ==> NoWhitespace(NonEmpty(parts)[i])
  {
    if parts != [] {
      NonEmptyNoWhitespace(parts[1..]);
    }
  }

  /** Each part preceded by one space: what follows the first part in `Join(" ", parts)`. */
  function JoinTail(parts: seq<string>): string
  {
    if parts == [] then [] else " " + parts[0] + JoinTail(parts[1..])
  }

  /** `" ".join` is the first part followed by the others, each after a space. */
  lemma {:induction false} JoinSplit(parts: seq<string>)
    requires parts != []
    ensures Join(" ", parts) == parts[0] + JoinTail(parts[1..])
  {
    if |parts| == 1 {
      assert parts[1..] == [];
    } else {
      JoinSplit(parts[1..]);
      assert parts[1..][1..] == parts[2..];
    }
  }

  /** Words joined with single spaces start and end with a visible character. */
  lemma {:induction false} JoinWordsTrimmed(parts: seq<string>)
    requires parts != []
    requires forall i :: 0 <= i < |parts| ==> parts[i] != [] && NoWhitespace(parts[i])
    ensures Join(" ", parts) != [] && Trimmed(Join(" ", parts))
  {
    if |parts| > 1 {
      JoinWordsTrimmed(parts[1..]);
      var rest := Join(" ", parts[1..]);
      assert Join(" ", parts) == parts[0] + " " + rest;
      assert (parts[0] + " " + rest)[0] == parts[0][0];
    }
  }

  /** Stripping removes whitespace on both sides of a trimmed string. */
  lemma StripSurrounded(a: string, x: string, b: string)
    requires AllWhitespace(a) && AllWhitespace(b) && x != [] && Trimmed(x)
    ensures Strip(a + x + b) == x
  {
    var s := a + x + b;
    assert forall i :: 0 <= i < |a| ==> s[i] == a[i];
    assert s[|a|] == x[0];
    var n := LeadingWhitespace(s);
    assert n == |a|;
    var t := s[n..];
    assert t == x + b;
    assert forall i :: |x| <= i < |t| ==> t[i] == b[i - |x|];
    assert t[|x| - 1] == x[|x| - 1];
    assert TrailingWhitespace(t) == |b|;
    assert t[..|x|] == x;
  }

  /** Stripping an all-whitespace string leaves nothing. */
  lemma StripWhitespace(s: string)
    requires AllWhitespace(s)
    ensures Strip(s) == []
  {
  }
}
