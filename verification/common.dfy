/**
 Vocabulary shared by the other modules: optional values, the prefix functions of Go's
 `strings` package, and bytes.
 */
module Common {

  datatype Option<+T> = None | Some(value: T)

  function Min(a: int, b: int): int {
    if a < b then a else b
  }

  function Max(a: int, b: int): int {
    if a < b then b else a
  }

  /** Go's integer division, which truncates toward zero. */
  function Quo(a: int, b: int): int
    requires b > 0
  {
    if a >= 0 then a / b else -((-a) / b)
  }

  /** `strings.HasPrefix` and the hand-written `hasPrefix` of the limiter. */
  predicate HasPrefix(s: string, prefix: string) {
    prefix <= s
  }

  /** `strings.TrimPrefix`. */
  function TrimPrefix(s: string, prefix: string): string {
    if HasPrefix(s, prefix) then s[|prefix|..] else s
  }

  /** `s` does not contain the separator `c`. */
  predicate Free(s: string, c: char) {
    forall i | 0 <= i < |s| :: s[i] != c
  }

  /** A separator-free head is determined by the text before the first separator. */
  lemma HeadUnique(a: string, b: string, x: string, y: string, c: char)
    requires Free(a, c) && Free(b, c) && a + [c] + x == b + [c] + y
    ensures a == b && x == y
  {
    var s := a + [c] + x;
    var t := b + [c] + y;
    assert s[|a|] == c && t[|b|] == c;
    assert forall i | 0 <= i < |a| :: s[i] == a[i];
    assert forall i | 0 <= i < |b| :: t[i] == b[i];
    assert s[..|a|] == a && t[..|b|] == b;
    assert s[|a| + 1..] == x && t[|b| + 1..] == y;
  }

  /** A separator-free tail is determined by the text after the last separator. */
  lemma TailUnique(a: string, b: string, x: string, y: string, c: char)
    requires Free(x, c) && Free(y, c) && a + [c] + x == b + [c] + y
    ensures a == b && x == y
  {
    var s := a + [c] + x;
    var t := b + [c] + y;
    assert s[|a|] == c && t[|b|] == c;
    assert forall i | |a| < i < |s| :: s[i] == x[i - |a| - 1];
    assert forall i | |b| < i < |t| :: t[i] == y[i - |b| - 1];
    assert s[..|a|] == a && t[..|b|] == b;
    assert s[|a| + 1..] == x && t[|b| + 1..] == y;
  }

  /** `pat` stands in `s` at position `i`. */
  predicate OccursAt(s: string, pat: string, i: int) {
    0 <= i <= |s| && pat <= s[i..]
  }

  /** `strings.Index`: the first occurrence, or -1. */
  function IndexOf(s: string, pat: string): (i: int)
    ensures i == -1 || OccursAt(s, pat, i)
    ensures forall j | 0 <= j && (i == -1 || j < i) :: !OccursAt(s, pat, j)
  {
    if pat <= s then 0
    else if s == "" then -1
    else
      OccursLater(s, 1, pat);
      var next := IndexOf(s[1..], pat);
      if next < 0 then -1 else next + 1
  }

  lemma OccursInTail(s: string, k: nat, pat: string, j: nat)
    requires k <= |s|
    ensures OccursAt(s[k..], pat, j) <==> OccursAt(s, pat, k + j)
  {
    if k + j <= |s| {
      assert s[k..][j..] == s[k + j..];
    }
  }

  /** The occurrences of a tail are the later occurrences of the whole. */
  lemma OccursLater(s: string, k: nat, pat: string)
    requires k <= |s|
    ensures forall j | k <= j :: OccursAt(s, pat, j) <==> OccursAt(s[k..], pat, j - k)
  {
    forall j | k <= j
      ensures OccursAt(s, pat, j) <==> OccursAt(s[k..], pat, j - k)
    {
      OccursInTail(s, k, pat, j - k);
    }
  }

  /** `strings.Contains` */
  predicate Contains(s: string, pat: string) {
    IndexOf(s, pat) >= 0
  }

  /** `strings.ToLower` on ASCII letters. */
  function ToLower(s: string): (lower: string)
    ensures |lower| == |s|
    ensures forall i | 0 <= i < |s| :: !('A' <= lower[i] <= 'Z') && (!('A' <= s[i] <= 'Z') ==> lower[i] == s[i])
    ensures forall i | 0 <= i < |s| && 'A' <= s[i] <= 'Z' :: lower[i] as int == s[i] as int + 32
  {
    seq(|s|, i requires 0 <= i < |s| => if 'A' <= s[i] <= 'Z' then s[i] - 'A' + 'a' else s[i])
  }

  /** The number of bytes of a string in UTF-8, which is what Go's `len` gives. */
  function Utf8Length(s: string): (n: nat)
    ensures |s| <= n <= 4 * |s|
  {
    if s == "" then 0
    else
      var code := s[|s| - 1] as int;
      Utf8Length(s[..|s| - 1]) + if code < 0x80 then 1 else if code < 0x800 then 2 else if code < 0x1_0000 then 3 else 4
  }

  /** One byte for ASCII, two up to U+07FF, three up to U+FFFF, four above; and the bytes of a text add up. */
  lemma Utf8LengthAdds(s: string, c: char)
    ensures Utf8Length(s + [c]) == Utf8Length(s) + Utf8Length([c])
    ensures Utf8Length([c]) ==
              if c as int <= 0x7f then 1 else if c as int <= 0x7ff then 2 else if c as int <= 0xffff then 3 else 4
  {
    assert (s + [c])[..|s|] == s && [c][..0] == "";
  }

  newtype Byte = x: int | 0 <= x < 256

  type Bytes = seq<Byte>
}
