/**
 Renaming after a lost probe in managed_components/espressif__mdns/mdns.c: "name" becomes "name-2",
 "name-2" becomes "name-3" and so on. Names are C strings without their NUL.
 */
module Mangle {
  import opened Bytes

  const DASH: byte := 45
  const PLUS: byte := 43
  const INT_MAX: int := 0x7fff_ffff
  const INT_MIN: int := -0x8000_0000

  type Text = seq<byte>

  // ----- The C library functions it uses -----

  /** strrchr for '-' in the first `n` bytes; -1 when there is none. */
  function LastDashBelow(s: Text, n: nat): (p: int)
    requires n <= |s|
    ensures -1 <= p < n
  {
    if n == 0 then -1 else if s[n - 1] == DASH then n - 1 else LastDashBelow(s, n - 1)
  }

  function LastDash(s: Text): (p: int)
    ensures -1 <= p < |s|
  {
    LastDashBelow(s, |s|)
  }

  predicate IsDigit(b: byte) {
    48 <= b <= 57
  }

  predicate IsSpace(b: byte) {
    b == 32 || 9 <= b <= 13
  }

  /** Past the white space from `i` on. */
  function SpacesEnd(t: Text, i: nat): (n: nat)
    requires i <= |t|
    ensures i <= n <= |t|
    decreases |t| - i
  {
    if i == |t| || !IsSpace(t[i]) then i else SpacesEnd(t, i + 1)
  }

  /** Past the digits from `i` on. */
  function DigitsEnd(t: Text, i: nat): (n: nat)
    requires i <= |t|
    ensures i <= n <= |t|
    decreases |t| - i
  {
    if i == |t| || !IsDigit(t[i]) then i else DigitsEnd(t, i + 1)
  }

  ghost predicate AllDigits(t: Text) {
    forall i | 0 <= i < |t| :: IsDigit(t[i])
  }

  function Digit(b: byte): nat {
    if IsDigit(b) then b - 48 else 0
  }

  /** The number a digit string stands for. */
  function Value(t: Text): nat {
    if t == [] then 0 else 10 * Value(t[..|t| - 1]) + Digit(t[|t| - 1])
  }

  datatype Number = Number(value: int, used: nat)

  /** Kept inside the range of a 32-bit long. */
  function Clamp(v: int): (r: int)
    ensures INT_MIN <= r <= INT_MAX
  {
    if v < INT_MIN then INT_MIN else if v > INT_MAX then INT_MAX else v
  }

  /** strtol base 10 on a 32-bit long: `used` is 0 when nothing was converted. */
  function Strtol(t: Text): (r: Number)
    ensures r.used <= |t|
    ensures INT_MIN <= r.value <= INT_MAX
  {
    var w := SpacesEnd(t, 0);
    var negative := w < |t| && t[w] == DASH;
    var at := if negative || (w < |t| && t[w] == PLUS) then w + 1 else w;
    var end := DigitsEnd(t, at);
    if end == at then Number(0, 0)
    else
      var v: int := Value(t[at..end]);
      Number(Clamp(if negative then -v else v), end)
  }

  /** "%d". */
  function Print(n: nat): (t: Text)
    ensures t != []
  {
    if n < 10 then [(48 + n) as byte] else Print(n / 10) + [(48 + n % 10) as byte]
  }

  function PrintInt(i: int): Text {
    if i < 0 then [DASH] + Print(-i) else Print(i)
  }

  /** An int increment, wrapping as the target's hardware does. */
  function Increment(i: int): int {
    if i == INT_MAX then INT_MIN else i + 1
  }

  // ----- _mdns_mangle_name -----

  /** There is a '-' and strtol reads everything behind the last one. */
  predicate Numbered(s: Text) {
    LastDash(s) >= 0 && Strtol(s[LastDash(s) + 1..]).used == |s| - LastDash(s) - 1
  }

  function Suffix(s: Text): int
    requires Numbered(s)
  {
    Strtol(s[LastDash(s) + 1..]).value
  }

  /** The new name, when there is memory for it. */
  function MangleName(s: Text): Text {
    if Numbered(s) then s[..LastDash(s)] + [DASH] + PrintInt(Increment(Suffix(s)))
    else s + [DASH, 50]
  }

  /** The bytes it allocates for the new name. */
  function Allocated(s: Text): nat {
    if Numbered(s) then |s| + 2 else |s| + 3
  }

  // ----- Printing and reading numbers -----

  lemma {:induction false} PrintRoundTrip(n: nat)
    ensures AllDigits(Print(n)) && Value(Print(n)) == n
  {
    if n >= 10 {
      PrintRoundTrip(n / 10);
      var t := Print(n);
      assert t[..|t| - 1] == Print(n / 10);
    } else {
      assert Print(n)[..0] == [];
    }
  }

  function Pow10(d: nat): nat {
    if d == 0 then 1 else 10 * Pow10(d - 1)
  }

  lemma {:induction false} ValueBound(t: Text)
    ensures Value(t) < Pow10(|t|)
  {
    if t == [] {
    } else {
      ValueBound(t[..|t| - 1]);
    }
  }

  lemma {:induction false} PrintLength(n: nat, d: nat)
    requires d > 0 && n < Pow10(d)
    ensures |Print(n)| <= d
    decreases d
  {
    if n < 10 {
    } else {
      assert Pow10(1) == 10;
      PrintLength(n / 10, d - 1);
    }
  }

  lemma {:induction false} DigitsEndAll(t: Text, i: nat)
    requires AllDigits(t) && i <= |t|
    ensures DigitsEnd(t, i) == |t|
    decreases |t| - i
  {
    if i >= |t| {
    } else {
      DigitsEndAll(t, i + 1);
    }
  }

  /** Digits only, or nothing at all, behind a dash are read completely. */
  lemma StrtolDigits(t: Text)
    requires AllDigits(t)
    ensures Strtol(t) == Number(Clamp(Value(t)), |t|)
  {
    assert t != [] ==> IsDigit(t[0]);
    DigitsEndAll(t, 0);
    assert t[0..|t|] == t;
  }

  lemma {:induction false} LastDashIs(s: Text, k: nat, n: nat)
    requires k < n <= |s| && s[k] == DASH && forall j | k < j < n :: s[j] != DASH
    ensures LastDashBelow(s, n) == k
    decreases n
  {
    if n - 1 == k {
    } else {
      LastDashIs(s, k, n - 1);
    }
  }

  lemma {:induction false} NoDashBehind(s: Text, n: nat, j: nat)
    requires n <= |s| && LastDashBelow(s, n) < j < n
    ensures s[j] != DASH
    decreases n
  {
    if j >= n - 1 {
    } else {
      NoDashBehind(s, n - 1, j);
    }
  }

  /** The last dash of "root-digits" is the one in front of the digits. */
  lemma LastDashOf(root: Text, t: Text)
    requires AllDigits(t)
    ensures var s := root + [DASH] + t; LastDash(s) == |root| && s[|root| + 1..] == t && s[..|root|] == root
  {
    var s := root + [DASH] + t;
    forall j | |root| < j < |s|
      ensures s[j] != DASH
    {
      assert s[j] == t[j - |root| - 1];
    }
    LastDashIs(s, |root|, |s|);
  }

  // ----- One renaming -----

  /** "root-digits" is numbered, and becomes "root-" with the next number. */
  lemma MangleNumbered(root: Text, t: Text)
    requires AllDigits(t) && Value(t) < INT_MAX
    ensures var s := root + [DASH] + t; Numbered(s) && Suffix(s) == Value(t)
    ensures MangleName(root + [DASH] + t) == root + [DASH] + Print(Value(t) + 1)
  {
    LastDashOf(root, t);
    StrtolDigits(t);
  }

  /** The root a name keeps through all renamings, and the number it counts from. */
  function Root(s: Text): Text {
    if Numbered(s) then s[..LastDash(s)] else s
  }

  function Base(s: Text): int {
    if Numbered(s) then Suffix(s) else 1
  }

  /** Behind the last dash there is no sign but '+', so the number is never negative. */
  lemma BaseNotNegative(s: Text)
    ensures Base(s) >= 0
  {
    if Numbered(s) {
      var t := s[LastDash(s) + 1..];
      var w := SpacesEnd(t, 0);
      if w < |t| {
        NoDashBehind(s, |s|, LastDash(s) + 1 + w);
      }
    }
  }

  function Renamed(s: Text, n: nat): Text {
    if n == 0 then s else MangleName(Renamed(s, n - 1))
  }

  /** "root-k" with `k` in decimal. */
  function Named(root: Text, k: nat): Text {
    root + [DASH] + Print(k)
  }

  lemma MangleNamed(root: Text, k: nat)
    requires k < INT_MAX
    ensures MangleName(Named(root, k)) == Named(root, k + 1)
  {
    PrintRoundTrip(k);
    MangleNumbered(root, Print(k));
  }

  lemma NamedSuffix(root: Text, k: nat)
    requires k <= INT_MAX
    ensures Numbered(Named(root, k)) && Suffix(Named(root, k)) == k
  {
    PrintRoundTrip(k);
    LastDashOf(root, Print(k));
    StrtolDigits(Print(k));
  }

  /** Any name without a dash, such as "esp32", becomes "esp32-2" and then "esp32-3". */
  lemma PlainRenamings(name: Text)
    requires 45 !in name
    ensures MangleName(name) == name + [45, 50] && MangleName(name + [45, 50]) == name + [45, 51]
  {
    NoDashIsPlain(name);
    assert Print(2) == [50] && Print(3) == [51];
    MangleNamed(name, 2);
    assert Named(name, 2) == name + [45, 50] && Named(name, 3) == name + [45, 51];
  }

  lemma {:induction false} NoDashIsPlainBelow(s: Text, n: nat)
    requires n <= |s| && DASH !in s
    ensures LastDashBelow(s, n) == -1
  {
    if n == 0 {
    } else {
      NoDashIsPlainBelow(s, n - 1);
    }
  }

  lemma NoDashIsPlain(s: Text)
    requires DASH !in s
    ensures !Numbered(s)
  {
    NoDashIsPlainBelow(s, |s|);
  }

  lemma FirstRenaming(s: Text)
    requires Base(s) < INT_MAX
    ensures Base(s) >= 0 && MangleName(s) == Named(Root(s), Base(s) + 1)
  {
    BaseNotNegative(s);
    if !Numbered(s) {
      assert Print(2) == [50];
      assert s + [DASH, 50] == s + [DASH] + [50];
    }
  }

  lemma RenamedStep(s: Text, n: nat, root: Text, k: nat)
    requires k < INT_MAX && Renamed(s, n) == Named(root, k)
    ensures Renamed(s, n + 1) == Named(root, k + 1)
  {
    MangleNamed(root, k);
  }

  lemma {:induction false} CountOn(s: Text, root: Text, base: nat, n: nat)
    requires n > 0 && base + n <= INT_MAX && Renamed(s, 1) == Named(root, base + 1)
    ensures Renamed(s, n) == Named(root, base + n)
    decreases n
  {
    if n <= 1 {
    } else {
      CountOn(s, root, base, n - 1);
      RenamedStep(s, n - 1, root, base + n - 1);
    }
  }

  /**
   Repeated renaming of any name: the n-th name is the root with the number n further on, as long as
   that number is an int. A name without a number behind its last dash counts from 1.
   */
  lemma RenamingCounts(s: Text, n: nat)
    requires n > 0 && Base(s) + n <= INT_MAX
    ensures Base(s) >= 0 && Renamed(s, n) == Named(Root(s), Base(s) + n)
  {
    FirstRenaming(s);
    assert Renamed(s, 1) == MangleName(Renamed(s, 0)) == MangleName(s);
    CountOn(s, Root(s), Base(s), n);
  }

  lemma RenamedSuffix(s: Text, n: nat)
    requires n > 0 && Base(s) + n <= INT_MAX
    ensures Numbered(Renamed(s, n)) && Suffix(Renamed(s, n)) == Base(s) + n
  {
    RenamingCounts(s, n);
    NamedSuffix(Root(s), Base(s) + n);
  }

  /** Every renaming is a new name, different from the original and from all others. */
  lemma RenamingsDiffer(s: Text, i: nat, j: nat)
    requires i < j && Base(s) + j <= INT_MAX
    ensures Renamed(s, i) != Renamed(s, j)
  {
    RenamedSuffix(s, j);
    if i > 0 {
      RenamedSuffix(s, i);
    }
  }

  /** The new name and its NUL fit the allocated buffer, for every name and every number. */
  lemma MangledFits(s: Text)
    ensures |MangleName(s)| + 1 <= Allocated(s)
  {
    if Numbered(s) {
      var p := LastDash(s);
      var w := SpacesEnd(s[p + 1..], 0);
      if p + 1 + w < |s| {
        NoDashBehind(s, |s|, p + 1 + w);
      }
      SuffixFits(s[p + 1..]);
    }
  }

  /** The printed successor is at most one byte longer than the text the number was read from. */
  lemma SuffixFits(t: Text)
    requires Strtol(t).used == |t| && (SpacesEnd(t, 0) < |t| ==> t[SpacesEnd(t, 0)] != DASH)
    ensures |PrintInt(Increment(Strtol(t).value))| <= |t| + 1
  {
    var w := SpacesEnd(t, 0);
    var at := if w < |t| && t[w] == PLUS then w + 1 else w;
    var end := DigitsEnd(t, at);
    if end == at {
      assert Pow10(1) == 10;
      PrintLength(1, 1);
    } else {
      DigitsFit(t[at..end]);
    }
  }

  /** The successor of a number of `d` digits, clamped as strtol does, takes at most d + 1 bytes. */
  lemma DigitsFit(ds: Text)
    requires ds != []
    ensures |PrintInt(Increment(Clamp(Value(ds))))| <= |ds| + 1
  {
    ValueBound(ds);
    assert Pow10(|ds| + 1) == 10 * Pow10(|ds|);
    if Value(ds) < INT_MAX {
      PrintLength(Value(ds) + 1, |ds| + 1);
    } else {
      LongDigits(|ds|);
      PrintLength(-INT_MIN, 10);
    }
  }

  /** A number of at least INT_MAX has ten digits or more. */
  lemma {:induction false} LongDigits(d: nat)
    requires Pow10(d) > INT_MAX
    ensures d >= 10 && Pow10(10) > -INT_MIN
  {
    assert Pow10(1) == 10 && Pow10(2) == 100 && Pow10(3) == 1000 && Pow10(4) == 10000;
    assert Pow10(5) == 100000 && Pow10(6) == 1000000 && Pow10(7) == 10000000;
    assert Pow10(8) == 100000000 && Pow10(9) == 1000000000 && Pow10(10) == 10000000000;
  }
}