/** Strings as the source compares them: trimming, case folding and ordering. */
module Text {

  /** The characters Python's `str.strip()` removes. */
  predicate IsSpace(c: char) {
    var n := c as int;
    || 0x09 <= n <= 0x0d || 0x1c <= n <= 0x20 || n == 0x85 || n == 0xa0 || n == 0x1680
    || 0x2000 <= n <= 0x200a || n == 0x2028 || n == 0x2029 || n == 0x202f || n == 0x205f
    || n == 0x3000
  }

  function TrimLeft(s: string): (r: string) {
    if s != [] && IsSpace(s[0]) then TrimLeft(s[1..]) else s
  }

  function TrimRight(s: string): (r: string) {
    if s != [] && IsSpace(s[|s| - 1]) then TrimRight(s[..|s| - 1]) else s
  }

  function Strip(s: string): string {
    TrimRight(TrimLeft(s))
  }

  predicate Trimmed(s: string) {
    s == [] || (!IsSpace(s[0]) && !IsSpace(s[|s| - 1]))
  }

  lemma {:induction false} TrimLeftStart(s: string)
    ensures TrimLeft(s) == [] || !IsSpace(TrimLeft(s)[0])
    ensures |TrimLeft(s)| <= |s|
  {
    if s != [] && IsSpace(s[0]) {
      TrimLeftStart(s[1..]);
    }
  }

  lemma {:induction false} TrimRightEnd(s: string)
    ensures var r := TrimRight(s); r <= s && (r == [] || !IsSpace(r[|r| - 1]))
  {
    if s != [] && IsSpace(s[|s| - 1]) {
      TrimRightEnd(s[..|s| - 1]);
    }
  }

  /** Trimming ends in a trimmed string, and changes exactly the strings that were not. */
  lemma StripTrims(s: string)
    ensures Trimmed(Strip(s))
    ensures |Strip(s)| <= |s|
    ensures Strip(s) == s <==> Trimmed(s)
  {
    TrimLeftStart(s);
    TrimRightEnd(TrimLeft(s));
  }

  predicate AllSpace(s: string) {
    forall i :: 0 <= i < |s| ==> IsSpace(s[i])
  }

  lemma {:induction false} TrimLeftPadded(pad: string, s: string)
    requires AllSpace(pad)
    ensures TrimLeft(pad + s) == TrimLeft(s)
  {
    if pad == [] {
      assert pad + s == s;
    } else {
      assert (pad + s)[1..] == pad[1..] + s;
      TrimLeftPadded(pad[1..], s);
    }
  }

  lemma {:induction false} TrimRightPadded(s: string, pad: string)
    requires AllSpace(pad)
    ensures TrimRight(s + pad) == TrimRight(s)
  {
    if pad == [] {
      assert s + pad == s;
    } else {
      assert (s + pad)[..|s + pad| - 1] == s + pad[..|pad| - 1];
      assert (s + pad)[|s + pad| - 1] == pad[|pad| - 1];
      TrimRightPadded(s, pad[..|pad| - 1]);
    }
  }

  /** Trimming removes exactly the spaces around a text that has none at its ends. */
  lemma StripPadded(left: string, core: string, right: string)
    requires AllSpace(left) && AllSpace(right) && Trimmed(core)
    ensures Strip(left + core + right) == core
  {
    assert left + core + right == left + (core + right);
    TrimLeftPadded(left, core + right);
    if core == [] {
      assert core + right == right + core;
      TrimLeftPadded(right, core);
    } else {
      TrimRightPadded(core, right);
    }
  }

  lemma {:induction false} TrimLeftSplits(s: string) returns (left: string)
    ensures AllSpace(left) && s == left + TrimLeft(s)
  {
    if s != [] && IsSpace(s[0]) {
      left := TrimLeftSplits(s[1..]);
      left := [s[0]] + left;
      assert s == [s[0]] + s[1..];
    } else {
      left := [];
    }
  }

  lemma {:induction false} TrimRightSplits(s: string) returns (right: string)
    ensures AllSpace(right) && s == TrimRight(s) + right
  {
    if s != [] && IsSpace(s[|s| - 1]) {
      right := TrimRightSplits(s[..|s| - 1]);
      right := right + [s[|s| - 1]];
      assert s == s[..|s| - 1] + [s[|s| - 1]];
    } else {
      right := [];
    }
  }

  /** Every text is spaces, its trimmed text, and spaces. */
  lemma StripSplits(s: string) returns (left: string, right: string)
    ensures AllSpace(left) && AllSpace(right) && s == left + Strip(s) + right
  {
    left := TrimLeftSplits(s);
    right := TrimRightSplits(TrimLeft(s));
  }

  predicate IsUpper(c: char) {
    'A' <= c <= 'Z'
  }

  function FoldChar(c: char): char {
    if IsUpper(c) then (c as int + 32) as char else c
  }

  /** `str.casefold()` on ASCII text. */
  function Fold(s: string): (r: string)
    ensures |r| == |s|
    ensures forall i :: 0 <= i < |s| ==> r[i] == FoldChar(s[i])
  {
    seq(|s|, i requires 0 <= i < |s| => FoldChar(s[i]))
  }

  lemma FoldIdempotent(s: string)
    ensures Fold(Fold(s)) == Fold(s)
  {
  }

  lemma FoldKeepsTrim(a: string, b: string)
    requires Fold(a) == Fold(b)
    ensures Trimmed(a) <==> Trimmed(b)
  {
  }

  /** Whether an actor string names someone. */
  predicate NonBlank(actor: string) {
    Strip(actor) != []
  }

  /** An actor names someone exactly when some character of it is not a space. */
  lemma NonBlankMeans(actor: string)
    ensures NonBlank(actor) <==> exists i :: 0 <= i < |actor| && !IsSpace(actor[i])
  {
    var left, right := StripSplits(actor);
    StripTrims(actor);
    if NonBlank(actor) {
      assert actor[|left|] == Strip(actor)[0];
    } else {
      assert actor == left + right;
    }
  }

  /** The same letters up to case: equal characters, or the two cases of one ASCII letter. */
  predicate SameLetters(a: string, b: string) {
    |a| == |b| && forall i :: 0 <= i < |a| ==>
      a[i] == b[i]
      || ('A' <= a[i] <= 'Z' && b[i] as int == a[i] as int + 32)
      || ('A' <= b[i] <= 'Z' && a[i] as int == b[i] as int + 32)
  }

  lemma FoldMeans(a: string, b: string)
    ensures Fold(a) == Fold(b) <==> SameLetters(a, b)
  {
    if Fold(a) == Fold(b) {
      assert forall i :: 0 <= i < |a| ==> FoldChar(a[i]) == Fold(a)[i] == FoldChar(b[i]);
    }
  }

  /** Lexicographic order of text by code point. */
  predicate TextLe(a: string, b: string) {
    a == [] || (b != [] && (a[0] < b[0] || (a[0] == b[0] && TextLe(a[1..], b[1..]))))
  }

  lemma {:induction false} TextLeTotal(a: string, b: string)
    ensures TextLe(a, b) || TextLe(b, a)
    ensures TextLe(a, b) && TextLe(b, a) ==> a == b
  {
    if a != [] && b != [] && a[0] == b[0] {
      TextLeTotal(a[1..], b[1..]);
      assert a == [a[0]] + a[1..] && b == [b[0]] + b[1..];
    }
  }

  lemma {:induction false} TextLeTransitive(a: string, b: string, c: string)
    requires TextLe(a, b) && TextLe(b, c)
    ensures TextLe(a, c)
  {
    if a != [] && a[0] == b[0] && b[0] == c[0] {
      TextLeTransitive(a[1..], b[1..], c[1..]);
    }
  }

  /** The order itself: a text comes before one it starts, and otherwise the smaller character
      at the first difference decides. */
  lemma {:induction false} TextLeMeans(a: string, b: string, k: nat)
    requires k <= |a| && k <= |b| && a[..k] == b[..k]
    ensures k == |a| ==> TextLe(a, b)
    ensures k == |b| < |a| ==> !TextLe(a, b)
    ensures k < |a| && k < |b| && a[k] != b[k] ==> (TextLe(a, b) <==> a[k] < b[k])
  {
    if k > 0 {
      assert a[0] == a[..k][0] == b[0];
      assert a[1..][..k - 1] == a[..k][1..] && b[1..][..k - 1] == b[..k][1..];
      TextLeMeans(a[1..], b[1..], k - 1);
    }
  }
}
