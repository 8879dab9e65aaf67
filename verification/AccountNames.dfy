/** The account-name rule: a regular expression, and the local rule it amounts to. */
module AccountNames {
  import opened Outcomes
  import opened Text

  datatype CharClass = Letter | Plain | Separator

  predicate IsLetter(c: char) {
    'A' <= c <= 'Z' || 'a' <= c <= 'z'
  }

  predicate IsPlain(c: char) {
    IsLetter(c) || '0' <= c <= '9' || c == ' '
  }

  predicate IsSeparator(c: char) {
    c == '&' || c == '-' || c == '\'' || c == '.' || c == '/'
  }

  predicate InClass(c: char, k: CharClass) {
    match k
    case Letter => IsLetter(c)
    case Plain => IsPlain(c)
    case Separator => IsSeparator(c)
  }

  datatype Regex = Cls(k: CharClass) | Cat(first: Regex, second: Regex) | Star(body: Regex)

  /** Whole-string matching, by the textbook meaning of each operator. */
  predicate Matches(r: Regex, s: string)
    decreases r, |s|
  {
    match r
    case Cls(k) => |s| == 1 && InClass(s[0], k)
    case Cat(a, b) => exists i :: 0 <= i <= |s| && Matches(a, s[..i]) && Matches(b, s[i..])
    case Star(a) => s == [] || exists i :: 0 < i <= |s| && Matches(a, s[..i]) && Matches(r, s[i..])
  }

  /** One separator and then at least one plain character. */
  const SEGMENT: Regex := Cat(Cls(Separator), Cat(Cls(Plain), Star(Cls(Plain))))

  const ACCOUNT_NAME_PATTERN: Regex := Cat(Cls(Letter), Cat(Star(Cls(Plain)), Star(SEGMENT)))

  /** Every character is allowed and every separator is followed by a non-separator. */
  predicate Separated(s: string) {
    && (forall i :: 0 <= i < |s| ==> IsPlain(s[i]) || IsSeparator(s[i]))
    && (forall i :: 0 <= i < |s| && IsSeparator(s[i]) ==> i + 1 < |s| && !IsSeparator(s[i + 1]))
  }

  predicate Conforms(s: string) {
    s != [] && IsLetter(s[0]) && Separated(s)
  }

  lemma {:induction false} PlainRun(s: string)
    ensures Matches(Star(Cls(Plain)), s) <==> forall i :: 0 <= i < |s| ==> IsPlain(s[i])
  {
    var star := Star(Cls(Plain));
    if s != [] {
      PlainRun(s[1..]);
      if Matches(star, s) {
        var i :| 0 < i <= |s| && Matches(Cls(Plain), s[..i]) && Matches(star, s[i..]);
        assert i == 1 && s[..1][0] == s[0];
        assert forall j :: 0 < j < |s| ==> s[j] == s[1..][j - 1];
      }
      if forall i :: 0 <= i < |s| ==> IsPlain(s[i]) {
        assert Matches(Cls(Plain), s[..1]) && Matches(star, s[1..]);
      }
    }
  }

  lemma CatJoins(first: Regex, second: Regex, s: string, i: nat)
    requires i <= |s| && Matches(first, s[..i]) && Matches(second, s[i..])
    ensures Matches(Cat(first, second), s)
  {
  }

  lemma CatSplits(first: Regex, second: Regex, s: string) returns (i: nat)
    requires Matches(Cat(first, second), s)
    ensures i <= |s| && Matches(first, s[..i]) && Matches(second, s[i..])
  {
    i :| 0 <= i <= |s| && Matches(first, s[..i]) && Matches(second, s[i..]);
  }

  lemma OneOf(k: CharClass, s: string)
    ensures Matches(Cls(k), s) <==> |s| == 1 && InClass(s[0], k)
  {
  }

  /** One character of a class and then a match of the rest. */
  lemma OneThen(k: CharClass, rest: Regex, s: string)
    ensures Matches(Cat(Cls(k), rest), s) <==> s != [] && InClass(s[0], k) && Matches(rest, s[1..])
  {
    hide Matches;
    if Matches(Cat(Cls(k), rest), s) {
      var i := CatSplits(Cls(k), rest, s);
      OneOf(k, s[..i]);
      assert s[..i][0] == s[0];
    }
    if s != [] && InClass(s[0], k) && Matches(rest, s[1..]) {
      OneOf(k, s[..1]);
      CatJoins(Cls(k), rest, s, 1);
    }
  }

  lemma SegmentShape(s: string)
    ensures Matches(SEGMENT, s) <==>
            |s| >= 2 && IsSeparator(s[0]) && forall i :: 0 < i < |s| ==> IsPlain(s[i])
  {
    hide Matches;
    OneThen(Separator, Cat(Cls(Plain), Star(Cls(Plain))), s);
    if s != [] {
      var t := s[1..];
      OneThen(Plain, Star(Cls(Plain)), t);
      if t != [] {
        PlainRun(t[1..]);
        assert forall i :: 1 < i < |s| ==> s[i] == t[1..][i - 2];
        assert forall i :: 0 <= i < |t[1..]| ==> t[1..][i] == s[i + 2];
        assert t[0] == s[1];
      }
    }
  }

  /** The end of the first run of plain characters from `from` on. */
  function RunEnd(s: string, from: nat): (e: nat)
    requires from <= |s|
    ensures from <= e <= |s|
    ensures forall i :: from <= i < e ==> !IsSeparator(s[i])
    ensures e < |s| ==> IsSeparator(s[e])
    decreases |s| - from
  {
    if from == |s| || IsSeparator(s[from]) then from else RunEnd(s, from + 1)
  }

  lemma RunSplits(s: string)
    requires s != [] && Separated(s)
    ensures var j := RunEnd(s, 1);
            && (forall k :: 0 <= k < j - 1 ==> IsPlain(s[1..j][k]))
            && (s[j..] == [] || (IsSeparator(s[j..][0]) && Separated(s[j..])))
  {
  }

  lemma {:induction false} SegmentRun(s: string)
    ensures Matches(Star(SEGMENT), s) <==> s == [] || (IsSeparator(s[0]) && Separated(s))
    decreases |s|
  {
    if s != [] && Matches(Star(SEGMENT), s) {
      var i :| 0 < i <= |s| && Matches(SEGMENT, s[..i]) && Matches(Star(SEGMENT), s[i..]);
      SegmentShape(s[..i]);
      SegmentRun(s[i..]);
      assert forall k :: i <= k < |s| ==> s[k] == s[i..][k - i];
      assert forall k :: 0 <= k < i ==> s[k] == s[..i][k];
    }
    if s != [] && IsSeparator(s[0]) && Separated(s) {
      var i := RunEnd(s, 1);
      RunSplits(s);
      assert i > 1 && forall k :: 0 < k < i ==> s[..i][k] == s[1..i][k - 1];
      SegmentShape(s[..i]);
      SegmentRun(s[i..]);
    }
  }

  lemma PatternSplits(s: string)
    requires Matches(ACCOUNT_NAME_PATTERN, s)
    ensures Conforms(s)
  {
    hide Matches;
    OneThen(Letter, Cat(Star(Cls(Plain)), Star(SEGMENT)), s);
    var t := s[1..];
    var j := CatSplits(Star(Cls(Plain)), Star(SEGMENT), t);
    PlainRun(t[..j]);
    SegmentRun(t[j..]);
    assert forall k :: 1 <= k < 1 + j ==> s[k] == t[..j][k - 1];
    assert forall k :: 1 + j <= k < |s| ==> s[k] == t[j..][k - 1 - j];
  }

  lemma PatternJoins(s: string)
    requires Conforms(s)
    ensures Matches(ACCOUNT_NAME_PATTERN, s)
  {
    assert Matches(Cls(Letter), s[..1]);
    hide Matches, Separated;
    var j := RunEnd(s, 1);
    RunSplits(s);
    PlainRun(s[1..j]);
    SegmentRun(s[j..]);
    var t := s[1..];
    assert t[..j - 1] == s[1..j] && t[j - 1..] == s[j..];
    CatJoins(Star(Cls(Plain)), Star(SEGMENT), t, j - 1);
    CatJoins(Cls(Letter), Cat(Star(Cls(Plain)), Star(SEGMENT)), s, 1);
  }

  /** The pattern accepts exactly the strings that start with a letter, use only allowed
      characters and follow every separator by a non-separator. */
  lemma PatternIsLocalRule(s: string)
    ensures Matches(ACCOUNT_NAME_PATTERN, s) <==> Conforms(s)
  {
    hide Matches, Conforms;
    if Matches(ACCOUNT_NAME_PATTERN, s) {
      PatternSplits(s);
    }
    if Conforms(s) {
      PatternJoins(s);
    }
  }

  function CleanAccountName(value: string): (r: Option<string>)
    ensures r.Some? ==> Trimmed(r.value) && Conforms(r.value) && |r.value| <= |value|
  {
    var cleaned := Strip(value);
    StripTrims(value);
    PatternIsLocalRule(cleaned);
    if Matches(ACCOUNT_NAME_PATTERN, cleaned) then Some(cleaned) else None
  }

  /** Cleaning is idempotent, and leaves a name alone exactly when it is trimmed and conforms. */
  lemma CleanFixpoint(value: string)
    ensures CleanAccountName(value) == Some(value) <==> Trimmed(value) && Conforms(value)
    ensures CleanAccountName(value).Some?
         ==> CleanAccountName(CleanAccountName(value).value) == CleanAccountName(value)
  {
    StripTrims(value);
    StripTrims(Strip(value));
    PatternIsLocalRule(Strip(value));
  }

  /** The rule with its characters written out. */
  predicate SpelledOut(s: string) {
    && s != [] && ('A' <= s[0] <= 'Z' || 'a' <= s[0] <= 'z')
    && (forall i :: 0 <= i < |s| ==>
          'A' <= s[i] <= 'Z' || 'a' <= s[i] <= 'z' || '0' <= s[i] <= '9' || s[i] in " &-'./")
    && (forall i :: 0 <= i < |s| && s[i] in "&-'./" ==> i + 1 < |s| && s[i + 1] !in "&-'./")
  }

  /** A name is accepted, as its trimmed text, exactly when that text follows the rule. */
  lemma CleanNameMeans(value: string)
    ensures CleanAccountName(value) == if SpelledOut(Strip(value)) then Some(Strip(value)) else None
  {
    PatternIsLocalRule(Strip(value));
    SpelledConforms(Strip(value));
  }

  lemma SpelledConforms(s: string)
    ensures Conforms(s) <==> SpelledOut(s)
  {
    forall i | 0 <= i < |s|
      ensures IsSeparator(s[i]) <==> s[i] in "&-'./"
      ensures IsPlain(s[i]) || IsSeparator(s[i]) <==>
              'A' <= s[i] <= 'Z' || 'a' <= s[i] <= 'z' || '0' <= s[i] <= '9' || s[i] in " &-'./"
    {
    }
  }

  /** Letter case does not matter to the rule. */
  lemma SameKeySameRule(a: string, b: string)
    requires Fold(a) == Fold(b)
    ensures Conforms(a) <==> Conforms(b)
  {
    FoldMeans(a, b);
    hide Fold;
    assert forall i :: 0 <= i < |a| ==> (IsSeparator(a[i]) <==> IsSeparator(b[i])) && (IsPlain(a[i]) <==> IsPlain(b[i]));
  }

  /** The name a lookup key was made from is already trimmed whenever a stored name shares it. */
  lemma SharedKeyIsTrimmed(raw: string, stored: string)
    requires CleanAccountName(stored) == Some(stored)
    requires Fold(raw) == Fold(stored)
    ensures Strip(raw) == raw
  {
  }
}
