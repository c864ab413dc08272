/** The email pattern `/^[^\s@]+@[^\s@]+\.[^\s@]+$/` that the wizard
    (app/wizard/page.tsx) and the landing page (app/page.tsx) share: what a
    match means, and a direct check proved to agree with it. */
module EmailRegex {
  import opened Outcomes
  import opened JsText

  /** `[^\s@]`. */
  predicate IsEmailChar(c: char) {
    !IsJsWhitespace(c) && c != '@'
  }

  predicate AllEmailChars(s: string) {
    forall i :: 0 <= i < |s| ==> IsEmailChar(s[i])
  }

  /** A full match of the pattern: an '@' at i and a later '.' at k cut the
      string into three non-empty runs of `[^\s@]`. */
  predicate MatchesEmailRegex(e: string) {
    exists i, k :: 0 < i && i + 1 < k && k + 1 < |e| && e[i] == '@' && e[k] == '.'
                   && AllEmailChars(e[..i]) && AllEmailChars(e[i + 1..k]) && AllEmailChars(e[k + 1..])
  }

  /** The index of the first occurrence of c. */
  function FirstIndex(s: string, c: char): (r: Option<nat>)
    ensures r.Some? ==> r.value < |s| && s[r.value] == c && c !in s[..r.value]
    ensures r.None? ==> c !in s
  {
    if s == [] then None
    else if s[0] == c then Some(0)
    else match FirstIndex(s[1..], c)
      case None => None
      case Some(i) =>
        assert s[..i + 1] == [s[0]] + s[1..][..i];
        Some(i + 1)
  }

  /** The domain holds a '.' that is neither its first nor its last character. */
  predicate HasInnerDot(d: string) {
    |d| >= 3 && '.' in d[1..|d| - 1]
  }

  /** The check as a reader states it: split at the first '@'; the local part
      is non-empty, and neither part holds whitespace or another '@'; the
      domain has a '.' with text on both sides. */
  predicate IsValidEmail(e: string) {
    match FirstIndex(e, '@')
    case None => false
    case Some(i) =>
      i > 0 && AllEmailChars(e[..i]) && AllEmailChars(e[i + 1..]) && HasInnerDot(e[i + 1..])
  }

  /** The direct check accepts exactly the strings the pattern matches. */
  lemma ValidEmailIffRegex(e: string)
    ensures IsValidEmail(e) <==> MatchesEmailRegex(e)
  {
    if MatchesEmailRegex(e) {
      RegexImpliesValid(e);
    }
    if IsValidEmail(e) {
      ValidImpliesRegex(e);
    }
  }

  lemma RegexImpliesValid(e: string)
    requires MatchesEmailRegex(e)
    ensures IsValidEmail(e)
  {
    var i, k :| 0 < i && i + 1 < k && k + 1 < |e| && e[i] == '@' && e[k] == '.'
                && AllEmailChars(e[..i]) && AllEmailChars(e[i + 1..k]) && AllEmailChars(e[k + 1..]);
    RegexSplit(e, i, k);
  }

  /** The '@' at i is the first one, and what follows it is a domain with an
      inner dot. */
  lemma RegexSplit(e: string, i: nat, k: nat)
    requires 0 < i && i + 1 < k && k + 1 < |e| && e[i] == '@' && e[k] == '.'
    requires AllEmailChars(e[..i]) && AllEmailChars(e[i + 1..k]) && AllEmailChars(e[k + 1..])
    ensures IsValidEmail(e)
  {
    FirstAtIs(e, i);
    var d := e[i + 1..];
    assert d[..k - i - 1] == e[i + 1..k];
    assert d[k - i..] == e[k + 1..];
    DomainWithDot(d, k - i - 1);
  }

  /** A '.' strictly inside a run of `[^\s@]` on either side. */
  lemma DomainWithDot(d: string, m: nat)
    requires 0 < m && m + 1 < |d| && d[m] == '.'
    requires AllEmailChars(d[..m]) && AllEmailChars(d[m + 1..])
    ensures AllEmailChars(d) && HasInnerDot(d)
  {
    forall j | 0 <= j < |d|
      ensures IsEmailChar(d[j])
    {
      if j < m {
        assert d[j] == d[..m][j];
      } else if j > m {
        assert d[j] == d[m + 1..][j - m - 1];
      }
    }
    assert d[1..|d| - 1][m - 1] == '.';
  }

  /** Every slice of a run of `[^\s@]` is one. */
  lemma AllEmailCharsSlice(s: string, lo: nat, hi: nat)
    requires lo <= hi <= |s| && AllEmailChars(s)
    ensures AllEmailChars(s[lo..hi])
  {
    forall j | 0 <= j < hi - lo
      ensures IsEmailChar(s[lo..hi][j])
    {
      assert s[lo..hi][j] == s[lo + j];
    }
  }

  lemma AllEmailCharsAppend(a: string, b: string)
    ensures AllEmailChars(a + b) <==> AllEmailChars(a) && AllEmailChars(b)
  {
    if AllEmailChars(a) && AllEmailChars(b) {
      forall j | 0 <= j < |a + b|
        ensures IsEmailChar((a + b)[j])
      {
        if j >= |a| {
          assert (a + b)[j] == b[j - |a|];
        }
      }
    }
    if AllEmailChars(a + b) {
      forall j | 0 <= j < |a|
        ensures IsEmailChar(a[j])
      {
        assert (a + b)[j] == a[j];
      }
      forall j | 0 <= j < |b|
        ensures IsEmailChar(b[j])
      {
        assert (a + b)[|a| + j] == b[j];
      }
    }
  }

  /** An '@' with none before it is the first one. */
  lemma FirstAtIs(e: string, i: nat)
    requires i < |e| && e[i] == '@' && AllEmailChars(e[..i])
    ensures FirstIndex(e, '@') == Some(i)
  {
    assert '@' !in e[..i];
    FirstIndexAt(e, '@', i);
  }

  /** The first occurrence is the one with none before it. */
  lemma {:induction false} FirstIndexAt(s: string, c: char, i: nat)
    requires i < |s| && s[i] == c && c !in s[..i]
    ensures FirstIndex(s, c) == Some(i)
    decreases i
  {
    if i > 0 {
      assert s[0] == s[..i][0];
      assert s[0] != c;
      assert s[1..][..i - 1] == s[1..i];
      assert forall j :: 0 <= j < i - 1 ==> s[1..i][j] == s[..i][j + 1];
      FirstIndexAt(s[1..], c, i - 1);
    }
  }

  lemma ValidImpliesRegex(e: string)
    requires IsValidEmail(e)
    ensures MatchesEmailRegex(e)
  {
    var i := FirstIndex(e, '@').value;
    var d := e[i + 1..];
    var inner := d[1..|d| - 1];
    var j :| 0 <= j < |inner| && inner[j] == '.';
    var k := i + 2 + j;
    assert e[k] == '.';
    assert e[i + 1..k] == d[..j + 1];
    assert e[k + 1..] == d[j + 2..];
    AllEmailCharsSlice(d, 0, j + 1);
    AllEmailCharsSlice(d, j + 2, |d|);
    assert d[j + 2..|d|] == d[j + 2..];
    assert 0 < i && i + 1 < k && k + 1 < |e| && e[i] == '@' && e[k] == '.'
           && AllEmailChars(e[..i]) && AllEmailChars(e[i + 1..k]) && AllEmailChars(e[k + 1..]);
  }

  /** A valid address holds exactly one '@'. */
  lemma ValidEmailHasOneAt(e: string)
    requires IsValidEmail(e)
    ensures exists i :: 0 <= i < |e| && e[i] == '@'
    ensures forall j1, j2 :: 0 <= j1 < |e| && 0 <= j2 < |e| && e[j1] == '@' && e[j2] == '@' ==> j1 == j2
  {
    var i := FirstIndex(e, '@').value;
    forall j | 0 <= j < |e| && e[j] == '@'
      ensures j == i
    {
    }
  }

  /** The empty string never matches. */
  lemma EmptyIsNotAnEmail()
    ensures !IsValidEmail("") && !MatchesEmailRegex("")
  {
  }
}
