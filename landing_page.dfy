/** The landing page (app/page.tsx): pick an industry, enter the business
    name, website and email, and go on to the wizard with those four answers
    in the query string. */
module LandingPage {
  import opened Outcomes
  import opened JsText
  import opened EmailRegex

  const InvalidEmailMessage: string := "Please enter a valid email address"
  const WizardPathPrefix: string := "/wizard?"

  /** The error `handleEmailChange` leaves: none for an empty or well-formed
      value, the invalid-address message otherwise. */
  function EmailChangeError(value: string): (msg: string)
    ensures msg == "" <==> value == "" || MatchesEmailRegex(value)
    ensures msg != "" ==> msg == InvalidEmailMessage
  {
    ValidEmailIffRegex(value);
    if value != "" && !IsValidEmail(value) then InvalidEmailMessage else ""
  }

  /** `new URLSearchParams({ industry, businessName, website, email }).toString()`. */
  function WizardQuery(industry: string, businessName: string, website: string, email: string): string {
    SearchParamsToString(WizardPairs(industry, businessName, website, email))
  }

  /** Where `handleSubmit` sends the browser, if anywhere: nowhere while the
      business name or email is empty or the email is malformed. */
  function SubmitLocation(industry: string, businessName: string, website: string, email: string): (r: Option<string>)
    ensures r.Some? <==> businessName != "" && email != "" && MatchesEmailRegex(email)
    ensures r.Some? ==> StartsWith(r.value, WizardPathPrefix)
  {
    ValidEmailIffRegex(email);
    if businessName == "" || email == "" || !IsValidEmail(email) then None
    else
      var url := WizardPathPrefix + WizardQuery(industry, businessName, website, email);
      assert url[..|WizardPathPrefix|] == WizardPathPrefix;
      Some(url)
  }

  /** An encoded value holds neither '&' nor '='. */
  lemma FormEncodeHasNoDelimiters(s: string)
    ensures '&' !in FormEncode(s) && '=' !in FormEncode(s)
  {
    var r := FormEncode(s);
    forall i | 0 <= i < |r|
      ensures r[i] != '&' && r[i] != '='
    {
      assert IsFormUnreserved(r[i]) || r[i] == '+' || r[i] == '%' || IsHexDigit(r[i]);
    }
  }

  /** One `name=value` pair holds no '&' and splits on '=' back into the
      encoded name and the encoded value. */
  lemma PairSplits(name: string, value: string)
    ensures '&' !in FormEncode(name) + "=" + FormEncode(value)
    ensures Split(FormEncode(name) + "=" + FormEncode(value), '=') == [FormEncode(name), FormEncode(value)]
  {
    FormEncodeHasNoDelimiters(name);
    FormEncodeHasNoDelimiters(value);
    SplitAfterPiece(FormEncode(name), '=', FormEncode(value));
    SplitNoSep(FormEncode(value), '=');
  }

  /** The serialised pairs, before they are joined with '&'. */
  function EncodedPairs(pairs: seq<(string, string)>): (parts: seq<string>)
    ensures |parts| == |pairs|
  {
    seq(|pairs|, i requires 0 <= i < |pairs| => FormEncode(pairs[i].0) + "=" + FormEncode(pairs[i].1))
  }

  /** A serialised parameter list splits on '&' into its pairs, in order, and
      each pair on '=' into its encoded name and encoded value: no value can
      break out of its own parameter. */
  lemma SearchParamsSplit(pairs: seq<(string, string)>)
    requires |pairs| >= 1
    ensures Split(SearchParamsToString(pairs), '&') == EncodedPairs(pairs)
    ensures forall k :: 0 <= k < |pairs| ==>
              Split(EncodedPairs(pairs)[k], '=') == [FormEncode(pairs[k].0), FormEncode(pairs[k].1)]
  {
    var parts := EncodedPairs(pairs);
    forall k | 0 <= k < |pairs|
      ensures '&' !in parts[k]
      ensures Split(parts[k], '=') == [FormEncode(pairs[k].0), FormEncode(pairs[k].1)]
    {
      PairSplits(pairs[k].0, pairs[k].1);
    }
    SplitJoin(parts, '&');
  }

  /** The object the landing page serialises, in its key order. */
  function WizardPairs(industry: string, businessName: string, website: string, email: string): seq<(string, string)> {
    [("industry", industry), ("businessName", businessName), ("website", website), ("email", email)]
  }

  /** The wizard's query string carries the four answers, each in its own
      parameter under its own name. */
  lemma WizardQueryCarriesAnswers(industry: string, businessName: string, website: string, email: string)
    ensures var pairs := WizardPairs(industry, businessName, website, email);
            var pieces := Split(WizardQuery(industry, businessName, website, email), '&');
            && |pieces| == 4
            && (forall k :: 0 <= k < 4 ==> Split(pieces[k], '=') == [FormEncode(pairs[k].0), FormEncode(pairs[k].1)])
            && pairs[0].1 == industry && pairs[1].1 == businessName && pairs[2].1 == website && pairs[3].1 == email
  {
    SearchParamsSplit(WizardPairs(industry, businessName, website, email));
  }

  /** The page's state; `location` is what `window.location.href` was set to. */
  class Landing {
    var step: nat
    var industry: string
    var businessName: string
    var website: string
    var email: string
    var emailError: string
    var location: Option<string>

    /** Step 1 or 2, and the error on screen is the one the current email
        gives: a refused submit shows the message that typing the email had
        already shown. */
    predicate Valid()
      reads this
    {
      (step == 1 || step == 2) && emailError == EmailChangeError(email)
    }

    constructor()
      ensures Valid()
      ensures step == 1 && industry == "" && businessName == "" && website == ""
      ensures email == "" && emailError == "" && location == None
    {
      step := 1;
      industry := "";
      businessName := "";
      website := "";
      email := "";
      emailError := "";
      location := None;
    }

    /** `handleStart`, from an industry button of step 1. */
    method HandleStart(selected: string)
      requires Valid() && step == 1
      modifies this
      ensures Valid()
      ensures industry == selected && step == 2
      ensures businessName == old(businessName) && website == old(website)
      ensures email == old(email) && emailError == old(emailError) && location == old(location)
    {
      industry := selected;
      step := 2;
    }

    method SetBusinessName(value: string)
      requires Valid() && step == 2
      modifies this
      ensures Valid()
      ensures businessName == value
      ensures step == old(step) && industry == old(industry) && website == old(website)
      ensures email == old(email) && emailError == old(emailError) && location == old(location)
    {
      businessName := value;
    }

    method SetWebsite(value: string)
      requires Valid() && step == 2
      modifies this
      ensures Valid()
      ensures website == value
      ensures step == old(step) && industry == old(industry) && businessName == old(businessName)
      ensures email == old(email) && emailError == old(emailError) && location == old(location)
    {
      website := value;
    }

    /** `handleEmailChange`: the email is stored and checked as typed. */
    method HandleEmailChange(value: string)
      requires Valid() && step == 2
      modifies this
      ensures Valid()
      ensures email == value && emailError == EmailChangeError(value)
      ensures step == old(step) && industry == old(industry) && businessName == old(businessName)
      ensures website == old(website) && location == old(location)
    {
      email := value;
      ValidEmailIffRegex(value);
      if value != "" && !IsValidEmail(value) {
        emailError := InvalidEmailMessage;
      } else {
        emailError := "";
      }
    }

    /** `handleSubmit`: with both required answers and a well-formed email the
        browser goes to the wizard; a malformed email only shows the error;
        a missing answer does nothing. */
    method HandleSubmit()
      requires Valid() && step == 2
      modifies this
      ensures Valid()
      ensures var target := SubmitLocation(industry, businessName, website, email);
              && (target.Some? ==> location == target && emailError == old(emailError))
              && (target.None? ==> location == old(location))
      ensures businessName != "" && email != "" && !MatchesEmailRegex(email) ==> emailError == InvalidEmailMessage
      ensures businessName == "" || email == "" ==> emailError == old(emailError)
      ensures emailError == old(emailError)
      ensures step == old(step) && industry == old(industry) && businessName == old(businessName)
      ensures website == old(website) && email == old(email)
    {
      if businessName == "" || email == "" {
        return;
      }
      ValidEmailIffRegex(email);
      if !IsValidEmail(email) {
        emailError := InvalidEmailMessage;
        return;
      }
      var query := WizardQuery(industry, businessName, website, email);
      location := Some(WizardPathPrefix + query);
    }
  }
}
