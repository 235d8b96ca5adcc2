/**
 * Concrete questions and the persona the classifier picks for them.
 */
module ClassifierExamples {
  import opened Strings
  import opened ChatRoute
  import Chat

  // Each fact about a concrete question (no keyword of one list occurs in
  // it, it holds no capital letter, one keyword occurs in it) is proved in
  // a lemma of its own whose only hypothesis is the text itself: the solver
  // settles such a fact quickly only while that one text constant is all
  // it is looking at. Several of these lemmas therefore share a body and
  // differ only in the question they are about; the classification lemmas
  // below combine them without looking at the text again.

  lemma MoveInNotVisa(q: string)
    requires q == "전입신고 어떻게 해요?"
    ensures !MatchesAny(q, VisaKeywords)
  {
    NotVisa(q);
  }

  lemma ParentNotVisa(q: string)
    requires q == "parent"
    ensures !MatchesAny(q, VisaKeywords)
  {
    NotVisa(q);
  }

  lemma PleaseNotVisa(q: string)
    requires q == "please explain health insurance"
    ensures !MatchesAny(q, VisaKeywords)
  {
    NotVisa(q);
  }

  lemma GreetingNotVisa(q: string)
    requires q == "hi"
    ensures !MatchesAny(q, VisaKeywords)
  {
    NotVisa(q);
  }

  lemma GreetingNotHousing(q: string)
    requires q == "hi"
    ensures !MatchesAny(q, HousingKeywords)
  {
    NotHousing(q);
  }

  lemma GreetingNotTax(q: string)
    requires q == "hi"
    ensures !MatchesAny(q, TaxKeywords)
  {
    NotTax(q);
  }

  lemma GreetingNotHealthcare(q: string)
    requires q == "hi"
    ensures !MatchesAny(q, HealthcareKeywords)
  {
    NotHealthcare(q);
  }

  /** The move-in report question is a housing question. */
  lemma ClassifyMoveInReport(q: string)
    requires q == "전입신고 어떻게 해요?"
    ensures Classify(q) == HousingLabel
  {
    LowerNoCapitals(q);
    MoveInNotVisa(q);
    KeywordAt(q, "전입", 0);
    OneMatches(q, HousingKeywords, 1);
  }

  /** The visa-extension question is a visa question. */
  lemma ClassifyVisaExtension(q: string)
    requires q == "비자 연장하고 싶어요"
    ensures Classify(q) == VisaLabel
  {
    LowerNoCapitals(q);
    KeywordAt(q, "비자", 0);
    OneMatches(q, VisaKeywords, 0);
  }

  /** Matching is not anchored at word boundaries: "parent" holds "rent". */
  lemma ClassifyParent(q: string)
    requires q == "parent"
    ensures Classify(q) == HousingLabel
  {
    LowerNoCapitals(q);
    ParentNotVisa(q);
    KeywordAt(q, "rent", 2);
    OneMatches(q, HousingKeywords, 11);
  }

  lemma PleaseLower(q: string)
    requires q == "Please explain health insurance"
    ensures Lower(q) == "please explain health insurance"
  {
  }

  lemma PleaseHousing(q: string)
    requires q == "please explain health insurance"
    ensures MatchesAny(q, HousingKeywords)
  {
    KeywordAt(q, "lease", 1);
    OneMatches(q, HousingKeywords, 12);
  }

  lemma PleaseHealthcare(q: string)
    requires q == "please explain health insurance"
    ensures MatchesAny(q, HealthcareKeywords)
  {
    KeywordAt(q, "insurance", 22);
    OneMatches(q, HealthcareKeywords, 8);
  }

  /** "Please" holds "lease", so a health-insurance question that says
      please is answered by the housing persona, although it also names a
      healthcare keyword. */
  lemma ClassifyPleaseInsurance(q: string)
    requires q == "Please explain health insurance"
    ensures MatchesAny(Lower(q), HealthcareKeywords)
    ensures Classify(q) == HousingLabel
  {
    PleaseLower(q);
    PleaseNotVisa(Lower(q));
    PleaseHousing(Lower(q));
    PleaseHealthcare(Lower(q));
  }

  /** A greeting names no keyword and goes to the triage persona. */
  lemma ClassifyGreeting(q: string)
    requires q == "hi"
    ensures Classify(q) == TriageLabel
  {
    LowerNoCapitals(q);
    GreetingNotVisa(q);
    GreetingNotHousing(q);
    GreetingNotTax(q);
    GreetingNotHealthcare(q);
  }
  // The suggestion buttons of the chat panel.

  lemma RenewalNotCapitalised(q: string)
    requires q == "외국인등록증 갱신하려면요?"
    ensures Lower(q) == q
  {
    LowerNoCapitals(q);
  }

  lemma MovedNotVisa(q: string)
    requires q == "이사했는데 뭐 해야 해요?"
    ensures !MatchesAny(q, VisaKeywords)
  {
    NotVisa(q);
  }

  lemma YearEndNotVisa(q: string)
    requires q == "연말정산이 뭐예요?"
    ensures !MatchesAny(q, VisaKeywords)
  {
    NotVisa(q);
  }

  lemma YearEndNotHousing(q: string)
    requires q == "연말정산이 뭐예요?"
    ensures !MatchesAny(q, HousingKeywords)
  {
    NotHousing(q);
  }

  lemma PremiumNotVisa(q: string)
    requires q == "건강보험료 납부 방법은?"
    ensures !MatchesAny(q, VisaKeywords)
  {
    NotVisa(q);
  }

  lemma PremiumNotHousing(q: string)
    requires q == "건강보험료 납부 방법은?"
    ensures !MatchesAny(q, HousingKeywords)
  {
    NotHousing(q);
  }

  lemma PremiumNotTax(q: string)
    requires q == "건강보험료 납부 방법은?"
    ensures !MatchesAny(q, TaxKeywords)
  {
    NotTax(q);
  }

  lemma RenewalVisa(q: string)
    requires q == "외국인등록증 갱신하려면요?"
    ensures MatchesAny(q, VisaKeywords)
  {
    KeywordAt(q, "외국인등록", 0);
    OneMatches(q, VisaKeywords, 3);
  }

  lemma MovedNotCapitalised(q: string)
    requires q == "이사했는데 뭐 해야 해요?"
    ensures Lower(q) == q
  {
    LowerNoCapitals(q);
  }

  lemma MovedHousing(q: string)
    requires q == "이사했는데 뭐 해야 해요?"
    ensures MatchesAny(q, HousingKeywords)
  {
    KeywordAt(q, "이사", 0);
    OneMatches(q, HousingKeywords, 0);
  }

  lemma YearEndNotCapitalised(q: string)
    requires q == "연말정산이 뭐예요?"
    ensures Lower(q) == q
  {
    LowerNoCapitals(q);
  }

  lemma YearEndTax(q: string)
    requires q == "연말정산이 뭐예요?"
    ensures MatchesAny(q, TaxKeywords)
  {
    KeywordAt(q, "연말정산", 0);
    OneMatches(q, TaxKeywords, 2);
  }

  lemma PremiumNotCapitalised(q: string)
    requires q == "건강보험료 납부 방법은?"
    ensures Lower(q) == q
  {
    LowerNoCapitals(q);
  }

  lemma PremiumHealthcare(q: string)
    requires q == "건강보험료 납부 방법은?"
    ensures MatchesAny(q, HealthcareKeywords)
  {
    KeywordAt(q, "건강보험", 0);
    OneMatches(q, HealthcareKeywords, 0);
  }

  /** The residence-card renewal suggestion is a visa question. */
  lemma ClassifyRenewal(q: string)
    requires q == "외국인등록증 갱신하려면요?"
    ensures Classify(q) == VisaLabel
  {
    RenewalNotCapitalised(q);
    RenewalVisa(q);
  }

  /** The moving suggestion is a housing question. */
  lemma ClassifyMoved(q: string)
    requires q == "이사했는데 뭐 해야 해요?"
    ensures Classify(q) == HousingLabel
  {
    MovedNotCapitalised(q);
    MovedNotVisa(q);
    MovedHousing(q);
  }

  /** The year-end settlement suggestion is a tax question. */
  lemma ClassifyYearEnd(q: string)
    requires q == "연말정산이 뭐예요?"
    ensures Classify(q) == TaxLabel
  {
    YearEndNotCapitalised(q);
    YearEndNotVisa(q);
    YearEndNotHousing(q);
    YearEndTax(q);
  }

  /** The insurance premium suggestion is a healthcare question. */
  lemma ClassifyPremium(q: string)
    requires q == "건강보험료 납부 방법은?"
    ensures Classify(q) == HealthcareLabel
  {
    PremiumNotCapitalised(q);
    PremiumNotVisa(q);
    PremiumNotHousing(q);
    PremiumNotTax(q);
    PremiumHealthcare(q);
  }

  lemma RenewalAgrees()
    ensures Classify(Chat.ExampleQuestions[0].text) == Chat.ExampleQuestions[0].category
  {
    ClassifyRenewal(Chat.RenewalQuestion);
  }

  lemma MovingAgrees()
    ensures Classify(Chat.ExampleQuestions[1].text) == Chat.ExampleQuestions[1].category
  {
    ClassifyMoved(Chat.MovingQuestion);
  }

  lemma YearEndAgrees()
    ensures Classify(Chat.ExampleQuestions[2].text) == Chat.ExampleQuestions[2].category
  {
    ClassifyYearEnd(Chat.YearEndQuestion);
  }

  lemma PremiumAgrees()
    ensures Classify(Chat.ExampleQuestions[3].text) == Chat.ExampleQuestions[3].category
  {
    ClassifyPremium(Chat.PremiumQuestion);
  }

  /** Every suggestion button is labelled with the persona the classifier
      picks for its text. */
  lemma ExampleCategoryAgrees(i: nat)
    requires i < |Chat.ExampleQuestions|
    ensures Classify(Chat.ExampleQuestions[i].text) == Chat.ExampleQuestions[i].category
  {
    if i == 0 {
      RenewalAgrees();
    } else if i == 1 {
      MovingAgrees();
    } else if i == 2 {
      YearEndAgrees();
    } else {
      PremiumAgrees();
    }
  }
}
