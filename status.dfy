/**
  Whether an application status counts as "applied" (`is_applied`): a
  status that was submitted, rejected, or reached a phone screen, HireVue,
  technical or interview stage. Blank statuses and everything else, such as
  "In Progress", do not.
*/
module Status {
  import opened Text

  /** The exact statuses (after lower-casing and stripping) that count as applied. */
  const AppliedStatuses: set<string> :=
    {"submitted", "rejected", "phone screen", "hirevue", "phone screen/hirevue", "technical", "interview"}

  /** `is_applied`: the blank check, then exact matches, then the substring tests, in the source's order. */
  predicate IsApplied(status: string)
  {
    if Strip(status) == [] then false
    else ExactOrStage(Normalize(status))
  }

  /** The tests `is_applied` makes on the normal form `s` of a non-blank status. */
  predicate ExactOrStage(s: string)
  {
    if s in AppliedStatuses then true
    else if Contains(s, "interview") then true
    else if Contains(s, "phone screen") || Contains(s, "hirevue") then true
    else Contains(s, "technical")
  }

  /**
    The documented meaning of "applied", stated on the normal form: exactly
    "submitted" or "rejected", or mentioning an interview, a phone screen,
    HireVue or a technical stage.
  */
  predicate AppliedByStage(s: string)
  {
    s == "submitted" || s == "rejected"
    || Contains(s, "interview") || Contains(s, "phone screen")
    || Contains(s, "hirevue") || Contains(s, "technical")
  }

  lemma ContainsSelf(s: string)
    ensures Contains(s, s)
  {
    assert OccursAt(s, s, 0);
  }

  /** A blank or whitespace-only status is never applied. */
  lemma BlankIsNotApplied(status: string)
    requires Blank(status)
    ensures !IsApplied(status)
  {
    StripEmptyIffBlank(status);
  }

  /**
    `is_applied` holds exactly when the lower-cased, stripped status is
    "submitted" or "rejected" or contains one of the stage words: the other
    exact-match members are covered by the substring tests.
  */
  lemma IsAppliedIff(status: string)
    ensures IsApplied(status) <==> AppliedByStage(Normalize(status))
  {
    var s := Normalize(status);
    BlankIffNormalFormEmpty(status);
    if s == [] {
      NoStageInEmpty(s);
    } else {
      ExactMatchesAreStages(s);
    }
  }

  lemma NoStageInEmpty(s: string)
    requires s == []
    ensures !AppliedByStage(s)
  {
    NoStageWithoutTAndH(s);
  }

  /** Every exact-match status is "submitted", "rejected", or caught by a substring test. */
  lemma ExactMatchesAreStages(s: string)
    ensures ExactOrStage(s) == AppliedByStage(s)
  {
    if s == "phone screen" || s == "phone screen/hirevue" {
      assert OccursAt(s, "phone screen", 0);
    } else if s == "hirevue" || s == "technical" || s == "interview" {
      ContainsSelf(s);
    }
  }

  lemma BlankIffNormalFormEmpty(status: string)
    ensures Strip(status) == [] <==> Normalize(status) == []
  {
    StripEmptyIffBlank(status);
    StripEmptyIffBlank(Lower(status));
    forall i | 0 <= i < |status|
      ensures IsSpace(Lower(status)[i]) == IsSpace(status[i])
    {
      LowerKeepsSpace(status[i]);
    }
  }

  /** The result depends on the status only through its normal form. */
  lemma IsAppliedDependsOnNormalForm(a: string, b: string)
    requires Normalize(a) == Normalize(b)
    ensures IsApplied(a) == IsApplied(b)
  {
    IsAppliedIff(a);
    IsAppliedIff(b);
  }

  /** Case and surrounding whitespace never change the classification. */
  lemma IsAppliedIgnoresCaseAndPadding(status: string)
    ensures IsApplied(Lower(status)) == IsApplied(status)
    ensures IsApplied(Strip(status)) == IsApplied(status)
  {
    NormalizeIgnoresCaseAndPadding(status);
    IsAppliedDependsOnNormalForm(Lower(status), status);
    IsAppliedDependsOnNormalForm(Strip(status), status);
  }

  lemma StripUnpadded(s: string)
    requires s != [] && !IsSpace(s[0]) && !IsSpace(s[|s| - 1])
    ensures Strip(s) == s
  {
  }

  /** Every stage word, "submitted" and "rejected" contain a 't' or an 'h'. */
  lemma NoStageWithoutTAndH(s: string)
    requires 't' !in s && 'h' !in s
    ensures !AppliedByStage(s)
  {
    NotContainsMissing(s, "interview", 't');
    NotContainsMissing(s, "phone screen", 'h');
    NotContainsMissing(s, "hirevue", 'h');
    NotContainsMissing(s, "technical", 't');
  }

  /** Two statuses with the same normal form are classified by that normal form. */
  lemma ClassifiedByNormalForm(status: string, s: string)
    requires Normalize(status) == s
    ensures IsApplied(status) == AppliedByStage(s)
  {
    IsAppliedIff(status);
  }

  /** Variants of a stage name are caught by the substring tests. */
  lemma TechnicalAssessmentIsApplied(status: string)
    requires status == "Technical Assessment"
    ensures IsApplied(status)
  {
    TechnicalAssessmentNormalForm();
    TechnicalAssessmentIsStage("technical assessment");
    ClassifiedByNormalForm(status, "technical assessment");
  }

  lemma TechnicalAssessmentNormalForm()
    ensures Normalize("Technical Assessment") == "technical assessment"
  {
    assert Lower("Technical Assessment") == "technical assessment";
    StripUnpadded("technical assessment");
  }

  lemma TechnicalAssessmentIsStage(s: string)
    requires s == "technical assessment"
    ensures AppliedByStage(s)
  {
    assert OccursAt(s, "technical", 0);
  }

  /** Upper case does not hide a submitted application. */
  lemma UpperCaseSubmittedIsApplied(status: string)
    requires status == "SUBMITTED"
    ensures IsApplied(status)
  {
    UpperCaseSubmittedNormalForm();
    ClassifiedByNormalForm(status, "submitted");
  }

  lemma UpperCaseSubmittedNormalForm()
    ensures Normalize("SUBMITTED") == "submitted"
  {
    assert Lower("SUBMITTED") == "submitted";
    StripUnpadded("submitted");
  }

  /** "In Progress" is the tracker's not-yet-applied status. */
  lemma InProgressIsNotApplied(status: string)
    requires status == "In Progress"
    ensures !IsApplied(status)
  {
    InProgressNormalForm();
    ExampleIsNoStage("in progress");
    ClassifiedByNormalForm(status, "in progress");
  }

  lemma InProgressNormalForm()
    ensures Normalize("In Progress") == "in progress"
  {
    assert Lower("In Progress") == "in progress";
    StripUnpadded("in progress");
  }

  /** "review" alone is not "interview". */
  lemma OfferPendingReviewIsNotApplied(status: string)
    requires status == "Offer Pending Review"
    ensures !IsApplied(status)
  {
    OfferPendingReviewNormalForm();
    ExampleIsNoStage("offer pending review");
    ClassifiedByNormalForm(status, "offer pending review");
  }

  lemma OfferPendingReviewNormalForm()
    ensures Normalize("Offer Pending Review") == "offer pending review"
  {
    assert Lower("Offer Pending Review") == "offer pending review";
    StripUnpadded("offer pending review");
  }

  /** Neither example status holds a 't' or an 'h'. */
  lemma ExampleIsNoStage(s: string)
    requires s == "in progress" || s == "offer pending review"
    ensures !AppliedByStage(s)
  {
    NoStageWithoutTAndH(s);
  }
}
