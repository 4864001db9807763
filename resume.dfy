/**
  The resume recommender (`recommend_resume`): every resume category is
  scored by how many of its keywords occur in the lower-cased position title
  or job description; the result is a default when nothing matched, a
  fixed-priority pick when several categories tie for the best score, and
  otherwise the single best category with up to two runner-ups. Notes about
  well-known companies are appended to the reasoning last.
*/
module Resume {
  import opened Text

  // ------------------------------------------------------------ categories

  /** The five resume versions, declared in the order of the score dictionary. */
  datatype Category = Software | DataScience | MachineLearning | Cyber | MaterialsScience

  /** Position of a category in the score dictionary; ties and the stable sort keep this order. */
  function Ord(c: Category): nat
  {
    match c
    case Software => 0
    case DataScience => 1
    case MachineLearning => 2
    case Cyber => 3
    case MaterialsScience => 4
  }

  const DictOrder: seq<Category> := [Software, DataScience, MachineLearning, Cyber, MaterialsScience]

  /** The tie-break hierarchy ML > Cyber > SWE > Data > MatSci. */
  const PriorityOrder: seq<Category> := [MachineLearning, Cyber, Software, DataScience, MaterialsScience]

  function PriorityRank(c: Category): (k: nat)
    ensures k < |PriorityOrder| && PriorityOrder[k] == c
  {
    match c
    case MachineLearning => 0
    case Cyber => 1
    case Software => 2
    case DataScience => 3
    case MaterialsScience => 4
  }

  /** The categories listed in dictionary order, each at most once. */
  predicate InDictOrder(cs: seq<Category>)
  {
    forall i, j :: 0 <= i < j < |cs| ==> Ord(cs[i]) < Ord(cs[j])
  }

  lemma DictOrderComplete(c: Category)
    ensures c in DictOrder && DictOrder[Ord(c)] == c
  {
  }

  lemma DictOrderHasAll()
    ensures forall c :: c in DictOrder
  {
    forall c
      ensures c in DictOrder
    {
      DictOrderComplete(c);
    }
  }

  lemma DictOrderIsInDictOrder()
    ensures InDictOrder(DictOrder)
  {
  }

  /** The part of the resource URI after "resume://". */
  function Slug(c: Category): string
  {
    match c
    case Software => "software-engineering"
    case DataScience => "data-science"
    case MachineLearning => "machine-learning"
    case Cyber => "cyber"
    case MaterialsScience => "materials-science"
  }

  function Uri(c: Category): string
  {
    "resume://" + Slug(c)
  }

  /** `uri.split('://')[-1]` recovers the slug of every resume URI. */
  lemma ResumeNameIsSlug(c: Category)
    ensures LastPiece(Uri(c), "://") == Slug(c)
  {
    assert ':' !in Slug(c);
    assert Uri(c) == "resume" + "://" + Slug(c);
    LastPieceAfter("resume", "://", Slug(c));
  }

  /** `uri.split('://')[-1]` of a resume's URI, the `resume_name` the source reports. */
  function ResumeName(c: Category): (name: string)
    ensures name == Slug(c)
  {
    ResumeNameIsSlug(c);
    LastPiece(Uri(c), "://")
  }

  // -------------------------------------------------------------- keywords

  function Keywords(c: Category): seq<string>
  {
    match c
    case Software =>
      ["software", "engineer", "developer", "backend", "frontend", "full stack",
       "fullstack", "web dev", "mobile", "ios", "android", "coding", "programming",
       "java", "python", "c++", "javascript", "react", "node", "api", "system design",
       "swe", "sde", "software development"]
    case DataScience =>
      ["data", "analytics", "analyst", "business intelligence", "bi",
       "sql", "tableau", "power bi", "visualization", "reporting",
       "metrics", "dashboard", "excel", "statistics"]
    case MachineLearning =>
      ["machine learning", "ml", "ai", "artificial intelligence", "deep learning",
       "neural network", "nlp", "computer vision", "tensorflow", "pytorch",
       "scikit-learn", "model", "training", "inference", "data science",
       "research", "phd", "kaggle"]
    case Cyber =>
      ["cyber", "security", "infosec", "penetration", "vulnerability",
       "threat", "soc", "incident response", "firewall", "encryption",
       "compliance", "risk", "authentication", "network security",
       "malware", "forensics", "ceh", "cissp"]
    case MaterialsScience =>
      ["materials", "chemistry", "chemical", "polymer", "nanomaterial",
       "characterization", "synthesis", "lab", "research", "microscopy",
       "spectroscopy", "semiconductor", "metallurgy", "biomaterial",
       "composite", "crystallography"]
  }

  /** A keyword counts when it occurs in either text on its own (not across the two). */
  predicate Matches(keyword: string, positionLower: string, jdLower: string)
  {
    Contains(positionLower, keyword) || Contains(jdLower, keyword)
  }

  /** `sum(1 for keyword in keywords if keyword in position_lower or keyword in jd_lower)`. */
  function KeywordScore(keywords: seq<string>, positionLower: string, jdLower: string): (n: nat)
    ensures n <= |keywords|
  {
    if keywords == [] then 0
    else
      (if Matches(keywords[0], positionLower, jdLower) then 1 else 0)
      + KeywordScore(keywords[1..], positionLower, jdLower)
  }

  /** A score is zero exactly when no keyword of the list matched. */
  lemma {:induction false} KeywordScoreZero(keywords: seq<string>, p: string, j: string)
    ensures KeywordScore(keywords, p, j) == 0 <==> forall k :: k in keywords ==> !Matches(k, p, j)
  {
    if keywords != [] {
      assert forall k :: k in keywords <==> k == keywords[0] || k in keywords[1..];
      KeywordScoreZero(keywords[1..], p, j);
    }
  }

  /** A score equals the length of its list exactly when every keyword matched. */
  lemma {:induction false} KeywordScoreFull(keywords: seq<string>, p: string, j: string)
    ensures KeywordScore(keywords, p, j) == |keywords| <==> forall k :: k in keywords ==> Matches(k, p, j)
  {
    if keywords != [] {
      assert forall k :: k in keywords <==> k == keywords[0] || k in keywords[1..];
      KeywordScoreFull(keywords[1..], p, j);
    }
  }

  /** A text in which every keyword that matched before still matches never lowers the score. */
  lemma {:induction false} KeywordScoreMonotone(keywords: seq<string>, p: string, j: string, p': string, j': string)
    requires forall k :: k in keywords && Matches(k, p, j) ==> Matches(k, p', j')
    ensures KeywordScore(keywords, p, j) <= KeywordScore(keywords, p', j')
  {
    if keywords != [] {
      assert forall k :: k in keywords[1..] ==> k in keywords;
      KeywordScoreMonotone(keywords[1..], p, j, p', j');
    }
  }

  // ---------------------------------------------------------------- scores

  /** The `keyword_scores` of the result, one count per category. */
  datatype Scores = Scores(software: nat, dataScience: nat, machineLearning: nat, cyber: nat, materialsScience: nat)
  {
    function Get(c: Category): nat
    {
      match c
      case Software => software
      case DataScience => dataScience
      case MachineLearning => machineLearning
      case Cyber => cyber
      case MaterialsScience => materialsScience
    }
  }

  /** The five category scores of lower-cased texts; each is bounded by the size of its list. */
  function ScoresOf(positionLower: string, jdLower: string): (s: Scores)
    ensures s.software <= 24 && s.dataScience <= 14 && s.machineLearning <= 18
    ensures s.cyber <= 18 && s.materialsScience <= 16
  {
    Scores(KeywordScore(Keywords(Software), positionLower, jdLower),
           KeywordScore(Keywords(DataScience), positionLower, jdLower),
           KeywordScore(Keywords(MachineLearning), positionLower, jdLower),
           KeywordScore(Keywords(Cyber), positionLower, jdLower),
           KeywordScore(Keywords(MaterialsScience), positionLower, jdLower))
  }

  /** Adding a job description can only raise a category's score. */
  lemma JobDescriptionOnlyAdds(position: string, jobDescription: string, c: Category)
    ensures ScoresOf(Lower(position), Lower("")).Get(c) <= ScoresOf(Lower(position), Lower(jobDescription)).Get(c)
  {
    var p, j := Lower(position), Lower(jobDescription);
    assert Lower("") == [];
    forall k | k in Keywords(c) && Matches(k, p, [])
      ensures Matches(k, p, j)
    {
      if Contains([], k) {
        assert OccursAt(j, k, 0);
      }
    }
    KeywordScoreMonotone(Keywords(c), p, [], p, j);
    ScoreOfCategory(p, [], c);
    ScoreOfCategory(p, j, c);
  }

  lemma ScoreOfCategory(p: string, j: string, c: Category)
    ensures ScoresOf(p, j).Get(c) == KeywordScore(Keywords(c), p, j)
  {
  }

  /** `max(scores.values())`. */
  function MaxScore(s: Scores): (m: nat)
    ensures forall c :: s.Get(c) <= m
    ensures exists c :: s.Get(c) == m
  {
    var m := Max(Max(Max(Max(s.software, s.dataScience), s.machineLearning), s.cyber), s.materialsScience);
    assert s.Get(Software) == m || s.Get(DataScience) == m || s.Get(MachineLearning) == m
      || s.Get(Cyber) == m || s.Get(MaterialsScience) == m;
    m
  }

  /** The categories of `cs` whose score is `m`, in their order in `cs`. */
  function WithScore(cs: seq<Category>, s: Scores, m: nat): (r: seq<Category>)
    ensures forall c :: c in r <==> c in cs && s.Get(c) == m
    ensures InDictOrder(cs) ==> InDictOrder(r)
  {
    if cs == [] then []
    else
      var rest := WithScore(cs[1..], s, m);
      InDictOrderTail(cs);
      if s.Get(cs[0]) == m then [cs[0]] + rest else rest
  }

  lemma InDictOrderTail(cs: seq<Category>)
    requires cs != []
    ensures InDictOrder(cs) ==> InDictOrder(cs[1..]) && forall c :: c in cs[1..] ==> Ord(cs[0]) < Ord(c)
  {
    if InDictOrder(cs) {
      forall c | c in cs[1..]
        ensures Ord(cs[0]) < Ord(c)
      {
        var k :| 0 <= k < |cs[1..]| && cs[1..][k] == c;
        assert cs[k + 1] == c;
      }
    }
  }

  /** `top_resumes`: every category that reaches the maximum score, in dictionary order. */
  function TopCategories(s: Scores): (top: seq<Category>)
    ensures forall c :: c in top <==> s.Get(c) == MaxScore(s)
    ensures InDictOrder(top)
    ensures top != []
  {
    DictOrderHasAll();
    WithScore(DictOrder, s, MaxScore(s))
  }

  // ---------------------------------------------------------- the branches

  /** No keyword of any list matched. */
  predicate NoMatch(s: Scores)
  {
    MaxScore(s) == 0
  }

  /** Two or more categories share a positive maximum. */
  predicate Tied(s: Scores)
  {
    MaxScore(s) > 0 && |TopCategories(s)| > 1
  }

  /** One category alone has the highest score, and it is positive. */
  predicate ClearWinner(s: Scores)
  {
    MaxScore(s) > 0 && |TopCategories(s)| == 1
  }

  /** The three branches in terms of the scores alone. */
  lemma BranchesByScores(s: Scores)
    ensures NoMatch(s) <==> forall c :: s.Get(c) == 0
    ensures Tied(s) <==> exists c, d :: c != d && s.Get(c) == s.Get(d) == MaxScore(s) > 0
    ensures ClearWinner(s) <==> exists c :: s.Get(c) > 0 && forall d :: d != c ==> s.Get(d) < s.Get(c)
    ensures NoMatch(s) || Tied(s) || ClearWinner(s)
  {
    var top := TopCategories(s);
    if |top| > 1 {
      assert top[0] != top[1] by { assert Ord(top[0]) < Ord(top[1]); }
      assert s.Get(top[0]) == s.Get(top[1]) == MaxScore(s);
    } else {
      assert |top| == 1;
      assert top[0] in top;
    }
  }

  // -------------------------------------------------------- the stable sort

  /** `a` comes before `b` in `sorted(scores.items(), key=score, reverse=True)`. */
  predicate Ahead(s: Scores, a: Category, b: Category)
  {
    s.Get(a) > s.Get(b) || (s.Get(a) == s.Get(b) && Ord(a) < Ord(b))
  }

  predicate SortedByScore(s: Scores, r: seq<Category>)
  {
    forall i, j :: 0 <= i < j < |r| ==> Ahead(s, r[i], r[j])
  }

  /** Puts `x` before the first element that does not outscore it. */
  function Insert(s: Scores, x: Category, r: seq<Category>): (t: seq<Category>)
    ensures multiset(t) == multiset(r) + multiset{x}
    ensures |t| == |r| + 1
  {
    if r == [] || s.Get(r[0]) <= s.Get(x) then [x] + r
    else
      assert r == [r[0]] + r[1..];
      [r[0]] + Insert(s, x, r[1..])
  }

  /** A stable sort by descending score (insertion sort from the back). */
  function SortByScore(s: Scores, cs: seq<Category>): (r: seq<Category>)
    ensures multiset(r) == multiset(cs)
    ensures |r| == |cs|
  {
    if cs == [] then []
    else
      assert cs == [cs[0]] + cs[1..];
      Insert(s, cs[0], SortByScore(s, cs[1..]))
  }

  lemma {:induction false} InsertSorted(s: Scores, x: Category, r: seq<Category>)
    requires SortedByScore(s, r)
    requires forall y :: y in r ==> Ord(x) < Ord(y)
    ensures SortedByScore(s, Insert(s, x, r))
    decreases |r|
  {
    if r == [] || s.Get(r[0]) <= s.Get(x) {
      forall y | y in r
        ensures Ahead(s, x, y)
      {
        var k :| 0 <= k < |r| && r[k] == y;
        if k > 0 {
          assert Ahead(s, r[0], r[k]);
        }
      }
      ConsSorted(s, x, r);
    } else {
      var rest := Insert(s, x, r[1..]);
      assert forall y :: y in r[1..] ==> y in r;
      InsertSorted(s, x, r[1..]);
      forall y | y in rest
        ensures Ahead(s, r[0], y)
      {
        assert y in multiset(rest);
        if y != x {
          assert y in multiset(r[1..]);
          var k :| 0 <= k < |r[1..]| && r[1..][k] == y;
          assert Ahead(s, r[0], r[k + 1]);
        }
      }
      ConsSorted(s, r[0], rest);
    }
  }

  /** A head ahead of every element of a sorted list keeps it sorted. */
  lemma ConsSorted(s: Scores, h: Category, r: seq<Category>)
    requires SortedByScore(s, r)
    requires forall y :: y in r ==> Ahead(s, h, y)
    ensures SortedByScore(s, [h] + r)
  {
    var t := [h] + r;
    forall i, j | 0 <= i < j < |t|
      ensures Ahead(s, t[i], t[j])
    {
      assert t[j] == r[j - 1];
      if i == 0 {
        assert t[j] in r;
      } else {
        assert t[i] == r[i - 1];
      }
    }
  }

  /** Sorting categories given in dictionary order keeps dictionary order among equal scores. */
  lemma {:induction false} SortSorted(s: Scores, cs: seq<Category>)
    requires InDictOrder(cs)
    ensures SortedByScore(s, SortByScore(s, cs))
  {
    if cs != [] {
      var rest := SortByScore(s, cs[1..]);
      SortSorted(s, cs[1..]);
      forall y | y in rest
        ensures Ord(cs[0]) < Ord(y)
      {
        assert y in multiset(cs[1..]);
        var k :| 0 <= k < |cs[1..]| && cs[1..][k] == y;
        assert cs[k + 1] == y;
      }
      InsertSorted(s, cs[0], rest);
    }
  }

  /** The sorted score items: every category once, best first. */
  function SortedCategories(s: Scores): (r: seq<Category>)
    ensures |r| == 5 && multiset(r) == multiset(DictOrder)
    ensures SortedByScore(s, r)
  {
    DictOrderIsInDictOrder();
    SortSorted(s, DictOrder);
    SortByScore(s, DictOrder)
  }

  lemma InSorted(s: Scores, c: Category)
    ensures c in SortedCategories(s)
  {
    DictOrderComplete(c);
    assert c in multiset(DictOrder);
  }

  /** A category that outscores every other one sorts first. */
  lemma BestSortsFirst(s: Scores, w: Category)
    requires forall d :: d != w ==> s.Get(d) < s.Get(w)
    ensures SortedCategories(s)[0] == w
  {
    var r := SortedCategories(s);
    InSorted(s, w);
    var k :| 0 <= k < |r| && r[k] == w;
    if k > 0 {
      assert Ahead(s, r[0], r[k]);
    }
  }

  // ------------------------------------------------------------ the result

  datatype Confidence = High | Medium | Low

  /** Why an alternative is offered; the category itself selects the no-match wording. */
  datatype AltReason =
    | UseIfRoleFits
    | EquallyStrong(count: nat)
    | ConsiderIfEmphasizes(name: string, count: nat)

  datatype Alternative = Alternative(category: Category, reason: AltReason)

  /** The entries of `reasoning`, tagged by kind, with the counts and names they print. */
  datatype Note =
    | NoKeywordMatches
    | DefaultingToSoftware
    | ProvideJobDescription
    | TiedAt(count: nat)
    | PrimaryPick(name: string)
    | StrongMatch(name: string, count: nat)
    | FocusOn(category: Category)
    | MajorTechCompany(company: string)
    | DefenseValuesCyber
    | AiLabPrefersMl

  datatype Analysis = Analysis(keywordScores: Scores, company: string, position: string, jdProvided: bool)

  datatype Recommendation = Recommendation(
    resume: Category,
    recommendedResume: string,
    resumeName: string,
    confidence: Confidence,
    reasoning: seq<Note>,
    alternatives: seq<Alternative>,
    analysis: Analysis)

  function Cats(alts: seq<Alternative>): (cs: seq<Category>)
    ensures |cs| == |alts|
  {
    seq(|alts|, i requires 0 <= i < |alts| => alts[i].category)
  }

  lemma InCats(alts: seq<Alternative>, a: Alternative)
    requires a in alts
    ensures a.category in Cats(alts)
  {
    var i :| 0 <= i < |alts| && alts[i] == a;
    assert Cats(alts)[i] == a.category;
  }

  /** The fixed alternatives of the no-match branch: every resume but Software, in dictionary order. */
  function NoMatchAlternatives(): (alts: seq<Alternative>)
    ensures Cats(alts) == DictOrder[1..]
    ensures forall c :: c in Cats(alts) <==> c != Software
    ensures forall a :: a in alts ==> a.reason == UseIfRoleFits
  {
    var alts := [Alternative(DataScience, UseIfRoleFits), Alternative(MachineLearning, UseIfRoleFits),
                 Alternative(Cyber, UseIfRoleFits), Alternative(MaterialsScience, UseIfRoleFits)];
    assert Cats(alts) == DictOrder[1..];
    forall c ensures c in Cats(alts) <==> c != Software {
      DictOrderComplete(c);
    }
    alts
  }

  // --------------------------------------------------------- company notes

  const BigTech: seq<string> := ["google", "meta", "facebook", "amazon", "microsoft", "apple", "netflix"]
  const DefenseContractors: seq<string> := ["defense", "lockheed", "raytheon", "northrop", "booz allen"]
  const AiLabs: seq<string> := ["openai", "deepmind", "anthropic", "hugging face"]

  /** Where a company note goes: big tech, then defense, then AI labs. */
  function CompanyNoteRank(n: Note): nat
  {
    match n
    case MajorTechCompany(_) => 0
    case DefenseValuesCyber => 1
    case AiLabPrefersMl => 2
    case _ => 3
  }

  /** The notes appended for the company: big tech always, defense unless Cyber, AI labs unless ML. */
  function CompanyNotes(company: string, resume: Category): (notes: seq<Note>)
    ensures MajorTechCompany(company) in notes <==> ContainsAny(Lower(company), BigTech)
    ensures DefenseValuesCyber in notes <==> ContainsAny(Lower(company), DefenseContractors) && resume != Cyber
    ensures AiLabPrefersMl in notes <==> ContainsAny(Lower(company), AiLabs) && resume != MachineLearning
    ensures forall n :: n in notes ==> n == MajorTechCompany(company) || n == DefenseValuesCyber || n == AiLabPrefersMl
    ensures |notes| <= 3
    ensures forall i, j :: 0 <= i < j < |notes| ==> CompanyNoteRank(notes[i]) < CompanyNoteRank(notes[j])
  {
    var companyLower := Lower(company);
    (if ContainsAny(companyLower, BigTech) then [MajorTechCompany(company)] else [])
    + (if ContainsAny(companyLower, DefenseContractors) && resume != Cyber then [DefenseValuesCyber] else [])
    + (if ContainsAny(companyLower, AiLabs) && resume != MachineLearning then [AiLabPrefersMl] else [])
  }

  /** The reasoning a branch writes before the company notes. */
  function BranchNotes(s: Scores, resume: Category): seq<Note>
  {
    if NoMatch(s) then [NoKeywordMatches, DefaultingToSoftware, ProvideJobDescription]
    else if Tied(s) then [TiedAt(MaxScore(s)), PrimaryPick(Slug(resume))]
    else [StrongMatch(Slug(resume), MaxScore(s)), FocusOn(resume)]
  }

  // ------------------------------------------------- what each branch promises

  /**
    The tie branch: the pick reaches the maximum and comes first in the
    priority hierarchy among the categories that do; every other such
    category is offered, in dictionary order, as equally strong.
  */
  predicate TieResult(s: Scores, resume: Category, alts: seq<Alternative>)
  {
    && s.Get(resume) == MaxScore(s)
    && (forall c :: s.Get(c) == MaxScore(s) ==> PriorityRank(resume) <= PriorityRank(c))
    && (forall c :: c in Cats(alts) <==> c != resume && s.Get(c) == MaxScore(s))
    && InDictOrder(Cats(alts))
    && (forall a :: a in alts ==> a.reason == EquallyStrong(MaxScore(s)))
  }

  /**
    The runner-ups of winner `w`: at most two, never `w`, all with a positive
    score, best first (ties in dictionary order), each ahead of every other
    non-winner left out, and fewer than two only when no other category scored.
  */
  predicate RunnerUpResult(s: Scores, w: Category, alts: seq<Alternative>)
  {
    && |alts| <= 2
    && (forall c :: c in Cats(alts) ==> c != w && s.Get(c) > 0)
    && SortedByScore(s, Cats(alts))
    && (forall c, d :: c in Cats(alts) && d != w && d !in Cats(alts) ==> Ahead(s, c, d))
    && (|alts| < 2 ==> forall d :: d != w && s.Get(d) > 0 ==> d in Cats(alts))
    && (forall a :: a in alts ==> a.reason == ConsiderIfEmphasizes(Slug(a.category), s.Get(a.category)))
  }

  // ---------------------------------------------------------- the methods

  /** The first category of the priority hierarchy that is among the tied ones. */
  method TieBreak(top: seq<Category>) returns (pick: Category)
    requires top != []
    ensures pick in top
    ensures forall c :: c in top ==> PriorityRank(pick) <= PriorityRank(c)
  {
    var i := 0;
    while PriorityOrder[i] !in top
      invariant 0 <= i <= PriorityRank(top[0])
      invariant forall j :: 0 <= j < i ==> PriorityOrder[j] !in top
      decreases PriorityRank(top[0]) - i
    {
      i := i + 1;
    }
    pick := PriorityOrder[i];
    forall c | c in top
      ensures PriorityRank(pick) <= PriorityRank(c)
    {
      assert PriorityOrder[PriorityRank(c)] == c;
    }
  }

  /** Every other tied category, in dictionary order, as "equally strong". */
  method TieAlternatives(s: Scores, top: seq<Category>, pick: Category) returns (alts: seq<Alternative>)
    requires InDictOrder(top)
    ensures forall c :: c in Cats(alts) <==> c in top && c != pick
    ensures InDictOrder(Cats(alts))
    ensures forall a :: a in alts ==> a.reason == EquallyStrong(s.Get(a.category))
  {
    alts := [];
    for j := 0 to |top|
      invariant forall c :: c in Cats(alts) <==> c in top[..j] && c != pick
      invariant InDictOrder(Cats(alts))
      invariant forall c :: c in Cats(alts) ==> Ord(c) < (if j < |top| then Ord(top[j]) else 5)
      invariant forall a :: a in alts ==> a.reason == EquallyStrong(s.Get(a.category))
    {
      var a := Alternative(top[j], EquallyStrong(s.Get(top[j])));
      TieAlternativesStep(top, pick, alts, a, j);
      if top[j] != pick {
        alts := alts + [a];
      }
    }
    assert top[..|top|] == top;
  }

  /** One turn of the loop of TieAlternatives keeps its invariants. */
  lemma TieAlternativesStep(top: seq<Category>, pick: Category, alts: seq<Alternative>, a: Alternative, j: nat)
    requires InDictOrder(top) && j < |top| && a.category == top[j]
    requires forall c :: c in Cats(alts) <==> c in top[..j] && c != pick
    requires InDictOrder(Cats(alts))
    requires forall c :: c in Cats(alts) ==> Ord(c) < Ord(top[j])
    ensures var next := if top[j] != pick then alts + [a] else alts;
      && (forall c :: c in Cats(next) <==> c in top[..j + 1] && c != pick)
      && InDictOrder(Cats(next))
      && (forall c :: c in Cats(next) ==> Ord(c) < (if j + 1 < |top| then Ord(top[j + 1]) else 5))
  {
    assert top[..j + 1] == top[..j] + [top[j]];
    CatsAppend(alts, a);
    if top[j] != pick {
      AppendInDictOrder(Cats(alts), top[j]);
    }
    if j + 1 < |top| {
      assert Ord(top[j]) < Ord(top[j + 1]);
    }
  }

  /** A category ahead of every listed one in dictionary order extends the list in order. */
  lemma AppendInDictOrder(cs: seq<Category>, c: Category)
    requires InDictOrder(cs)
    requires forall d :: d in cs ==> Ord(d) < Ord(c)
    ensures InDictOrder(cs + [c])
  {
    forall i, k | 0 <= i < k < |cs + [c]|
      ensures Ord((cs + [c])[i]) < Ord((cs + [c])[k])
    {
      if k == |cs| {
        assert cs[i] in cs;
      }
    }
  }

  /** The categories of `cs` with a positive score, in their order in `cs`. */
  function Scoring(s: Scores, cs: seq<Category>): (r: seq<Category>)
    ensures forall c :: c in r <==> c in cs && s.Get(c) > 0
    ensures |r| <= |cs|
    ensures SortedByScore(s, cs) ==> SortedByScore(s, r)
  {
    if cs == [] then []
    else
      var init, last := cs[..|cs| - 1], cs[|cs| - 1];
      assert cs == init + [last];
      var rest := Scoring(s, init);
      SortedPrefix(s, cs);
      if s.Get(last) > 0 then rest + [last] else rest
  }

  lemma SortedPrefix(s: Scores, cs: seq<Category>)
    requires cs != []
    ensures SortedByScore(s, cs) ==>
      SortedByScore(s, cs[..|cs| - 1]) && forall i :: 0 <= i < |cs| - 1 ==> Ahead(s, cs[i], cs[|cs| - 1])
  {
  }

  /** `for uri, score in sorted_scores[1:3]: if score > 0: alternatives.append(...)`. */
  method RunnerUps(s: Scores, sorted: seq<Category>) returns (alts: seq<Alternative>)
    requires |sorted| == 5
    ensures Cats(alts) == Scoring(s, sorted[1..3])
    ensures forall a :: a in alts ==> a.reason == ConsiderIfEmphasizes(Slug(a.category), s.Get(a.category))
  {
    alts := [];
    for k := 1 to 3
      invariant Cats(alts) == Scoring(s, sorted[1..k])
      invariant forall a :: a in alts ==> a.reason == ConsiderIfEmphasizes(Slug(a.category), s.Get(a.category))
    {
      ScoringStep(s, sorted, k);
      var c := sorted[k];
      if s.Get(c) > 0 {
        var name := ResumeName(c);
        var a := Alternative(c, ConsiderIfEmphasizes(name, s.Get(c)));
        CatsAppend(alts, a);
        alts := alts + [a];
      }
    }
  }

  /** One more sorted category extends the scoring ones by itself when its score is positive. */
  lemma ScoringStep(s: Scores, sorted: seq<Category>, k: nat)
    requires 1 <= k < |sorted|
    ensures Scoring(s, sorted[1..k + 1]) == Scoring(s, sorted[1..k]) + (if s.Get(sorted[k]) > 0 then [sorted[k]] else [])
  {
    assert sorted[1..k + 1][..k - 1] == sorted[1..k];
  }

  lemma CatsAppend(alts: seq<Alternative>, a: Alternative)
    ensures Cats(alts + [a]) == Cats(alts) + [a.category]
  {
  }

  /** The runner-ups taken from the sorted scores are the next best after the unique winner `w`. */
  lemma RunnerUpsAreNextBest(s: Scores, w: Category, alts: seq<Alternative>)
    requires forall d :: d != w ==> s.Get(d) < s.Get(w)
    requires Cats(alts) == Scoring(s, SortedCategories(s)[1..3])
    requires forall a :: a in alts ==> a.reason == ConsiderIfEmphasizes(Slug(a.category), s.Get(a.category))
    ensures RunnerUpResult(s, w, alts)
  {
    var sorted := SortedCategories(s);
    BestSortsFirst(s, w);
    RunnerUpsShape(s, sorted);
    forall c, d | c in Cats(alts) && d != w && d !in Cats(alts)
      ensures Ahead(s, c, d)
    {
      RunnerUpsAhead(s, sorted, c, d);
    }
    if |alts| < 2 {
      forall d | d != w && s.Get(d) > 0
        ensures d in Cats(alts)
      {
        RunnerUpsComplete(s, sorted, d);
      }
    }
  }

  /** The runner-ups are at most two, best first, and never the first of the sorted scores. */
  lemma RunnerUpsShape(s: Scores, sorted: seq<Category>)
    requires |sorted| == 5 && SortedByScore(s, sorted)
    ensures var alts := Scoring(s, sorted[1..3]);
      && |alts| <= 2
      && SortedByScore(s, alts)
      && (forall c :: c in alts ==> c != sorted[0])
  {
    assert sorted[1..3] == [sorted[1], sorted[2]];
    assert Ahead(s, sorted[0], sorted[1]) && Ahead(s, sorted[0], sorted[2]) && Ahead(s, sorted[1], sorted[2]);
  }

  /** The scoring categories among two. */
  lemma ScoringPair(s: Scores, sorted: seq<Category>)
    requires |sorted| == 5
    ensures Scoring(s, sorted[1..3]) ==
      (if s.Get(sorted[1]) > 0 then [sorted[1]] else []) + (if s.Get(sorted[2]) > 0 then [sorted[2]] else [])
  {
    assert sorted[1..3] == [sorted[1], sorted[2]];
    assert sorted[1..3][..1] == [sorted[1]];
  }

  /** Each runner-up is ahead of every category other than the first that was left out. */
  lemma RunnerUpsAhead(s: Scores, sorted: seq<Category>, c: Category, d: Category)
    requires |sorted| == 5 && SortedByScore(s, sorted) && multiset(sorted) == multiset(DictOrder)
    requires c in Scoring(s, sorted[1..3]) && d != sorted[0] && d !in Scoring(s, sorted[1..3])
    ensures Ahead(s, c, d)
  {
    ScoringPair(s, sorted);
    var k := IndexIn(s, sorted, d);
    if k >= 3 {
      assert Ahead(s, sorted[1], sorted[k]) && Ahead(s, sorted[2], sorted[k]);
    }
  }

  /** Fewer than two runner-ups are offered only when every other category scored zero. */
  lemma RunnerUpsComplete(s: Scores, sorted: seq<Category>, d: Category)
    requires |sorted| == 5 && SortedByScore(s, sorted) && multiset(sorted) == multiset(DictOrder)
    requires |Scoring(s, sorted[1..3])| < 2 && d != sorted[0] && s.Get(d) > 0
    ensures d in Scoring(s, sorted[1..3])
  {
    ScoringPair(s, sorted);
    var k := IndexIn(s, sorted, d);
    if k >= 3 {
      assert false;
    }
  }

  /** Where a category sits in a reordering of the dictionary. */
  lemma IndexIn(s: Scores, sorted: seq<Category>, c: Category) returns (k: nat)
    requires multiset(sorted) == multiset(DictOrder)
    ensures k < |sorted| && sorted[k] == c
  {
    DictOrderComplete(c);
    assert c in multiset(sorted);
    k :| 0 <= k < |sorted| && sorted[k] == c;
  }

  /** The tie branch: priority pick, its notes, and the other tied categories. */
  method TieBranch(s: Scores, top: seq<Category>) returns (pick: Category, notes: seq<Note>, alts: seq<Alternative>)
    requires Tied(s) && top == TopCategories(s)
    ensures TieResult(s, pick, alts)
    ensures notes == [TiedAt(MaxScore(s)), PrimaryPick(Slug(pick))]
  {
    pick := TieBreak(top);
    var name := ResumeName(pick);
    notes := [TiedAt(MaxScore(s)), PrimaryPick(name)];
    alts := TieAlternatives(s, top, pick);
    forall a | a in alts
      ensures a.reason == EquallyStrong(MaxScore(s))
    {
      InCats(alts, a);
    }
  }

  /** The clear-winner branch: the single best category, its notes, and the runner-ups. */
  method ClearWinnerBranch(s: Scores, top: seq<Category>) returns (pick: Category, notes: seq<Note>, alts: seq<Alternative>)
    requires ClearWinner(s) && top == TopCategories(s)
    ensures forall d :: d != pick ==> s.Get(d) < s.Get(pick)
    ensures RunnerUpResult(s, pick, alts)
    ensures notes == [StrongMatch(Slug(pick), MaxScore(s)), FocusOn(pick)]
  {
    pick := top[0];
    assert pick in top;
    var resumeType := ResumeName(pick);
    notes := [StrongMatch(resumeType, MaxScore(s)), FocusOn(pick)];
    var sorted := SortedCategories(s);
    alts := RunnerUps(s, sorted);
    RunnerUpsAreNextBest(s, pick, alts);
  }

  /** What the three branches together promise about the pick, the confidence and the alternatives. */
  predicate BranchResult(s: Scores, resume: Category, confidence: Confidence, alts: seq<Alternative>)
  {
    && s.Get(resume) == MaxScore(s)
    && (NoMatch(s) ==> resume == Software && confidence == Low && alts == NoMatchAlternatives())
    && (Tied(s) ==> confidence == Medium && TieResult(s, resume, alts))
    && (ClearWinner(s) ==>
          && confidence == High
          && (forall d :: d != resume ==> s.Get(d) < s.Get(resume))
          && RunnerUpResult(s, resume, alts))
  }

  /** The three branches of `recommend_resume` on the computed scores. */
  lemma NoMatchBranch(s: Scores)
    requires MaxScore(s) == 0
    ensures BranchResult(s, Software, Low, NoMatchAlternatives())
    ensures BranchNotes(s, Software) == [NoKeywordMatches, DefaultingToSoftware, ProvideJobDescription]
  {
  }

  lemma TieBranchResult(s: Scores, pick: Category, alts: seq<Alternative>)
    requires Tied(s) && TieResult(s, pick, alts)
    ensures BranchResult(s, pick, Medium, alts)
    ensures BranchNotes(s, pick) == [TiedAt(MaxScore(s)), PrimaryPick(Slug(pick))]
  {
  }

  lemma ClearWinnerBranchResult(s: Scores, pick: Category, alts: seq<Alternative>)
    requires ClearWinner(s) && (forall d :: d != pick ==> s.Get(d) < s.Get(pick))
    requires RunnerUpResult(s, pick, alts)
    ensures BranchResult(s, pick, High, alts)
    ensures BranchNotes(s, pick) == [StrongMatch(Slug(pick), MaxScore(s)), FocusOn(pick)]
  {
    assert pick in TopCategories(s);
  }

  method ChooseResume(scores: Scores) returns (recommendation: Category, confidence: Confidence, reasoning: seq<Note>, alternatives: seq<Alternative>)
    ensures BranchResult(scores, recommendation, confidence, alternatives)
    ensures reasoning == BranchNotes(scores, recommendation)
  {
    var maxScore := MaxScore(scores);
    var top := TopCategories(scores);
    reasoning := [];
    alternatives := [];
    confidence := High;

    if maxScore == 0 {
      recommendation := Software;
      reasoning := reasoning + [NoKeywordMatches, DefaultingToSoftware];
      alternatives := NoMatchAlternatives();
      confidence := Low;
      reasoning := reasoning + [ProvideJobDescription];
      NoMatchBranch(scores);
    } else if |top| > 1 {
      var notes;
      recommendation, notes, alternatives := TieBranch(scores, top);
      reasoning := reasoning + notes;
      confidence := Medium;
      TieBranchResult(scores, recommendation, alternatives);
    } else {
      var notes;
      recommendation, notes, alternatives := ClearWinnerBranch(scores, top);
      reasoning := reasoning + notes;
      ClearWinnerBranchResult(scores, recommendation, alternatives);
    }
  }

  /** `recommend_resume`: scores, the branch decision, then the company notes. */
  method RecommendResume(company: string, position: string, jobDescription: string) returns (r: Recommendation)
    ensures r.analysis == Analysis(ScoresOf(Lower(position), Lower(jobDescription)), company, position, jobDescription != [])
    ensures r.recommendedResume == Uri(r.resume) && r.resumeName == Slug(r.resume)
    ensures BranchResult(r.analysis.keywordScores, r.resume, r.confidence, r.alternatives)
    ensures r.reasoning == BranchNotes(r.analysis.keywordScores, r.resume) + CompanyNotes(company, r.resume)
  {
    var positionLower := Lower(position);
    var jdLower := if jobDescription != [] then Lower(jobDescription) else [];
    assert jdLower == Lower(jobDescription);
    var scores := ScoresOf(positionLower, jdLower);
    var recommendation, confidence, reasoning, alternatives := ChooseResume(scores);
    reasoning := reasoning + CompanyNotes(company, recommendation);
    var resumeName := ResumeName(recommendation);
    r := Recommendation(recommendation, Uri(recommendation), resumeName, confidence, reasoning, alternatives,
                        Analysis(scores, company, position, jobDescription != []));
  }
}
