/**
  The interview preparation plan (`get_interview_prep_plan`): the position
  is lower-cased and matched against four term lists in a fixed order
  (software, data, cybersecurity, machine learning); the first list with a
  term contained in the position decides the role, and the role's static
  plan is returned. A position matching no list gets the general plan.
*/
module Prep {
  import opened Text

  datatype Role = Software | Data | Cybersecurity | MachineLearning | General

  const SoftwareTerms: seq<string> := ["software", "swe", "engineer", "development"]
  const DataTerms: seq<string> := ["data", "analytics", "ds"]
  const CyberTerms: seq<string> := ["cyber", "security", "infosec"]
  const MachineLearningTerms: seq<string> := ["ml", "machine learning", "ai"]

  /** The role of a position: the first term list, in the source's order, with a term in the lower-cased position. */
  function DetectRole(position: string): Role
  {
    var p := Lower(position);
    if ContainsAny(p, SoftwareTerms) then Software
    else if ContainsAny(p, DataTerms) then Data
    else if ContainsAny(p, CyberTerms) then Cybersecurity
    else if ContainsAny(p, MachineLearningTerms) then MachineLearning
    else General
  }

  datatype PrepPlan = PrepPlan(topics: seq<string>, resources: seq<string>, dailyPractice: string, mockInterviews: string)

  const SoftwarePlan: PrepPlan := PrepPlan(
    [ "Data Structures (Arrays, LinkedLists, Trees, Graphs, HashMaps)",
      "Algorithms (Sorting, Searching, Dynamic Programming)",
      "System Design Basics",
      "OOP Concepts",
      "Time & Space Complexity"],
    [ "LeetCode (focus on Medium problems)",
      "NeetCode roadmap",
      "Cracking the Coding Interview",
      "System Design Primer (GitHub)"],
    "2-3 LeetCode problems, 1 system design question",
    "2 per week")

  const DataPlan: PrepPlan := PrepPlan(
    [ "SQL (Joins, Subqueries, Window Functions, CTEs)",
      "Pandas (DataFrames, GroupBy, Merge, Pivot)",
      "Statistics (Distributions, Hypothesis Testing, A/B Testing)",
      "Data Visualization (Matplotlib, Seaborn, Tableau)",
      "Python fundamentals"],
    [ "Mode Analytics SQL Tutorial",
      "Pandas Documentation + Practice",
      "Kaggle Datasets",
      "DataCamp SQL Track",
      "Storytelling with Data (book)"],
    "2 SQL challenges, analyze 1 dataset",
    "1-2 per week with case studies")

  const CybersecurityPlan: PrepPlan := PrepPlan(
    [ "Network Security (TCP/IP, Firewalls, VPNs)",
      "Cryptography basics",
      "Common vulnerabilities (OWASP Top 10)",
      "Security tools (Wireshark, Nmap, Metasploit)",
      "Incident response process"],
    [ "TryHackMe or HackTheBox",
      "OWASP documentation",
      "CompTIA Security+ study materials",
      "Cybrary courses"],
    "Complete 1-2 CTF challenges",
    "1 per week + technical scenarios")

  const MachineLearningPlan: PrepPlan := PrepPlan(
    [ "ML Algorithms (Linear/Logistic Regression, Trees, Neural Nets)",
      "Model Evaluation (Precision, Recall, F1, ROC-AUC)",
      "Feature Engineering",
      "Deep Learning basics",
      "Python (NumPy, Scikit-learn, TensorFlow/PyTorch)"],
    [ "Andrew Ng ML Course (Coursera)",
      "Hands-On ML with Scikit-Learn (book)",
      "Kaggle Competitions",
      "Fast.ai course"],
    "Work on 1 Kaggle dataset, implement 1 algorithm",
    "1-2 per week")

  const GeneralPlan: PrepPlan := PrepPlan(
    [ "Company research",
      "STAR method for behavioral questions",
      "Technical fundamentals for role",
      "Past projects deep-dive"],
    [ "Glassdoor interview reviews",
      "Company website & recent news",
      "LinkedIn company page"],
    "Practice behavioral stories, review resume",
    "2 behavioral per week")

  /** The static plan of each role. */
  function PlanFor(role: Role): PrepPlan
  {
    match role
    case Software => SoftwarePlan
    case Data => DataPlan
    case Cybersecurity => CybersecurityPlan
    case MachineLearning => MachineLearningPlan
    case General => GeneralPlan
  }

  /** `get_interview_prep_plan`. */
  function GetInterviewPrepPlan(position: string): PrepPlan
  {
    PlanFor(DetectRole(position))
  }

  /** Each role's plan is its own: no two roles share a mock-interview cadence. */
  lemma PlansDistinct(a: Role, b: Role)
    ensures PlanFor(a) == PlanFor(b) <==> a == b
  {
    if a != b {
      assert PlanFor(a).mockInterviews != PlanFor(b).mockInterviews;
    }
  }

  /** The general plan is returned exactly when the position mentions no term of any list. */
  lemma GeneralPlanIffNoTerm(position: string)
    ensures GetInterviewPrepPlan(position) == PlanFor(General) <==>
      var p := Lower(position);
      !ContainsAny(p, SoftwareTerms) && !ContainsAny(p, DataTerms)
      && !ContainsAny(p, CyberTerms) && !ContainsAny(p, MachineLearningTerms)
  {
    PlansDistinct(DetectRole(position), General);
  }

  /** A software term decides the role whatever else the position mentions. */
  lemma SoftwareTermWins(position: string, term: string)
    requires term in SoftwareTerms && Contains(Lower(position), term)
    ensures DetectRole(position) == Software
  {
  }

  /** Each later role is chosen only when no earlier list matched and its own list did. */
  lemma LaterRolesNeedEarlierMisses(position: string)
    ensures var p := Lower(position);
      && (DetectRole(position) == Data ==> !ContainsAny(p, SoftwareTerms) && ContainsAny(p, DataTerms))
      && (DetectRole(position) == Cybersecurity ==>
            !ContainsAny(p, SoftwareTerms) && !ContainsAny(p, DataTerms) && ContainsAny(p, CyberTerms))
      && (DetectRole(position) == MachineLearning ==>
            !ContainsAny(p, SoftwareTerms) && !ContainsAny(p, DataTerms)
            && !ContainsAny(p, CyberTerms) && ContainsAny(p, MachineLearningTerms))
  {
  }

  /** The role ignores letter case. */
  lemma DetectRoleIgnoresCase(position: string)
    ensures DetectRole(Lower(position)) == DetectRole(position)
  {
    LowerIdempotent(position);
  }

  /** "ML Engineer" is a software role: "engineer" is tried before "ml". */
  lemma MlEngineerIsSoftware()
    ensures DetectRole("ML Engineer") == Software
  {
    var p := Lower("ML Engineer");
    assert p == "ml engineer";
    assert OccursAt(p, "engineer", 3);
    assert "engineer" in SoftwareTerms;
  }

  /** "Machine Learning Intern" mentions no software, data or security term, so it gets the machine learning plan. */
  lemma MachineLearningInternIsMachineLearning()
    ensures DetectRole("Machine Learning Intern") == MachineLearning
  {
    var p := Lower("Machine Learning Intern");
    assert p == "machine learning intern";
    InternMissesSoftware(p);
    InternMissesData(p);
    InternMissesCyber(p);
    assert OccursAt(p, "machine learning", 0);
    assert "machine learning" in MachineLearningTerms;
  }

  /** The characters of "machine learning intern". */
  const InternLetters: set<char> := {'m', 'a', 'c', 'h', 'i', 'n', 'e', ' ', 'l', 'r', 'g', 't'}

  lemma InternWrittenIn(p: string)
    requires p == "machine learning intern"
    ensures forall i :: 0 <= i < |p| ==> p[i] in InternLetters
  {
  }

  lemma InternMissesSoftware(p: string)
    requires p == "machine learning intern"
    ensures !ContainsAny(p, SoftwareTerms)
  {
    InternWrittenIn(p);
    NotContainsOutside(p, "software", 0, InternLetters);
    NotContainsOutside(p, "swe", 0, InternLetters);
    NotContainsPair(p, "engineer", 5);
    NotContainsOutside(p, "development", 0, InternLetters);
  }

  lemma InternMissesData(p: string)
    requires p == "machine learning intern"
    ensures !ContainsAny(p, DataTerms)
  {
    InternWrittenIn(p);
    NotContainsOutside(p, "data", 0, InternLetters);
    NotContainsOutside(p, "analytics", 4, InternLetters);
    NotContainsOutside(p, "ds", 0, InternLetters);
  }

  lemma InternMissesCyber(p: string)
    requires p == "machine learning intern"
    ensures !ContainsAny(p, CyberTerms)
  {
    InternWrittenIn(p);
    NotContainsOutside(p, "cyber", 1, InternLetters);
    NotContainsOutside(p, "security", 0, InternLetters);
    NotContainsOutside(p, "infosec", 2, InternLetters);
  }
}
