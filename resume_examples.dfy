/**
  A worked case of the recommender: the title "Machine Learning Engineer
  Intern" with no job description matches one Software keyword ("engineer")
  and one Machine Learning keyword ("machine learning"), so it takes the tie
  branch and the priority hierarchy picks Machine Learning with medium
  confidence, offering Software as the equally strong alternative.
*/
module ResumeExamples {
  import opened Text
  import opened Resume

  const Title: string := "machine learning engineer intern"

  lemma NotInEmpty(k: string)
    requires k != []
    ensures !Contains([], k)
  {
  }

  /** A list scores zero when every keyword is missing from both texts. */
  lemma {:induction false} NoneMatch(ks: seq<string>, p: string, j: string)
    requires forall i :: 0 <= i < |ks| ==> !Matches(ks[i], p, j)
    ensures KeywordScore(ks, p, j) == 0
  {
    KeywordScoreZero(ks, p, j);
  }

  /** A list scores one when exactly the keyword at `m` matches. */
  lemma {:induction false} OnlyOneMatches(ks: seq<string>, p: string, j: string, m: nat)
    requires m < |ks| && Matches(ks[m], p, j)
    requires forall i :: 0 <= i < |ks| && i != m ==> !Matches(ks[i], p, j)
    ensures KeywordScore(ks, p, j) == 1
  {
    if m == 0 {
      NoneMatch(ks[1..], p, j);
    } else {
      OnlyOneMatches(ks[1..], p, j, m - 1);
    }
  }

  /** The characters of the title. */
  predicate TitleLetter(c: char)
  {
    c == 'm' || c == 'a' || c == 'c' || c == 'h' || c == 'i' || c == 'n' || c == 'e'
    || c == ' ' || c == 'l' || c == 'r' || c == 'g' || c == 't'
  }

  lemma TitleLetters()
    ensures forall i :: 0 <= i < |Title| ==> TitleLetter(Title[i])
  {
  }

  /** The keywords at `lo..hi` each hold, at the position `w[i - lo]`, a character the title lacks. */
  lemma Misses(ks: seq<string>, w: seq<nat>, lo: nat, hi: nat)
    requires lo <= hi <= |ks| && |w| == hi - lo
    requires forall i :: lo <= i < hi ==> w[i - lo] < |ks[i]| && !TitleLetter(ks[i][w[i - lo]])
    ensures forall i :: lo <= i < hi ==> !Matches(ks[i], Title, [])
  {
    TitleLetters();
    forall i | lo <= i < hi
      ensures !Matches(ks[i], Title, [])
    {
      NotContainsMissing(Title, ks[i], ks[i][w[i - lo]]);
      NotInEmpty(ks[i]);
    }
  }

  /** The adjacent character pairs of the title. */
  predicate TitlePair(a: char, b: char)
  {
    (a == ' ' && b == 'e') || (a == ' ' && b == 'i') || (a == ' ' && b == 'l') || (a == 'a' && b == 'c')
    || (a == 'a' && b == 'r') || (a == 'c' && b == 'h') || (a == 'e' && b == ' ') || (a == 'e' && b == 'a')
    || (a == 'e' && b == 'e') || (a == 'e' && b == 'n') || (a == 'e' && b == 'r') || (a == 'g' && b == ' ')
    || (a == 'g' && b == 'i') || (a == 'h' && b == 'i') || (a == 'i' && b == 'n') || (a == 'l' && b == 'e')
    || (a == 'm' && b == 'a') || (a == 'n' && b == 'e') || (a == 'n' && b == 'g') || (a == 'n' && b == 'i')
    || (a == 'n' && b == 't') || (a == 'r' && b == ' ') || (a == 'r' && b == 'n') || (a == 't' && b == 'e')
  }

  lemma TitlePairs()
    ensures forall i :: 0 <= i < |Title| - 1 ==> TitlePair(Title[i], Title[i + 1])
  {
    forall i | 0 <= i < 8 ensures TitlePair(Title[i], Title[i + 1]) {}
    forall i | 8 <= i < 16 ensures TitlePair(Title[i], Title[i + 1]) {}
    forall i | 16 <= i < 24 ensures TitlePair(Title[i], Title[i + 1]) {}
    forall i | 24 <= i < |Title| - 1 ensures TitlePair(Title[i], Title[i + 1]) {}
  }

  /** A keyword with two adjacent characters, at `k` and `k + 1`, that are never adjacent in the title. */
  lemma PairMisses(keyword: string, k: nat)
    requires k + 1 < |keyword|
    requires !TitlePair(keyword[k], keyword[k + 1])
    ensures !Matches(keyword, Title, [])
  {
    TitlePairs();
    NotContainsPair(Title, keyword, k);
    NotInEmpty(keyword);
  }

  lemma SoftwareMissesHead()
    ensures forall i :: 0 <= i < 10 && i != 1 ==> !Matches(Keywords(Software)[i], Title, [])
  {
    // 's' of software
    Misses(Keywords(Software), [0], 0, 1);
    // 'd' of developer, 'b' of backend, 'f' of frontend, 'f' of full stack, 'f' of fullstack,
    //   'w' of web dev, 'o' of mobile, 'o' of ios
    Misses(Keywords(Software), [0, 0, 0, 0, 0, 0, 1, 1], 2, 10);
  }

  lemma SoftwareMissesTail()
    ensures forall i :: 10 <= i < 24 && i != 17 ==> !Matches(Keywords(Software)[i], Title, [])
  {
    // 'd' of android, 'o' of coding, 'p' of programming, 'j' of java, 'p' of python, '+' of c++,
    //   'j' of javascript
    Misses(Keywords(Software), [2, 1, 0, 0, 0, 1, 0], 10, 17);
    // 'o' of node, 'p' of api, 's' of system design, 's' of swe, 's' of sde,
    //   's' of software development
    Misses(Keywords(Software), [1, 1, 0, 0, 0, 0], 18, 24);
  }

  lemma SoftwareScore()
    ensures KeywordScore(Keywords(Software), Title, []) == 1
  {
    var ks := Keywords(Software);
    assert OccursAt(Title, ks[1], 17);
    SoftwareMissesHead();
    SoftwareMissesTail();
    // the title has no "re" (react)
    PairMisses("react", 0);
    assert ks[17] == "react";
    OnlyOneMatches(ks, Title, [], 1);
  }

  lemma DataScienceScore()
    ensures KeywordScore(Keywords(DataScience), Title, []) == 0
  {
    var ks := Keywords(DataScience);
    // 'd' of data, 'y' of analytics, 'y' of analyst, 'b' of business intelligence, 'b' of bi,
    //   's' of sql, 'b' of tableau
    Misses(ks, [0, 4, 4, 0, 0, 0, 2], 0, 7);
    // 'p' of power bi, 'v' of visualization, 'p' of reporting, 's' of metrics, 'd' of dashboard,
    //   'x' of excel, 's' of statistics
    Misses(ks, [0, 0, 2, 6, 0, 1, 0], 7, 14);
    NoneMatch(ks, Title, []);
  }

  lemma MachineLearningMisses()
    ensures forall i :: 3 <= i < 18 && i != 12 ==> !Matches(Keywords(MachineLearning)[i], Title, [])
  {
    // 'f' of artificial intelligence, 'd' of deep learning, 'u' of neural network, 'p' of nlp,
    //   'o' of computer vision, 's' of tensorflow, 'p' of pytorch, 's' of scikit-learn,
    //   'o' of model
    Misses(Keywords(MachineLearning), [4, 0, 2, 2, 1, 3, 0, 0, 1], 3, 12);
    // 'f' of inference, 'd' of data science, 's' of research, 'p' of phd, 'k' of kaggle
    Misses(Keywords(MachineLearning), [2, 0, 2, 0, 0], 13, 18);
  }

  lemma MachineLearningScore()
    ensures KeywordScore(Keywords(MachineLearning), Title, []) == 1
  {
    var ks := Keywords(MachineLearning);
    assert OccursAt(Title, ks[0], 0);
    MachineLearningMisses();
    // the title has no "ml"
    PairMisses("ml", 0);
    // the title has no "ai"
    PairMisses("ai", 0);
    // the title has no "tr" (training)
    PairMisses("training", 0);
    assert ks[1] == "ml" && ks[2] == "ai" && ks[12] == "training";
    OnlyOneMatches(ks, Title, [], 0);
  }

  lemma CyberMissesHead()
    ensures forall i :: 0 <= i < 11 && i != 5 ==> !Matches(Keywords(Cyber)[i], Title, [])
  {
    // 'y' of cyber, 's' of security, 'f' of infosec, 'p' of penetration, 'v' of vulnerability
    Misses(Keywords(Cyber), [1, 0, 2, 0, 0], 0, 5);
    // 's' of soc, 'd' of incident response, 'f' of firewall, 'y' of encryption, 'o' of compliance
    Misses(Keywords(Cyber), [0, 4, 0, 4, 1], 6, 11);
  }

  lemma CyberMissesTail()
    ensures forall i :: 11 <= i < 18 && i != 16 ==> !Matches(Keywords(Cyber)[i], Title, [])
  {
    // 's' of risk, 'u' of authentication, 'w' of network security, 'w' of malware, 'f' of forensics
    Misses(Keywords(Cyber), [2, 1, 3, 3, 0], 11, 16);
    // 's' of cissp
    Misses(Keywords(Cyber), [2], 17, 18);
  }

  lemma CyberScore()
    ensures KeywordScore(Keywords(Cyber), Title, []) == 0
  {
    var ks := Keywords(Cyber);
    CyberMissesHead();
    CyberMissesTail();
    // the title has no "th" (threat)
    PairMisses("threat", 0);
    // the title has no "ce" (ceh)
    PairMisses("ceh", 0);
    assert ks[5] == "threat" && ks[16] == "ceh";
    NoneMatch(ks, Title, []);
  }

  lemma MaterialsScienceMissesHead()
    ensures forall i :: 0 <= i < 10 && i != 2 ==> !Matches(Keywords(MaterialsScience)[i], Title, [])
  {
    // 's' of materials, 's' of chemistry
    Misses(Keywords(MaterialsScience), [8, 5], 0, 2);
    // 'p' of polymer, 'o' of nanomaterial, 'z' of characterization, 's' of synthesis, 'b' of lab,
    //   's' of research, 'o' of microscopy
    Misses(Keywords(MaterialsScience), [0, 3, 10, 0, 2, 2, 4], 3, 10);
  }

  lemma MaterialsScienceMissesTail()
    ensures forall i :: 10 <= i < 16 ==> !Matches(Keywords(MaterialsScience)[i], Title, [])
  {
    // 's' of spectroscopy, 's' of semiconductor, 'u' of metallurgy, 'b' of biomaterial,
    //   'o' of composite, 'y' of crystallography
    Misses(Keywords(MaterialsScience), [0, 0, 6, 0, 1, 2], 10, 16);
  }

  lemma MaterialsScienceScore()
    ensures KeywordScore(Keywords(MaterialsScience), Title, []) == 0
  {
    var ks := Keywords(MaterialsScience);
    MaterialsScienceMissesHead();
    MaterialsScienceMissesTail();
    // the title has no "he" (chemical)
    PairMisses("chemical", 1);
    assert ks[2] == "chemical";
    NoneMatch(ks, Title, []);
  }

  /** The title scores one Software and one Machine Learning keyword, nothing else. */
  lemma MachineLearningEngineerInternScores(p: string)
    requires p == Title
    ensures var s := ScoresOf(p, []);
      s.software == 1 && s.dataScience == 0 && s.machineLearning == 1 && s.cyber == 0 && s.materialsScience == 0
  {
    SoftwareScore();
    DataScienceScore();
    MachineLearningScore();
    CyberScore();
    MaterialsScienceScore();
  }

  lemma TitleScoresOf(position: string, jobDescription: string)
    requires Lower(position) == Title && jobDescription == ""
    ensures ScoresOf(Lower(position), Lower(jobDescription)) == Scores(1, 0, 1, 0, 0)
  {
    assert Lower(jobDescription) == [];
    MachineLearningEngineerInternScores(Lower(position));
  }

  /** With one Software and one Machine Learning point the top score is 1, shared by exactly those two. */
  lemma TitleScoresTie(s: Scores)
    requires s == Scores(1, 0, 1, 0, 0)
    ensures MaxScore(s) == 1 && Tied(s)
    ensures forall c :: s.Get(c) == MaxScore(s) <==> c == Software || c == MachineLearning
  {
    assert s.Get(MachineLearning) == 1;
    var top := TopCategories(s);
    assert Software in top && MachineLearning in top;
    if |top| <= 1 {
      assert false;
    }
  }

  /** Priority puts Machine Learning ahead of Software, so the tie names it. */
  lemma TiePicksMachineLearning(s: Scores, resume: Category, alts: seq<Alternative>)
    requires forall c :: s.Get(c) == MaxScore(s) <==> c == Software || c == MachineLearning
    requires TieResult(s, resume, alts)
    ensures resume == MachineLearning
  {
    assert PriorityRank(resume) <= PriorityRank(MachineLearning);
  }

  /** A list in dictionary order that holds nothing but `c` is `[c]`. */
  lemma OnlyCategory(cs: seq<Category>, c: Category)
    requires InDictOrder(cs) && c in cs
    requires forall i :: 0 <= i < |cs| ==> cs[i] == c
    ensures cs == [c]
  {
    if |cs| > 1 {
      FirstTwoDiffer(cs);
      assert false;
    }
  }

  lemma FirstTwoDiffer(cs: seq<Category>)
    requires InDictOrder(cs) && |cs| > 1
    ensures cs[0] != cs[1]
  {
    assert Ord(cs[0]) < Ord(cs[1]);
  }

  /** The one other top category, Software, is the only alternative. */
  lemma TieOffersSoftware(s: Scores, alts: seq<Alternative>)
    requires MaxScore(s) == 1
    requires forall c :: s.Get(c) == MaxScore(s) <==> c == Software || c == MachineLearning
    requires TieResult(s, MachineLearning, alts)
    ensures alts == [Alternative(Software, EquallyStrong(1))]
  {
    var cs := Cats(alts);
    assert Software in cs;
    forall i | 0 <= i < |cs|
      ensures cs[i] == Software
    {
      assert cs[i] in cs;
    }
    OnlyCategory(cs, Software);
    assert alts[0] in alts;
  }

  /**
    Whatever satisfies the branch contract on this title, in any letter
    case and with no job description, is the tie-branch answer: Machine
    Learning, medium confidence, Software as the one equally strong
    alternative.
  */
  lemma MachineLearningEngineerInternIsTied(position: string, jobDescription: string,
                                            resume: Category, confidence: Confidence, alts: seq<Alternative>)
    requires Lower(position) == Title && jobDescription == ""
    requires BranchResult(ScoresOf(Lower(position), Lower(jobDescription)), resume, confidence, alts)
    ensures resume == MachineLearning && confidence == Medium
    ensures alts == [Alternative(Software, EquallyStrong(1))]
  {
    var s := Scores(1, 0, 1, 0, 0);
    TitleScoresOf(position, jobDescription);
    TitleScoresTie(s);
    TiePicksMachineLearning(s, resume, alts);
    TieOffersSoftware(s, alts);
  }
}
