# Internship coach: a verified model of its decision procedures

The internship coach is an MCP server around a Google Sheets application
tracker. Four small decision procedures sit inside its `InternshipCoach`
class, and this project models them in Dafny and proves their properties:

- **Resume recommendation** (`recommend_resume`), modules `Resume` and
  `ResumeExamples`.
  - Five keyword lists score the lower-cased position title and job
    description.
  - The scores pick one of three branches:
    - no match: default to the software resume, confidence low;
    - tie: resolved by the fixed priority ML > Cyber > SWE > Data > MatSci,
      confidence medium;
    - clear winner: confidence high, with up to two runner-ups taken from a
      stable descending sort.
  - Notes about well-known companies are appended to the reasoning last.
- **Application status** (`is_applied`), module `Status`. A status counts
  as "applied" when its lower-cased, stripped form is an exact stage name or
  contains a stage word.
- **Application rows** (the second `get_applications`), module
  `Applications`.
  - The fetched rows are numbered from sheet row 16.
  - Rows without a company are skipped.
  - Missing cells read as "".
  - The "applied only" and status filters are applied.
- **Study schedule and interview preparation**, modules `Study` and `Prep`.
  - `generate_study_schedule` cuts the topics into consecutive days of
    `topics_per_day` topics each; the last day may hold fewer.
  - `get_interview_prep_plan` picks the first matching role and returns its
    static plan.

Module `Text` models the string operations these rely on:
- Python's `in` on strings;
- `lower()` and `strip()` on ASCII;
- `split('://')[-1]`;
- Python's two-argument `max` and `min`.

The loops of the source are methods with loop invariants:
- the row loop, the chunking loop and the runner-up loop are each proved
  equal to a specification function, and the properties are lemmas about
  those functions;
- the tie-break loop and the tie-alternatives loop state their properties
  directly in their postconditions.

The spreadsheet fetch is an input of the model. So are the position,
company and job description.

A worked case: the title "Machine Learning Engineer Intern" with no job
description scores 1 for Machine Learning ("machine learning") and 1 for
Software ("engineer"), and 0 elsewhere. That is a tie, so the code answers
Machine Learning with medium confidence and offers Software as the equally
strong alternative (`ResumeExamples.MachineLearningEngineerInternIsTied`).

## Model

| member | source | states |
|---|---|---|
| Text.Contains | internship_coach_mcp.py:144 | Python's `needle in hay`: some index where the needle occurs contiguously in the hay |
| Text.ContainsAny | internship_coach_mcp.py:238-245 | `any(term in s for term in terms)`: some term of the list occurs in the string (also the role tests at 688-694) |
| Text.Max | internship_coach_mcp.py:663 | Python's `max(a, b)`, as in `max(1, ...)` for the day size |
| Text.Min | internship_coach_mcp.py:668 | Python's `min(a, b)`: the end of the slice `topics[i:i+topics_per_day]` clamped to the list's length |
| Text.Lower | internship_coach_mcp.py:105 | `str.lower()` on ASCII: each character mapped on its own (A-Z to a-z, the rest kept), so the length is kept |
| Text.Strip | internship_coach_mcp.py:438 | `str.strip()`: leading and trailing whitespace removed (StripLeft and StripRight give the slices and the blank ends) |
| Text.Normalize | internship_coach_mcp.py:442 | `status.lower().strip()`, the normal form of a status |
| Text.LastPiece | internship_coach_mcp.py:251 | `split(sep)[-1]` is a suffix of the string that no longer contains the separator and is either the whole string or preceded directly by the separator |
| Text.LastPieceAfter | internship_coach_mcp.py:251 | for "resume://name" the last piece after "://" is exactly the name |
| Text.LastPieceWhole | internship_coach_mcp.py:251 | a string without the separator's first character is its own last piece |
| Text.StripEmptyIffBlank | internship_coach_mcp.py:438 | `strip()` gives "" exactly when the string is all whitespace |
| Text.StripLowerCommute | internship_coach_mcp.py:442 | lower-casing and stripping commute |
| Text.NormalizeIgnoresCaseAndPadding | internship_coach_mcp.py:442 | `lower().strip()` ignores the input's case and surrounding whitespace |
| Status.IsApplied | internship_coach_mcp.py:438-472 | `is_applied`: False for a missing or blank status, otherwise the exact-match and substring tests on the normal form; what it means is Status.IsAppliedIff |
| Status.ExactOrStage | internship_coach_mcp.py:444-472 | the tests on the normal form in the source's order: the seven-status set, then "interview", then "phone screen" or "hirevue", then "technical" |
| Status.BlankIsNotApplied | internship_coach_mcp.py:438-439 | an empty or whitespace-only status is not applied |
| Status.IsAppliedIff | internship_coach_mcp.py:438-472 | applied exactly when the normal form is "submitted" or "rejected" or contains "interview", "phone screen", "hirevue" or "technical" |
| Status.ExactMatchesAreStages | internship_coach_mcp.py:445-470 | the seven exact-match statuses add nothing beyond "submitted", "rejected" and the substring tests |
| Status.BlankIffNormalFormEmpty | internship_coach_mcp.py:438-442 | the blank check and an empty normal form agree |
| Status.IsAppliedDependsOnNormalForm | internship_coach_mcp.py:441-472 | statuses with the same lower-cased, stripped form are classified alike |
| Status.IsAppliedIgnoresCaseAndPadding | internship_coach_mcp.py:438-442 | case and surrounding whitespace never change the classification |
| Status.NoStageWithoutTAndH | internship_coach_mcp.py:456-472 | a status with neither 't' nor 'h' is never a stage |
| Status.TechnicalAssessmentIsApplied | internship_coach_mcp.py:468-470 | "Technical Assessment" counts as applied through the substring test |
| Status.UpperCaseSubmittedIsApplied | internship_coach_mcp.py:442-457 | "SUBMITTED" counts as applied |
| Status.InProgressIsNotApplied | internship_coach_mcp.py:427-431 | "In Progress" is not applied |
| Status.OfferPendingReviewIsNotApplied | internship_coach_mcp.py:460-472 | "Offer Pending Review" is not applied: "review" is not "interview" |
| Resume.PriorityRank | internship_coach_mcp.py:185-191 | each category's place in the tie-break hierarchy ML, Cyber, SWE, Data, MatSci |
| Resume.DictOrderIsInDictOrder | internship_coach_mcp.py:151-157 | the score dictionary lists the five categories once each, in declaration order |
| Resume.Slug | internship_coach_mcp.py:151-157 | the part after "resume://" of each category's key in the score dictionary |
| Resume.Uri | internship_coach_mcp.py:39-45 | the resource URI "resume://" followed by the slug, one per resume |
| Resume.ResumeNameIsSlug | internship_coach_mcp.py:251 | `resume_name` is the part of the resume URI after "://" |
| Resume.ResumeName | internship_coach_mcp.py:251 | `split('://')[-1]` of a resume's URI, the name reported for it, equals its slug |
| Resume.Keywords | internship_coach_mcp.py:109-141 | the five keyword lists, word for word and in the source's order |
| Resume.Matches | internship_coach_mcp.py:144-148 | a keyword counts when it occurs in the lower-cased position or in the lower-cased job description |
| Resume.KeywordScore | internship_coach_mcp.py:144-148 | a category score is at most the length of its keyword list |
| Resume.KeywordScoreZero | internship_coach_mcp.py:144-148 | a score is 0 exactly when no keyword occurs in the position or the job description |
| Resume.KeywordScoreFull | internship_coach_mcp.py:144-148 | a score equals its list's length exactly when every keyword occurs |
| Resume.KeywordScoreMonotone | internship_coach_mcp.py:144-148 | texts that keep every matching keyword matching never lower a score |
| Resume.ScoresOf | internship_coach_mcp.py:109-148 | the five scores are bounded by the list sizes 24, 14, 18, 18 and 16 |
| Resume.JobDescriptionOnlyAdds | internship_coach_mcp.py:105-148 | adding a job description never lowers any category's score |
| Resume.MaxScore | internship_coach_mcp.py:159 | the maximum bounds every score and is reached by one |
| Resume.WithScore | internship_coach_mcp.py:162 | the categories with a given score, in their given order |
| Resume.TopCategories | internship_coach_mcp.py:162 | `top_resumes` holds exactly the categories at the maximum, in dictionary order, and is never empty |
| Resume.BranchesByScores | internship_coach_mcp.py:169-209 | no match means all scores are 0; a tie means two categories share a positive maximum; a clear winner means one category strictly beats all others; exactly one of these holds |
| Resume.Insert | internship_coach_mcp.py:228 | insertion keeps the elements (multiset) and adds one |
| Resume.SortByScore | internship_coach_mcp.py:228 | the sort is a permutation of its input |
| Resume.InsertSorted | internship_coach_mcp.py:228 | inserting a category that precedes the rest in dictionary order keeps the list sorted by descending score, ties in dictionary order |
| Resume.SortSorted | internship_coach_mcp.py:228 | sorting a dictionary-ordered list gives descending scores with equal scores in dictionary order (a stable sort) |
| Resume.SortedCategories | internship_coach_mcp.py:228 | `sorted_scores` holds all five categories once, sorted by descending score, stably |
| Resume.BestSortsFirst | internship_coach_mcp.py:228 | a category that outscores all others is first in the sorted scores |
| Resume.CompanyNotes | internship_coach_mcp.py:236-247 | the big-tech note appears iff a big-tech term matches; the defense note iff a defense term matches and the pick is not Cyber; the AI-lab note iff an AI-lab term matches and the pick is not ML; nothing else, at most three, none repeated, in the order big tech, defense, AI lab |
| Resume.BranchNotes | internship_coach_mcp.py:169-225 | the reasoning each branch writes: the three no-match notes; the tie count and primary pick; the strong-match count and the category's focus line |
| Resume.NoMatchAlternatives | internship_coach_mcp.py:174-179 | the no-match alternatives: every resume but Software, in dictionary order, each with the "use if the role fits" reason |
| Resume.TieBreak | internship_coach_mcp.py:185-196 | the pick is tied and comes first in the priority hierarchy among the tied categories |
| Resume.TieAlternatives | internship_coach_mcp.py:201-206 | the alternatives are exactly the other tied categories, in dictionary order, each "equally strong" with its score |
| Resume.Scoring | internship_coach_mcp.py:229-230 | the positive-score categories of a list, in order; sortedness is kept |
| Resume.RunnerUps | internship_coach_mcp.py:229-234 | the alternatives are the positive-score categories among sorted positions 1 and 2, each named by its resume and score |
| Resume.RunnerUpsAreNextBest | internship_coach_mcp.py:228-234 | runner-ups: at most two, never the winner, positive, best first, each ahead of every non-winner left out, and fewer than two only when no other category scored |
| Resume.TieBranch | internship_coach_mcp.py:183-207 | the tie branch's pick, its two reasoning notes and its alternatives |
| Resume.ClearWinnerBranch | internship_coach_mcp.py:209-234 | the clear winner strictly beats every other category; its notes and runner-ups |
| Resume.ChooseResume | internship_coach_mcp.py:164-234 | the recommendation always has the maximum score; no match gives Software, low, and the four fixed alternatives DS, ML, Cyber, MatSci; a tie gives medium and the tie result; a clear winner gives high and the runner-ups |
| Resume.RecommendResume | internship_coach_mcp.py:90-266 | the result echoes the five scores, company, position and whether a job description was given; the URI and name match the pick; the branch promises hold; reasoning is the branch notes followed by the company notes |
| ResumeExamples.MachineLearningEngineerInternScores | internship_coach_mcp.py:109-148 | the lower-cased title "machine learning engineer intern" with an empty job description scores Software 1, Machine Learning 1, all else 0 |
| ResumeExamples.TitleScoresTie | internship_coach_mcp.py:159-183 | those scores tie Software and Machine Learning at 1 |
| ResumeExamples.TitleScoresOf | internship_coach_mcp.py:105-148 | "Machine Learning Engineer Intern" in any letter case, with an empty job description, gets the scores (1, 0, 1, 0, 0) |
| ResumeExamples.MachineLearningEngineerInternIsTied | internship_coach_mcp.py:183-207 | that title, in any letter case and with an empty job description, gives Machine Learning, medium confidence, with Software as the one equally strong alternative |
| Applications.Cell | internship_coach_mcp.py:498-507 | `row[k] if len(row) > k else ''` |
| Applications.ToApplication | internship_coach_mcp.py:498-507 | the application dict built from sheet row `i`: its row number and its first seven cells, missing ones as "" |
| Applications.Skipped | internship_coach_mcp.py:495-496 | a row is skipped when it is empty or its first cell (the company) is empty |
| Applications.Keeps | internship_coach_mcp.py:509-515 | the applied-only test with `is_applied` and, for a non-empty status filter, equality of the lower-cased, stripped status and filter |
| Applications.Listed | internship_coach_mcp.py:494-518 | the filter never returns more applications than rows |
| Applications.GetApplications | internship_coach_mcp.py:491-520 | the loop returns exactly the applications of the specification function |
| Applications.ListedStep | internship_coach_mcp.py:494-518 | each row extends the answer by its own application when it passes, and by nothing otherwise |
| Applications.ApplicationIsPaddedRow | internship_coach_mcp.py:498-507 | an application carries its row number and its cells cut or padded with "" to seven columns |
| Applications.ListedIff | internship_coach_mcp.py:494-518 | an application is returned iff it comes from a row that has a company and passes both filters, numbered 16 plus the row's index |
| Applications.ListedComeFromRows | internship_coach_mcp.py:494-518 | every returned application comes from such a row |
| Applications.IncludedRowsListed | internship_coach_mcp.py:494-518 | every such row's application is returned |
| Applications.IncludedInPrefix | internship_coach_mcp.py:494-511 | whether a row passes depends on that row alone |
| Applications.ListedPassFilters | internship_coach_mcp.py:509-518 | every returned application passes the applied-only and status filters, has a company, and has a row number in range |
| Applications.ListedInRowOrder | internship_coach_mcp.py:494 | returned applications have strictly increasing row numbers, so sheet order is kept |
| Applications.AppliedOf | internship_coach_mcp.py:509-511 | the applied applications of a list: no more than the list, all applied |
| Applications.AppliedOnlyFilters | internship_coach_mcp.py:509-511 | "applied only" equals the unfiltered answer filtered by `is_applied` |
| Applications.StatusFilterUsesNormalForm | internship_coach_mcp.py:514-515 | two non-empty status filters with the same lower-cased, stripped form give the same answer |
| Applications.NoFilterKeepsEveryCompany | internship_coach_mcp.py:494-518 | with no filter every row with a company is returned |
| Study.TopicsPerDay | internship_coach_mcp.py:663 | the day size is at least 1 and at most the number of topics (or 1) |
| Study.DivAtMost | internship_coach_mcp.py:663 | dividing the topic count by a positive day count never exceeds the topic count |
| Study.TopicsPerDayIsFloor | internship_coach_mcp.py:663 | with at least as many topics as days, the day size is the floor of topics over days |
| Study.Chunks | internship_coach_mcp.py:667-668 | every chunk has 1 to `topics_per_day` topics, and all but the last have exactly that many |
| Study.MulDiv | internship_coach_mcp.py:669 | `i // topics_per_day` is the index of the chunk starting at `i` |
| Study.ChunksStep | internship_coach_mcp.py:667-668 | the chunks from index `i` are `topics[i:i+t]` followed by the chunks from `i + t` |
| Study.ChunksAdvance | internship_coach_mcp.py:667-668 | after the chunks before `i`, the next chunk is `topics[i:i+t]` |
| Study.DaysAppend | internship_coach_mcp.py:672-679 | appending a chunk appends the next numbered day |
| Study.MakeDay | internship_coach_mcp.py:672-679 | one schedule entry: its day number, its topics, a morning review per topic, afternoon practice of the first topic, an evening mock interview |
| Study.Days | internship_coach_mcp.py:667-679 | one entry per chunk, numbered from 1 (`i // topics_per_day + 1`) |
| Study.Schedule | internship_coach_mcp.py:667-679 | the schedule for day size `t`: the days of the chunks of `t` topics |
| Study.ChunkTopics | internship_coach_mcp.py:667-679 | the loop builds exactly one day per chunk, numbered from 1 |
| Study.GenerateStudySchedule | internship_coach_mcp.py:659-681 | the schedule is the chunked schedule for `max(1, len // max(1, days))` |
| Study.ChunksFlatten | internship_coach_mcp.py:667-668 | concatenating the chunks gives back the topic list |
| Study.ScheduleCoversTopics | internship_coach_mcp.py:667-679 | the days' topics concatenate to the input; days are numbered 1, 2, and so on; each day has 1 to `topics_per_day` topics |
| Study.ScheduleDayPlan | internship_coach_mcp.py:675-678 | one morning review per topic of the day, afternoon practice of its first topic, an evening mock interview |
| Study.NoTopicsNoDays | internship_coach_mcp.py:667 | no topics give an empty schedule |
| Study.ChunksCount | internship_coach_mcp.py:667 | the number of days is the topic count over the day size, rounded up |
| Study.ScheduleOverrunsDays | internship_coach_mcp.py:663 | as written, three topics over two available days give a three-day schedule |
| Study.FittedTopicsPerDay | internship_coach_mcp.py:663 | the rounded-up day size times the days available covers every topic |
| Study.FittedScheduleWithinDays | internship_coach_mcp.py:663-668 | with the rounded-up day size the schedule never has more days than are available |
| Study.FittedStudySchedule | internship_coach_mcp.py:659-681 | the corrected schedule: the same chunking, and no more days than available |
| Prep.DetectRole | internship_coach_mcp.py:685-697 | the role: the first of the software, data, cybersecurity and ML term lists with a term in the lower-cased position, else general |
| Prep.PlanFor | internship_coach_mcp.py:699-784 | the static plan of each role: topics, resources, daily practice and mock-interview cadence, word for word |
| Prep.GetInterviewPrepPlan | internship_coach_mcp.py:683-786 | `get_interview_prep_plan`: the plan of the detected role |
| Prep.PlansDistinct | internship_coach_mcp.py:699-784 | different roles get different plans |
| Prep.GeneralPlanIffNoTerm | internship_coach_mcp.py:688-697 | the general plan is returned exactly when the lower-cased position contains no term of any list |
| Prep.SoftwareTermWins | internship_coach_mcp.py:688-689 | a software term decides the role whatever else the position contains |
| Prep.LaterRolesNeedEarlierMisses | internship_coach_mcp.py:690-695 | data, cybersecurity and ML are chosen only when every earlier list missed and their own list matched |
| Prep.DetectRoleIgnoresCase | internship_coach_mcp.py:685 | the role does not depend on letter case |
| Prep.MlEngineerIsSoftware | internship_coach_mcp.py:688-689 | "ML Engineer" is a software role |
| Prep.MachineLearningInternIsMachineLearning | internship_coach_mcp.py:688-695 | "Machine Learning Intern" is a machine learning role |

## Left out

- The Google OAuth flow, the token file, and the Sheets and Calendar API calls (internship_coach_mcp.py:47-68, 378-382, 485-489, 522-657) are network I/O. `get_applications` takes the fetched rows as its input.
- Reading resumes from text and PDF files (`_read_pdf`, `_read_text_file`, `read_resource`, 70-88 and 300-329) is file I/O through libraries that are not part of this model.
- MCP server wiring, tool schemas, `call_tool` dispatch and JSON conversion (331-352, 788-953) are plumbing. Two of its routes call the procedures wrongly. One does not await `recommend_resume`. The other calls a `get_interview_prep` that does not exist.
- The first definition of `get_applications` (354-414) is dead code. The later definition at line 474 replaces it when the class is built.
- `list_resources` (271-298) returns static data only.
- `async` is dropped: nothing here is concurrent.
- Lower-casing and stripping are ASCII only. Python's `str.lower()` and `str.strip()` also fold and trim non-ASCII characters.
- Resume.RecommendResume: reasoning entries and alternative reasons are tagged values (`Note`, `AltReason`) that carry the counts and names the source prints. They are not the exact text, which includes garbled emoji bytes. The no-match alternatives carry one tag; the category selects the wording.
- Resume.ScoresOf: its contract states only the bounds. Each score is `KeywordScore` of that category's list by definition. `KeywordScoreZero`, `KeywordScoreFull` and `KeywordScoreMonotone` state what the score means.
- Status: padded statuses have no concrete lemma of their own. `Status.IsAppliedIgnoresCaseAndPadding` proves, for every status, that surrounding whitespace never changes the classification.
- Applications.GetApplications: an absent status filter (`None`) and the empty string are both "no filter", as Python's truth test treats them. The model uses "" for both.
- Study.GenerateStudySchedule: the dates are not modelled. The schedule does not take the interview date, so `strptime` rejecting a malformed date is not modelled either. The morning, afternoon and evening entries are tagged tasks, not the formatted strings.
- Prep: `prep_plans.get(role_type, prep_plans['general'])` never uses its default, because every detected role is a key of the table. The model indexes the table by role.

## Findings

| source | as written | input that shows it | evidently intended | confidence | as-written member | corrected member |
|---|---|---|---|---|---|---|
| internship_coach_mcp.py:663 | `topics_per_day = max(1, len(topics) // max(1, days_available))` rounds down. The loop at 667 then makes ceil(len / topics_per_day) days, which can be more than `days_available`. | three topics, `days_available = 2`: one topic a day, three days | a schedule that fits in the available days, with the day size rounded up | medium (not executed) | Study.ScheduleOverrunsDays | Study.FittedStudySchedule |
