/**
 * The rules of the home page (`app/page.tsx`): the grade filter of the mini-game strip, the
 * subject/grade/language quiz filter with its cap, and the safari quest cards.
 */
module HomePage {
  import opened Maybe
  import Seqs

  /** A mini-game card: the fields the filter and the card read. */
  datatype MiniGame = MiniGame(id: string, subject: string, minGrade: int, maxGrade: int, progress: int, xp: int)

  /** A quick quiz. */
  datatype Quiz = Quiz(id: string, subject: string, grade: int, lang: string, xp: int)

  /** A safari quest card. */
  datatype SafariQuest = SafariQuest(id: string, difficulty: string, progress: int, xp: int, isLocked: bool, isCompleted: bool)

  /** At most this many quizzes are shown. */
  const QuizCap := 6

  /** The subject choice that matches every quiz. */
  const AllSubjects := "All"

  /** The mini-game catalogue. */
  const MiniGames: seq<MiniGame> := [
    MiniGame("num-jungle", "Math", 6, 7, 60, 120),
    MiniGame("fractions-safari", "Math", 6, 7, 20, 110),
    MiniGame("algebra-savanna", "Math", 8, 10, 35, 180),
    MiniGame("physics-dash", "Physics", 8, 12, 10, 200)
  ]

  /** The quiz catalogue. */
  const Quizzes: seq<Quiz> := [
    Quiz("math-6-algebra-en", "Math", 6, "en", 100),
    Quiz("math-6-algebra-hi", "Math", 6, "hi", 100),
    Quiz("math-7-geometry-en", "Math", 7, "en", 110),
    Quiz("phy-8-motion-en", "Physics", 8, "en", 120),
    Quiz("phy-8-motion-te", "Physics", 8, "te", 120),
    Quiz("chem-9-elements-en", "Chemistry", 9, "en", 130),
    Quiz("chem-9-elements-bn", "Chemistry", 9, "bn", 130),
    Quiz("bio-10-cells-en", "Biology", 10, "en", 140),
    Quiz("bio-10-cells-ta", "Biology", 10, "ta", 140),
    Quiz("math-11-calculus-en", "Math", 11, "en", 160),
    Quiz("phy-12-electricity-en", "Physics", 12, "en", 170),
    Quiz("chem-12-organic-hi", "Chemistry", 12, "hi", 170)
  ]

  // ---------------------------------------------------------------------------------------
  // Mini-games
  // ---------------------------------------------------------------------------------------

  /** `filteredMiniGames`: the games whose grade range contains the chosen grade, ends included, in catalogue order. */
  function FilterMiniGames(games: seq<MiniGame>, grade: int): (r: seq<MiniGame>)
    ensures forall g :: g in r <==> g in games && g.minGrade <= grade <= g.maxGrade
    ensures Seqs.Embeds(r, games)
  {
    var shows := (g: MiniGame) => g.minGrade <= grade <= g.maxGrade;
    Seqs.FilterEmbeds(games, shows);
    Seqs.Filter(games, shows)
  }

  /** Every grade the selector offers, 6 to 12, shows at least one mini-game. */
  lemma EveryGradeHasAMiniGame(grade: int)
    requires 6 <= grade <= 12
    ensures |FilterMiniGames(MiniGames, grade)| > 0
  {
    var g := if grade <= 7 then MiniGames[0] else MiniGames[3];
    assert g in MiniGames;
  }

  // ---------------------------------------------------------------------------------------
  // Quizzes
  // ---------------------------------------------------------------------------------------

  /** A quiz matches when the subject is "All" or its own, and its grade and language are the chosen ones. */
  predicate QuizMatches(q: Quiz, subject: string, grade: int, lang: string) {
    (subject == AllSubjects || q.subject == subject) && q.grade == grade && q.lang == lang
  }

  /** `filteredQuizzes`: the matching quizzes in catalogue order. */
  function FilterQuizzes(quizzes: seq<Quiz>, subject: string, grade: int, lang: string): (r: seq<Quiz>)
    ensures forall q :: q in r <==> q in quizzes && QuizMatches(q, subject, grade, lang)
    ensures Seqs.Embeds(r, quizzes)
  {
    var matches := (q: Quiz) => QuizMatches(q, subject, grade, lang);
    Seqs.FilterEmbeds(quizzes, matches);
    Seqs.Filter(quizzes, matches)
  }

  /** `filteredQuizzes.slice(0, 6)`: the first six matches, or all of them when there are fewer. */
  function ShownQuizzes(quizzes: seq<Quiz>, subject: string, grade: int, lang: string): (r: seq<Quiz>)
    ensures |r| <= QuizCap && |r| <= |FilterQuizzes(quizzes, subject, grade, lang)|
    ensures r == FilterQuizzes(quizzes, subject, grade, lang)[..|r|]
    ensures |r| < QuizCap ==> r == FilterQuizzes(quizzes, subject, grade, lang)
  {
    Seqs.Take(FilterQuizzes(quizzes, subject, grade, lang), QuizCap)
  }

  /** Choosing one subject shows a sub-list, in order, of what "All" shows for the same grade and language. */
  lemma SubjectNarrowsAll(quizzes: seq<Quiz>, subject: string, grade: int, lang: string)
    ensures Seqs.Embeds(FilterQuizzes(quizzes, subject, grade, lang), FilterQuizzes(quizzes, AllSubjects, grade, lang))
  {
    Seqs.FilterMonotone(quizzes, (q: Quiz) => QuizMatches(q, subject, grade, lang),
                        (q: Quiz) => QuizMatches(q, AllSubjects, grade, lang));
  }

  /** Two quizzes of the catalogue never share a grade and a language. */
  predicate OtherSlot(a: Quiz, b: Quiz) {
    a.grade != b.grade || a.lang != b.lang
  }

  /** A numeric code for the languages the quiz selector offers. */
  function LanguageCode(lang: string): int {
    if lang == "en" then 0 else if lang == "hi" then 1 else if lang == "bn" then 2
    else if lang == "te" then 3 else if lang == "ta" then 4 else 5
  }

  /** A number that depends only on a quiz's grade and language. */
  function SlotKey(q: Quiz): int {
    q.grade * 10 + LanguageCode(q.lang)
  }

  /** The catalogue lists its quizzes by ascending grade and, within a grade, by language code. */
  lemma ShippedSlotsAscend()
    ensures forall i :: 0 <= i < |Quizzes| - 1 ==> SlotKey(Quizzes[i]) < SlotKey(Quizzes[i + 1])
  {
  }

  /** The catalogue has one quiz per grade and language. */
  lemma ShippedSlotsDistinct()
    ensures Seqs.Pairwise(Quizzes, OtherSlot)
  {
    ShippedSlotsAscend();
    Seqs.AscendingKeys(Quizzes, SlotKey);
  }

  /** When no two quizzes share a grade and a language, a grade and a language pick out at most one quiz. */
  lemma {:induction false} AtMostOnePerSlot(quizzes: seq<Quiz>, subject: string, grade: int, lang: string)
    requires Seqs.Pairwise(quizzes, OtherSlot)
    ensures |FilterQuizzes(quizzes, subject, grade, lang)| <= 1
  {
    Seqs.FilterKeepsPairwise(quizzes, (q: Quiz) => QuizMatches(q, subject, grade, lang), OtherSlot);
    var r := FilterQuizzes(quizzes, subject, grade, lang);
    assert |r| > 1 ==> OtherSlot(r[0], r[1]);
  }

  /** In the shipped catalogue the cap of six never applies. */
  lemma ShippedQuizzesNeverReachCap(subject: string, grade: int, lang: string)
    ensures |FilterQuizzes(Quizzes, subject, grade, lang)| <= 1
    ensures ShownQuizzes(Quizzes, subject, grade, lang) == FilterQuizzes(Quizzes, subject, grade, lang)
  {
    ShippedSlotsDistinct();
    AtMostOnePerSlot(Quizzes, subject, grade, lang);
  }

  // ---------------------------------------------------------------------------------------
  // Safari quests
  // ---------------------------------------------------------------------------------------

  /** `handleQuestClick`: an unlocked quest becomes the current one; clicking a locked one changes nothing. */
  function HandleQuestClick(current: Option<SafariQuest>, quest: SafariQuest): (r: Option<SafariQuest>)
    ensures quest.isLocked ==> r == current
    ensures !quest.isLocked ==> r == Some(quest)
  {
    if quest.isLocked then current else Some(quest)
  }

  /** The caption of a quest card's button. */
  datatype QuestLabel = LockedLabel | CompletedLabel | ContinueSafari | StartSafari

  /** A quest card's button: whether it is disabled, whether it is drawn outlined, and its caption. */
  datatype QuestButton = QuestButton(disabled: bool, outlined: bool, caption: QuestLabel)

  /** The quest button: disabled exactly when locked; caption by precedence Locked, Completed, Continue, Start. */
  function QuestButtonFor(q: SafariQuest): (b: QuestButton)
    ensures b.disabled <==> q.isLocked
    ensures b.outlined <==> q.isCompleted
    ensures b.caption == LockedLabel <==> q.isLocked
    ensures b.caption == CompletedLabel <==> !q.isLocked && q.isCompleted
    ensures b.caption == ContinueSafari <==> !q.isLocked && !q.isCompleted && q.progress > 0
    ensures b.caption == StartSafari <==> !q.isLocked && !q.isCompleted && q.progress <= 0
  {
    var caption :=
      if q.isLocked then LockedLabel
      else if q.isCompleted then CompletedLabel
      else if q.progress > 0 then ContinueSafari
      else StartSafari;
    QuestButton(q.isLocked, q.isCompleted, caption)
  }

  /** The icon in a quest card's corner. */
  datatype QuestIcon = CheckIcon | LockIcon | SubjectIcon

  /** The card icon: precedence Completed, then Locked, then the quest's own icon. */
  function QuestIconFor(q: SafariQuest): (i: QuestIcon)
    ensures i == CheckIcon <==> q.isCompleted
    ensures i == LockIcon <==> q.isLocked && !q.isCompleted
    ensures i == SubjectIcon <==> !q.isLocked && !q.isCompleted
  {
    if q.isCompleted then CheckIcon else if q.isLocked then LockIcon else SubjectIcon
  }

  /** The progress bar is drawn exactly for unlocked quests. */
  predicate ShowsQuestProgress(q: SafariQuest) {
    !q.isLocked
  }

  /** A click selects the quest, whatever was selected before, exactly when its button is enabled. */
  lemma ClickSelectsIffButtonEnabled(q: SafariQuest)
    ensures !QuestButtonFor(q).disabled <==> forall cur :: HandleQuestClick(cur, q) == Some(q)
  {
    if QuestButtonFor(q).disabled {
      assert HandleQuestClick(None, q) != Some(q);
    }
  }

  /**
   * The icon and the button rank the flags in opposite orders: a quest that is both locked and
   * completed shows the check icon beside a disabled "Locked" button. The flags agree otherwise.
   */
  lemma IconAndButtonPrecedenceDiffer(q: SafariQuest)
    ensures QuestIconFor(q) == CheckIcon && QuestButtonFor(q).caption == LockedLabel <==> q.isLocked && q.isCompleted
    ensures QuestIconFor(q) == LockIcon ==> QuestButtonFor(q).caption == LockedLabel
    ensures QuestIconFor(q) == SubjectIcon <==> ShowsQuestProgress(q) && !QuestButtonFor(q).outlined
  {
  }
}
