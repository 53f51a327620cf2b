/**
 * The rules of the community page (`app/community/page.tsx`): the leaderboard's timeframe
 * column and podium, the achievement gallery's category filter, and the reward store's
 * redeem button against the student's fixed 1,250 XP.
 */
module CommunityPage {
  import Seqs

  /** A leaderboard entry: the fields the rules read. */
  datatype Student = Student(id: string, name: string, totalXP: int, weeklyXP: int, monthlyXP: int, rank: int)

  /** A gallery and reward-store achievement. */
  datatype Achievement = Achievement(id: string, title: string, rarity: string, xpRequired: int, category: string)

  /** The viewing student's XP, fixed in the page. */
  const StudentXP := 1250

  /** The gallery option that shows every achievement. */
  const AllCategories := "all"

  /** The gallery's category options. */
  const GalleryCategories := ["all", "Mathematics", "Physics", "Chemistry", "Community"]

  /** `topStudents`. */
  const TopStudents: seq<Student> := [
    Student("1", "Priya Sharma", 2450, 450, 1200, 1),
    Student("2", "Raj Kumar", 2250, 380, 1050, 2),
    Student("3", "Meera Singh", 2100, 320, 980, 3),
    Student("4", "Arjun Patel", 1950, 280, 850, 4)
  ]

  /** `achievements`. */
  const Achievements: seq<Achievement> := [
    Achievement("1", "Math Master", "Epic", 1000, "Mathematics"),
    Achievement("2", "Chemistry Explorer", "Rare", 800, "Chemistry"),
    Achievement("3", "Weekly Champion", "Legendary", 1500, "Achievement"),
    Achievement("4", "Physics Genius", "Epic", 1200, "Physics"),
    Achievement("5", "Community Helper", "Rare", 600, "Community")
  ]

  // ---------------------------------------------------------------------------------------
  // Leaderboard
  // ---------------------------------------------------------------------------------------

  /** The XP shown for a student: weekly for "weekly", monthly for "monthly", and the total for any other value. */
  function XpShown(s: Student, timeframe: string): (xp: int)
    ensures timeframe == "weekly" ==> xp == s.weeklyXP
    ensures timeframe == "monthly" ==> xp == s.monthlyXP
    ensures timeframe != "weekly" && timeframe != "monthly" ==> xp == s.totalXP
  {
    if timeframe == "weekly" then s.weeklyXP
    else if timeframe == "monthly" then s.monthlyXP
    else s.totalXP
  }

  /** The column shows one of the three stored figures, and every unnamed timeframe behaves like "alltime". */
  lemma TimeframeColumn(s: Student, timeframe: string)
    ensures XpShown(s, timeframe) in {s.weeklyXP, s.monthlyXP, s.totalXP}
    ensures timeframe !in {"weekly", "monthly"} ==> XpShown(s, timeframe) == XpShown(s, "alltime")
  {
  }

  /** A podium card: the number shown on it and the student. */
  datatype Placed = Placed(place: nat, student: Student)

  /** `topStudents.slice(0, 3)`, each numbered by its position plus one. */
  function Podium(students: seq<Student>): (r: seq<Placed>)
    ensures |r| == if |students| < 3 then |students| else 3
    ensures forall i :: 0 <= i < |r| ==> r[i].student == students[i] && r[i].place == i + 1
  {
    var top := Seqs.Take(students, 3);
    seq(|top|, i requires 0 <= i < |top| => Placed(i + 1, top[i]))
  }

  /**
   * The podium numbers its cards by position while the full ranking prints each student's
   * `rank`; the two agree exactly when the first three ranks are 1, 2, 3.
   */
  lemma PodiumAgreesWithRanks(students: seq<Student>)
    ensures (forall i :: 0 <= i < |Podium(students)| ==> Podium(students)[i].place == Podium(students)[i].student.rank)
            <==> forall i :: 0 <= i < |students| && i < 3 ==> students[i].rank == i + 1
  {
    var r := Podium(students);
    if forall i :: 0 <= i < |r| ==> r[i].place == r[i].student.rank {
      forall i | 0 <= i < |students| && i < 3 ensures students[i].rank == i + 1 {
        assert r[i].student == students[i];
      }
    }
  }

  /** On the shipped leaderboard the podium numbers match the printed ranks. */
  lemma ShippedPodiumMatchesRanks()
    ensures forall i :: 0 <= i < |Podium(TopStudents)| ==> Podium(TopStudents)[i].place == Podium(TopStudents)[i].student.rank
  {
    PodiumAgreesWithRanks(TopStudents);
  }

  /** The podium card's medal colour, by position: gold, silver, then bronze. */
  datatype Medal = Gold | Silver | Bronze

  function MedalAt(index: nat): (m: Medal)
    ensures m == Gold <==> index == 0
    ensures m == Silver <==> index == 1
    ensures m == Bronze <==> index >= 2
  {
    if index == 0 then Gold else if index == 1 then Silver else Bronze
  }

  // ---------------------------------------------------------------------------------------
  // Achievement gallery
  // ---------------------------------------------------------------------------------------

  /** The gallery: every achievement for "all", otherwise those of the chosen category, in order. */
  function Gallery(achievements: seq<Achievement>, category: string): (r: seq<Achievement>)
    ensures category == AllCategories ==> r == achievements
    ensures category != AllCategories ==> forall a :: a in r <==> a in achievements && a.category == category
    ensures Seqs.Embeds(r, achievements)
  {
    var shows := (a: Achievement) => category == AllCategories || a.category == category;
    Seqs.FilterEmbeds(achievements, shows);
    if category == AllCategories then
      Seqs.FilterKeepsAll(achievements, shows);
      Seqs.Filter(achievements, shows)
    else Seqs.Filter(achievements, shows)
  }

  /** "Weekly Champion" has the category "Achievement", which no option names, so only "all" shows it. */
  lemma WeeklyChampionOnlyUnderAll()
    ensures forall c :: c in GalleryCategories ==> (Achievements[2] in Gallery(Achievements, c) <==> c == AllCategories)
  {
  }

  // ---------------------------------------------------------------------------------------
  // Reward store
  // ---------------------------------------------------------------------------------------

  /** The reward store button: "Redeem Now", or "Need n more XP". */
  datatype RedeemButton = Redeem | Need(more: int)

  /** The button's caption: redeemable when the student's XP covers the requirement, otherwise the positive shortfall. */
  function RedeemButtonFor(a: Achievement): (b: RedeemButton)
    ensures b.Redeem? <==> a.xpRequired <= StudentXP
    ensures b.Need? ==> b.more > 0 && StudentXP + b.more == a.xpRequired
  {
    if StudentXP >= a.xpRequired then Redeem else Need(a.xpRequired - StudentXP)
  }

  /** The button's `disabled` attribute, written as its own comparison. */
  predicate RedeemDisabled(a: Achievement) {
    StudentXP < a.xpRequired
  }

  /** The disabled attribute and the caption never disagree: the button is disabled exactly when it shows a shortfall. */
  lemma DisabledExactlyWithShortfall(a: Achievement)
    ensures RedeemDisabled(a) <==> RedeemButtonFor(a).Need?
  {
  }

  /** In the shipped store only "Weekly Champion" is out of reach, by 250 XP. */
  lemma ShippedRewardStore()
    ensures forall i :: 0 <= i < |Achievements| ==> (RedeemButtonFor(Achievements[i]).Need? <==> i == 2)
    ensures RedeemButtonFor(Achievements[2]) == Need(250)
  {
  }
}
