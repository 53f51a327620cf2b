/**
 * The rules of the achievements page (`app/achievements/page.tsx`): the category tabs, the
 * earned totals, each card's progress row, and the reward cards' required-achievement chips.
 */
module AchievementsPage {
  import opened Maybe
  import Seqs

  /** An achievement card. `progress` and `maxProgress` are optional fields. */
  datatype Achievement = Achievement(id: string, title: string, earned: bool, rarity: string, points: int,
                                     category: string, progress: Option<int>, maxProgress: Option<int>)

  /** A reward and the achievements it lists as required. */
  datatype Reward = Reward(id: string, title: string, kind: string, unlocked: bool, requiredAchievements: seq<string>)

  /** The category tab that shows every achievement. */
  const AllCategories := "all"

  /** The page's achievement list. */
  const Achievements: seq<Achievement> := [
    Achievement("first-quest", "Safari Beginner", true, "Common", 50, "learning", None, None),
    Achievement("speed-learner", "Cheetah Speed", true, "Rare", 150, "learning", None, None),
    Achievement("math-master", "Lion's Pride", false, "Legendary", 500, "learning", Some(3), Some(5)),
    Achievement("streak-warrior", "Elephant Memory", true, "Epic", 300, "streak", None, None),
    Achievement("perfect-score", "Eagle Eye", true, "Rare", 200, "learning", None, None),
    Achievement("helper", "Monkey Business", false, "Epic", 250, "social", Some(2), Some(5)),
    Achievement("early-bird", "Rooster's Call", false, "Rare", 180, "special", Some(2), Some(5)),
    Achievement("science-explorer", "Rhino Strength", false, "Legendary", 600, "learning", Some(1), Some(4))
  ]

  /** The page's reward list. */
  const Rewards: seq<Reward> := [
    Reward("golden-crown", "Golden Safari Crown", "avatar", true, ["first-quest", "speed-learner"]),
    Reward("champion-badge", "Safari Champion Badge", "badge", false, ["math-master", "science-explorer"]),
    Reward("sunset-theme", "Sunset Safari Theme", "theme", true, ["streak-warrior"])
  ]

  // ---------------------------------------------------------------------------------------
  // Category tabs and totals
  // ---------------------------------------------------------------------------------------

  /** `filteredAchievements`: the whole list for "all", otherwise the achievements of that category in order. */
  function FilterByCategory(achievements: seq<Achievement>, category: string): (r: seq<Achievement>)
    ensures category == AllCategories ==> r == achievements
    ensures category != AllCategories ==> forall a :: a in r <==> a in achievements && a.category == category
    ensures Seqs.Embeds(r, achievements)
  {
    if category == AllCategories then
      Seqs.EmbedsSelf(achievements);
      achievements
    else
      var inCategory := (a: Achievement) => a.category == category;
      Seqs.FilterEmbeds(achievements, inCategory);
      Seqs.Filter(achievements, inCategory)
  }

  predicate IsEarned(a: Achievement) {
    a.earned
  }

  function Points(a: Achievement): int {
    a.points
  }

  /** `earnedAchievements`: the earned ones, in order, one per earned position, so its length is the count the page shows. */
  function EarnedAchievements(achievements: seq<Achievement>): (r: seq<Achievement>)
    ensures forall a :: a in r <==> a in achievements && a.earned
    ensures |r| == |set i: nat | i < |achievements| && achievements[i].earned|
    ensures Seqs.Embeds(r, achievements)
  {
    Seqs.FilterEmbeds(achievements, IsEarned);
    Seqs.FilterCountsIndices(achievements, IsEarned);
    assert Seqs.IndicesWhere(achievements, IsEarned) == set i: nat | i < |achievements| && achievements[i].earned;
    Seqs.Filter(achievements, IsEarned)
  }

  /**
   * `totalPoints`, a `reduce` over the earned achievements: the sum of their points, which with
   * non-negative points lies between zero and the sum over every achievement.
   */
  function TotalPoints(achievements: seq<Achievement>): (total: int)
    ensures total == Seqs.Sum(EarnedAchievements(achievements), Points)
    ensures (forall i :: 0 <= i < |achievements| ==> achievements[i].points >= 0) ==>
              0 <= total <= Seqs.Sum(achievements, Points)
  {
    Seqs.SumFoldIsSum(EarnedAchievements(achievements), Points, 0);
    EarnedPointsBounded(achievements);
    Seqs.SumFold(EarnedAchievements(achievements), Points, 0)
  }

  /** With non-negative points, the earned points lie between zero and the points of every achievement. */
  lemma EarnedPointsBounded(achievements: seq<Achievement>)
    ensures (forall i :: 0 <= i < |achievements| ==> achievements[i].points >= 0) ==>
              0 <= Seqs.Sum(EarnedAchievements(achievements), Points) <= Seqs.Sum(achievements, Points)
  {
    if forall i :: 0 <= i < |achievements| ==> achievements[i].points >= 0 {
      Seqs.FilteredSumBounded(achievements, IsEarned, Points);
    }
  }

  /** With no achievement earned, the count and the points are both zero. */
  lemma NothingEarnedNoPoints(achievements: seq<Achievement>)
    requires forall i :: 0 <= i < |achievements| ==> !achievements[i].earned
    ensures |EarnedAchievements(achievements)| == 0 && TotalPoints(achievements) == 0
  {
    var r := EarnedAchievements(achievements);
    if |r| > 0 {
      Seqs.HeadIsMember(r);
      assert false;
    }
  }

  /** On the shipped list: four achievements earned, worth 700 points. */
  lemma ShippedTotals()
    ensures |EarnedAchievements(Achievements)| == 4
    ensures TotalPoints(Achievements) == 700
  {
  }

  // ---------------------------------------------------------------------------------------
  // Achievement cards
  // ---------------------------------------------------------------------------------------

  /**
   * The progress row under an unearned card: drawn when `progress` is defined and `maxProgress`
   * is truthy, that is defined and non-zero; it shows the pair.
   */
  function ProgressRow(a: Achievement): (row: Option<(int, int)>)
    ensures row.Some? <==> !a.earned && a.progress.Some? && a.maxProgress.Some? && a.maxProgress.value != 0
    ensures row.Some? ==> row.value == (a.progress.value, a.maxProgress.value)
  {
    if !a.earned && a.progress.Some? && a.maxProgress.Some? && a.maxProgress.value != 0 then
      Some((a.progress.value, a.maxProgress.value))
    else None
  }

  /** On the shipped list, exactly the unearned achievements show a progress row. */
  lemma ShippedProgressRows()
    ensures forall a :: a in Achievements ==> (ProgressRow(a).Some? <==> !a.earned)
  {
  }

  // ---------------------------------------------------------------------------------------
  // Rewards
  // ---------------------------------------------------------------------------------------

  /** Where `achievements.find` stops: the first achievement with that id. */
  function FindIndex(achievements: seq<Achievement>, id: string): Option<nat> {
    Seqs.FirstIndex(achievements, (a: Achievement) => a.id == id)
  }

  /** A required-achievement chip: ticked with the title, or plain text. */
  datatype Chip = Ticked(title: string) | Plain(text: string)

  /**
   * One required id: "✓ title" when the achievement is found and earned, otherwise its title
   * when found with a non-empty title, otherwise the raw id.
   */
  function RequirementChip(achievements: seq<Achievement>, id: string): (c: Chip)
    ensures var i := FindIndex(achievements, id);
            c.Ticked? <==> i.Some? && achievements[i.value].earned
    ensures var i := FindIndex(achievements, id);
            c.Ticked? ==> c.title == achievements[i.value].title
    ensures var i := FindIndex(achievements, id);
            c.Plain? && i.Some? && achievements[i.value].title != "" ==> c.text == achievements[i.value].title
    ensures var i := FindIndex(achievements, id);
            c.Plain? && (i.None? || achievements[i.value].title == "") ==> c == Plain(id)
    ensures (forall a :: a in achievements ==> a.id != id) ==> c == Plain(id)
  {
    var i := FindIndex(achievements, id);
    if i.Some? && achievements[i.value].earned then Ticked(achievements[i.value].title)
    else if i.Some? && achievements[i.value].title != "" then Plain(achievements[i.value].title)
    else Plain(id)
  }

  /** A reward card: the equip button, or the locked badge with one chip per required id. */
  datatype RewardCard = Equip | LockedWith(chips: seq<Chip>)

  /** The reward card's branch is taken on the stored `unlocked` flag alone. */
  function RewardCardFor(achievements: seq<Achievement>, reward: Reward): (c: RewardCard)
    ensures c.Equip? <==> reward.unlocked
    ensures c.LockedWith? ==> |c.chips| == |reward.requiredAchievements|
    ensures c.LockedWith? ==> forall i :: 0 <= i < |c.chips| ==>
              c.chips[i] == RequirementChip(achievements, reward.requiredAchievements[i])
  {
    if reward.unlocked then Equip
    else LockedWith(seq(|reward.requiredAchievements|, i requires 0 <= i < |reward.requiredAchievements| =>
                          RequirementChip(achievements, reward.requiredAchievements[i])))
  }

  /** Earning or losing achievements never changes which branch a reward card takes. */
  lemma RewardBranchIgnoresAchievements(before: seq<Achievement>, after: seq<Achievement>, reward: Reward)
    ensures RewardCardFor(before, reward).Equip? == RewardCardFor(after, reward).Equip?
  {
  }

  /** A locked reward whose requirements are all earned shows every chip ticked, and still no equip button. */
  lemma LockedRewardWithEarnedRequirements(achievements: seq<Achievement>, reward: Reward)
    requires !reward.unlocked
    requires forall i :: 0 <= i < |reward.requiredAchievements| ==>
               FindIndex(achievements, reward.requiredAchievements[i]).Some? &&
               achievements[FindIndex(achievements, reward.requiredAchievements[i]).value].earned
    ensures RewardCardFor(achievements, reward).LockedWith?
    ensures forall c :: c in RewardCardFor(achievements, reward).chips ==> c.Ticked?
  {
  }

  /** Every required id of a reward names an earned achievement of the list. */
  predicate RequirementsMet(achievements: seq<Achievement>, reward: Reward) {
    forall i :: 0 <= i < |reward.requiredAchievements| ==>
      RequirementChip(achievements, reward.requiredAchievements[i]).Ticked?
  }

  /** In the shipped data the stored `unlocked` flags happen to agree with the requirements. */
  lemma ShippedRewardsAgreeWithRequirements()
    ensures forall r :: r in Rewards ==> (r.unlocked <==> RequirementsMet(Achievements, r))
  {
    assert FindIndex(Achievements, "first-quest") == Some(0);
    assert FindIndex(Achievements, "speed-learner") == Some(1);
    assert FindIndex(Achievements, "math-master") == Some(2);
    assert FindIndex(Achievements, "streak-warrior") == Some(3);
    assert RequirementsMet(Achievements, Rewards[0]);
    assert !RequirementChip(Achievements, Rewards[1].requiredAchievements[0]).Ticked?;
    assert RequirementsMet(Achievements, Rewards[2]);
  }
}
