/**
 * Badge and button rules shared by several pages. The colour lookups each return a set of
 * Tailwind classes built around one hue; the model keeps the hue.
 */
module Badges {

  datatype Tone = Green | Orange | Red | Gray | Blue | Purple | Yellow

  /** `getDifficultyColor` on the home and journey pages: one hue per difficulty, gray for anything else. */
  function DifficultyTone(d: string): (t: Tone)
    ensures t == Green <==> d == "Explorer"
    ensures t == Orange <==> d == "Adventurer"
    ensures t == Red <==> d == "Safari Master"
    ensures t == Gray <==> d !in {"Explorer", "Adventurer", "Safari Master"}
  {
    if d == "Explorer" then Green
    else if d == "Adventurer" then Orange
    else if d == "Safari Master" then Red
    else Gray
  }

  /** `difficultyBadgeColor` on the games page: the same first two hues, and red for every other value. */
  function GameDifficultyTone(d: string): (t: Tone)
    ensures t == Green <==> d == "Explorer"
    ensures t == Orange <==> d == "Adventurer"
    ensures t == Red <==> d != "Explorer" && d != "Adventurer"
    ensures t != Gray
  {
    if d == "Explorer" then Green
    else if d == "Adventurer" then Orange
    else Red
  }

  /** The two difficulty lookups agree on the three difficulties and disagree on everything else. */
  lemma DifficultyLookupsAgreeOnKnownValues(d: string)
    ensures DifficultyTone(d) == GameDifficultyTone(d) <==> d in {"Explorer", "Adventurer", "Safari Master"}
  {
  }

  /** `getRarityColor`: Common gray, Rare blue, Epic purple, Legendary yellow, gray for anything else. */
  function RarityTone(rarity: string): (t: Tone)
    ensures t == Blue <==> rarity == "Rare"
    ensures t == Purple <==> rarity == "Epic"
    ensures t == Yellow <==> rarity == "Legendary"
    ensures t == Gray <==> rarity !in {"Rare", "Epic", "Legendary"}
  {
    if rarity == "Common" then Gray
    else if rarity == "Rare" then Blue
    else if rarity == "Epic" then Purple
    else if rarity == "Legendary" then Yellow
    else Gray
  }

  /** `getTypeColor` for community challenges: Individual green, Team blue, Village purple, gray otherwise. */
  function ChallengeTypeTone(kind: string): (t: Tone)
    ensures t == Green <==> kind == "Individual"
    ensures t == Blue <==> kind == "Team"
    ensures t == Purple <==> kind == "Village"
    ensures t == Gray <==> kind !in {"Individual", "Team", "Village"}
  {
    if kind == "Individual" then Green
    else if kind == "Team" then Blue
    else if kind == "Village" then Purple
    else Gray
  }

  /** The caption of a game's play button. */
  datatype PlayLabel = Continue | Start

  /** A game card's play button on the home and games pages: "Continue" once any progress exists, else "Start". */
  function PlayLabelFor(progress: int): (l: PlayLabel)
    ensures l == Continue <==> progress > 0
  {
    if progress > 0 then Continue else Start
  }
}
