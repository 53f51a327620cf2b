/**
 * The rules of the games hub (`app/games/page.tsx`): the grade-range filter over the fixed
 * game catalogue and the fields each game card derives.
 */
module GamesPage {
  import opened Maybe
  import Seqs

  /** A catalogue game: the fields the filter and the card read. `cover` is optional. */
  datatype Game = Game(id: string, subject: string, minGrade: int, maxGrade: int, difficulty: string,
                       progress: int, xpReward: int, cover: Option<string>)

  /** The image used when a game has no cover. */
  const PlaceholderCover := "/placeholder.jpg"

  /** `ALL_GAMES`. */
  const AllGames: seq<Game> := [
    Game("num-jungle", "Mathematics", 6, 7, "Explorer", 60, 120, Some("/zebras-in-savanna-with-mathematical-equation-overl.jpg")),
    Game("fractions-safari", "Mathematics", 6, 7, "Explorer", 20, 110, Some("/placeholder.jpg")),
    Game("word-trek", "Mathematics", 6, 8, "Explorer", 0, 130, Some("/placeholder.jpg")),
    Game("algebra-savanna", "Mathematics", 8, 10, "Adventurer", 35, 180, Some("/cartoon-lion-wearing-a-crown-in-a-mathematical-kin.jpg")),
    Game("physics-plains", "Physics", 8, 12, "Adventurer", 10, 200, Some("/golden-acacia-seeds-scattered-on-ground-with-lion-.jpg")),
    Game("circuits-builder", "Physics", 8, 10, "Adventurer", 5, 170, Some("/placeholder.jpg")),
    Game("chem-bonds", "Chemistry", 9, 12, "Adventurer", 0, 190, Some("/placeholder.jpg")),
    Game("geometry-mountain", "Mathematics", 9, 12, "Safari Master", 0, 250, Some("/lion-wearing-graduation-cap-with-mathematical-symb.jpg")),
    Game("genetics-puzzle", "Biology", 10, 12, "Adventurer", 0, 180, Some("/placeholder.jpg")),
    Game("calc-cliff", "Mathematics", 11, 12, "Safari Master", 0, 300, Some("/placeholder.jpg")),
    Game("bio-rainforest", "Biology", 6, 9, "Explorer", 80, 150, Some("/treasure-chest-with-question-mark-and-mathematical.jpg"))
  ]

  /** Two games have different ids. */
  predicate OtherId(a: Game, b: Game) {
    a.id != b.id
  }

  /** A number computed from an id's length and first two characters: games with different fingerprints have different ids. */
  function IdFingerprint(g: Game): int {
    |g.id| * 65536 + (if |g.id| > 1 then g.id[0] as int * 256 + g.id[1] as int else 0)
  }

  /** No two catalogue games share a fingerprint. */
  lemma CatalogueFingerprintsDistinct()
    ensures forall i, j :: 0 <= i < j < |AllGames| ==> IdFingerprint(AllGames[i]) != IdFingerprint(AllGames[j])
  {
  }

  /** The catalogue's ids are distinct. */
  lemma CatalogueIdsDistinct()
    ensures Seqs.Pairwise(AllGames, OtherId)
  {
    CatalogueFingerprintsDistinct();
  }

  /** `filtered`: the games whose grade range contains the chosen grade, ends included, in catalogue order. */
  function Filtered(games: seq<Game>, grade: int): (r: seq<Game>)
    ensures forall g :: g in r <==> g in games && g.minGrade <= grade <= g.maxGrade
    ensures Seqs.Embeds(r, games)
    ensures Seqs.Pairwise(games, OtherId) ==> Seqs.Pairwise(r, OtherId)
  {
    var shows := (g: Game) => g.minGrade <= grade <= g.maxGrade;
    Seqs.FilterEmbeds(games, shows);
    FilterKeepsIds(games, shows);
    Seqs.Filter(games, shows)
  }

  /** Filtering a list with distinct ids leaves a list with distinct ids. */
  lemma FilterKeepsIds(games: seq<Game>, keep: Game -> bool)
    ensures Seqs.Pairwise(games, OtherId) ==> Seqs.Pairwise(Seqs.Filter(games, keep), OtherId)
  {
    if Seqs.Pairwise(games, OtherId) {
      Seqs.FilterKeepsPairwise(games, keep, OtherId);
    }
  }

  /** The hub never lists a game twice: for every grade, the shown ids are distinct. */
  lemma ShownGamesDistinct(grade: int)
    ensures Seqs.Pairwise(Filtered(AllGames, grade), OtherId)
  {
    CatalogueIdsDistinct();
  }

  /** Every grade the selector offers, 6 to 12, shows at least two games. */
  lemma EveryGradeHasGames(grade: int)
    requires 6 <= grade <= 12
    ensures |Filtered(AllGames, grade)| >= 2
  {
    var a := if grade <= 8 then AllGames[2] else AllGames[4];
    var b := if grade <= 9 then AllGames[10] else AllGames[8];
    assert a in AllGames && b in AllGames;
    Seqs.TwoMembers(Filtered(AllGames, grade), a, b);
  }

  /** The card image: the game's cover, or the placeholder when it has none or it is empty. */
  function CoverUrl(g: Game): (url: string)
    ensures url != ""
    ensures g.cover.Some? && g.cover.value != "" ==> url == g.cover.value
    ensures g.cover.None? || g.cover.value == "" ==> url == PlaceholderCover
  {
    if g.cover.Some? && g.cover.value != "" then g.cover.value else PlaceholderCover
  }
}
