/** The Data Dragon asset server the client loads images from. */
module DataDragon {
  const Cdn := "https://ddragon.leagueoflegends.com/cdn/"

  /** The version some components hard-code instead of the match's own version. */
  const PinnedVersion := "14.24.1"
}
