/**
 * The shared record and enumeration types of the game: the screen the round
 * is on, and the static description of one planet rank.
 */
module Types {

  /** An optional value; also stands for JavaScript's NaN / undefined results. */
  datatype Option<+T> = None | Some(value: T)

  /** The three screens of a round. */
  datatype GameState = MENU | PLAYING | GAME_OVER

  /**
   * One rank of the evolution table. `hasRing` is optional in the source;
   * an absent flag reads as false.
   */
  datatype Planet = Planet(
    id: nat,
    name: string,
    jpName: string,
    shortLabel: string, // `label` in the source
    radius: nat,
    color: string,
    textColor: string,
    score: nat,
    hasRing: bool)
}
