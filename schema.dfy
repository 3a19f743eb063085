/** The stored records the routes work on (players, rounds, the links
    between them, shots) and the error answers the routes send. */
module Schema {
  import opened Wrappers

  /** A row of the shot table. `targetLocation`, `result` and `error` are nullable. */
  datatype Shot = Shot(
    id: string,
    roundId: string,
    playerId: string,
    holeNumber: int,
    shotNumber: int,
    club: string,
    distance: int,
    location: string,
    targetLocation: Option<string>,
    result: Option<string>,
    error: Option<string>,
    isPenalty: bool)

  datatype Player = Player(id: string, name: string, color: string)

  /** A row of the table that puts a player in a round. */
  datatype RoundPlayer = RoundPlayer(roundId: string, playerId: string)

  /** A round with its players (the `roundPlayers` relation, already joined).
      Dates are epoch milliseconds. */
  datatype Round = Round(id: string, date: int, course: string, courseType: string, players: seq<Player>)

  /** An error answer: HTTP status and the message(s) of its JSON body. */
  datatype ApiError = ApiError(status: nat, messages: seq<string>)

  const SUCCESS := "success"
  const FAIL := "fail"

  predicate IsSuccess(s: Shot) {
    s.result == Some(SUCCESS)
  }

  predicate IsFail(s: Shot) {
    s.result == Some(FAIL)
  }

  predicate IsPenalty(s: Shot) {
    s.isPenalty
  }

  // The keys the routes group shots by.

  function PlayerOf(s: Shot): string { s.playerId }

  function ClubOf(s: Shot): string { s.club }

  function LocationOf(s: Shot): string { s.location }

  function HoleOf(s: Shot): int { s.holeNumber }

  function RoundOf(s: Shot): string { s.roundId }

  // The primary keys of the shot and player tables.

  function IdOfShot(s: Shot): string { s.id }

  function IdOfPlayer(p: Player): string { p.id }

  /** Whether a player takes part in a round. */
  predicate InRound(links: seq<RoundPlayer>, roundId: string, playerId: string) {
    RoundPlayer(roundId, playerId) in links
  }
}
