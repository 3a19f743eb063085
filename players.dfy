/** The player routes: creation with a trimmed name and a palette colour no
    other player has, deletion guarded by round membership, and the list of
    colours still free. The player table is a sequence held by a store
    object; the round-player links are given to each call. */
module Players {
  import opened Wrappers
  import opened Text
  import opened Schema
  import opened Tables

  /** The palette, in the order it is offered. */
  const AVAILABLE_COLORS: seq<string> := ["#FF6B6B", "#4ECDC4", "#45B7D1", "#96CEB4", "#FFEAA7", "#DDA0DD"]

  const MAX_NAME := 50
  const BAD_NAME := "Name must be between 1 and 50 characters"
  const BAD_COLOR := "Invalid color selection"
  const COLOR_TAKEN := "This color is already taken by another player"
  const NOT_FOUND := "Player not found"
  const IN_ROUNDS := "Cannot delete player who has participated in rounds. Delete the rounds first."

  /** The create checks, on the name as trimmed; one message per failing field. */
  function ValidatePlayer(name: string, color: string): (errors: seq<string>)
    ensures errors == [] <==> 1 <= |Trim(name)| <= MAX_NAME && color in AVAILABLE_COLORS
    ensures BAD_NAME in errors <==> !(1 <= |Trim(name)| <= MAX_NAME)
    ensures BAD_COLOR in errors <==> color !in AVAILABLE_COLORS
  {
    var nameOk, colorOk := 1 <= |Trim(name)| <= MAX_NAME, color in AVAILABLE_COLORS;
    assert |BAD_NAME| != |BAD_COLOR|;
    if nameOk && colorOk then []
    else if nameOk then [BAD_COLOR]
    else if colorOk then [BAD_NAME]
    else [BAD_NAME, BAD_COLOR]
  }

  predicate ColorUsed(players: seq<Player>, color: string) {
    exists i :: 0 <= i < |players| && players[i].color == color
  }

  /** Whether any round-player link names the player. */
  predicate InAnyRound(links: seq<RoundPlayer>, playerId: string) {
    exists i :: 0 <= i < |links| && links[i].playerId == playerId
  }

  /** The table's integrity: ids unique and colours pairwise distinct. */
  ghost predicate WellFormed(players: seq<Player>) {
    && UniqueIds(players, IdOfPlayer)
    && (forall i, j :: 0 <= i < j < |players| ==> players[i].color != players[j].color)
  }

  /** `POST /api/players`: validation, then the colour must be free; an id
      already in the table fails the insert with a server error. The stored
      name is the trimmed one. */
  function CreatePlayer(players: seq<Player>, name: string, color: string, id: string): (r: Result<Player, ApiError>)
    ensures ValidatePlayer(name, color) != [] ==> r == Failure(ApiError(400, ValidatePlayer(name, color)))
    ensures ValidatePlayer(name, color) == [] && ColorUsed(players, color) ==> r == Failure(ApiError(400, [COLOR_TAKEN]))
    ensures r.Success? <==> ValidatePlayer(name, color) == [] && !ColorUsed(players, color) && !HasId(players, IdOfPlayer, id)
    ensures r.Success? ==> r.value == Player(id, Trim(name), color) && 1 <= |r.value.name| <= MAX_NAME
  {
    if ValidatePlayer(name, color) != [] then Failure(ApiError(400, ValidatePlayer(name, color)))
    else if ColorUsed(players, color) then Failure(ApiError(400, [COLOR_TAKEN]))
    else if HasId(players, IdOfPlayer, id) then Failure(ApiError(500, ["Failed to create player"]))
    else Success(Player(id, Trim(name), color))
  }

  /** Colours stay pairwise distinct, and ids unique, across creations. */
  lemma CreateKeepsWellFormed(players: seq<Player>, name: string, color: string, id: string)
    requires WellFormed(players)
    requires CreatePlayer(players, name, color, id).Success?
    ensures WellFormed(players + [CreatePlayer(players, name, color, id).value])
  {
    var p := CreatePlayer(players, name, color, id).value;
    var t := players + [p];
    forall i, j | 0 <= i < j < |t|
      ensures t[i].id != t[j].id && t[i].color != t[j].color
    {
      if j == |players| {
        assert t[i] == players[i];
      }
    }
  }

  /** Removing players keeps the table well formed. */
  lemma {:induction false} WithoutKeeps(players: seq<Player>, id: string)
    requires WellFormed(players)
    ensures WellFormed(Without(players, IdOfPlayer, id))
  {
    if players != [] {
      var init := players[..|players| - 1];
      var last := players[|players| - 1];
      assert WellFormed(init);
      WithoutKeeps(init, id);
      if last.id != id {
        var w := Without(init, IdOfPlayer, id);
        forall a, b | 0 <= a < b < |w + [last]|
          ensures (w + [last])[a].id != (w + [last])[b].id && (w + [last])[a].color != (w + [last])[b].color
        {
          if b == |w| {
            var x := w[a];
            assert x in init;
            var k :| 0 <= k < |init| && init[k] == x;
            assert players[k] == x;
          }
        }
      }
    }
  }

  /** The palette colours no player uses, in palette order. */
  function AvailableColors(players: seq<Player>): (free: seq<string>)
    ensures forall c :: c in free <==> c in AVAILABLE_COLORS && !ColorUsed(players, c)
  {
    FreeOf(AVAILABLE_COLORS, players)
  }

  function FreeOf(palette: seq<string>, players: seq<Player>): (free: seq<string>)
    ensures |free| <= |palette|
    ensures forall c :: c in free <==> c in palette && !ColorUsed(players, c)
  {
    if palette == [] then []
    else
      var rest := FreeOf(palette[1..], players);
      if ColorUsed(players, palette[0]) then rest else [palette[0]] + rest
  }

  /** The free colours are a sub-list of the palette (palette order kept),
      disjoint from the used ones, and with them they cover the palette. */
  lemma {:induction false} FreeOfIsSubsequence(palette: seq<string>, players: seq<Player>)
    ensures Subsequence(FreeOf(palette, players), palette)
    ensures forall c :: c in palette ==> c in FreeOf(palette, players) || ColorUsed(players, c)
    ensures forall c :: c in FreeOf(palette, players) ==> !ColorUsed(players, c)
  {
    if palette != [] {
      FreeOfIsSubsequence(palette[1..], players);
    }
  }

  /** `xs` is `ys` with some elements left out, the rest in their order. */
  ghost predicate Subsequence<T>(xs: seq<T>, ys: seq<T>) {
    if xs == [] then true
    else if ys == [] then false
    else (xs[0] == ys[0] && Subsequence(xs[1..], ys[1..])) || Subsequence(xs, ys[1..])
  }

  /** `availableColors`: every palette colour is either used or listed,
      never both, and the listed ones keep palette order. */
  lemma AvailableColorsSpec(players: seq<Player>)
    ensures forall c :: c in AvailableColors(players) ==> c in AVAILABLE_COLORS && !ColorUsed(players, c)
    ensures forall c :: c in AVAILABLE_COLORS ==> (c in AvailableColors(players) <==> !ColorUsed(players, c))
    ensures Subsequence(AvailableColors(players), AVAILABLE_COLORS)
  {
    FreeOfIsSubsequence(AVAILABLE_COLORS, players);
  }

  /** A player created with a colour takes it off the list of free colours. */
  lemma CreateTakesColor(players: seq<Player>, name: string, color: string, id: string)
    requires CreatePlayer(players, name, color, id).Success?
    ensures color in AvailableColors(players)
    ensures color !in AvailableColors(players + [CreatePlayer(players, name, color, id).value])
  {
    var t := players + [CreatePlayer(players, name, color, id).value];
    assert t[|players|].color == color;
  }

  // ---------------------------------------------------------------------
  // The store
  // ---------------------------------------------------------------------

  /** The player table. */
  class PlayerStore {
    var players: seq<Player>

    ghost predicate Valid()
      reads this
    {
      WellFormed(players)
    }

    constructor()
      ensures Valid() && players == []
    {
      players := [];
    }

    /** `POST /api/players`: a created player is appended; on any error the table is unchanged. */
    method Create(name: string, color: string, id: string) returns (r: Result<Player, ApiError>)
      requires Valid()
      modifies this
      ensures Valid()
      ensures r == CreatePlayer(old(players), name, color, id)
      ensures r.Success? ==> players == old(players) + [r.value]
      ensures r.Failure? ==> players == old(players)
    {
      r := CreatePlayer(players, name, color, id);
      if r.Success? {
        CreateKeepsWellFormed(players, name, color, id);
        players := players + [r.value];
      }
    }

    /** `DELETE /api/players/:id`: an unknown id gives 404, a player in any
        round 400, both without change; otherwise exactly that player goes. */
    method Delete(id: string, links: seq<RoundPlayer>) returns (r: Result<string, ApiError>)
      requires Valid()
      modifies this
      ensures Valid()
      ensures !HasId(old(players), IdOfPlayer, id) ==> r == Failure(ApiError(404, [NOT_FOUND])) && players == old(players)
      ensures HasId(old(players), IdOfPlayer, id) && InAnyRound(links, id) ==>
        r == Failure(ApiError(400, [IN_ROUNDS])) && players == old(players)
      ensures r.Success? <==> HasId(old(players), IdOfPlayer, id) && !InAnyRound(links, id)
      ensures r.Success? ==>
        && r.value == "Player deleted successfully"
        && players == Without(old(players), IdOfPlayer, id)
        && |players| == |old(players)| - 1
    {
      if !HasId(players, IdOfPlayer, id) {
        return Failure(ApiError(404, [NOT_FOUND]));
      }
      if InAnyRound(links, id) {
        return Failure(ApiError(400, [IN_ROUNDS]));
      }
      WithoutRemovesOne(players, IdOfPlayer, id);
      WithoutKeeps(players, id);
      players := Without(players, IdOfPlayer, id);
      return Success("Player deleted successfully");
    }

    /** `GET /api/players/available-colors`. */
    function Available(): (free: seq<string>)
      reads this
      ensures forall c :: c in free <==> c in AVAILABLE_COLORS && !ColorUsed(players, c)
    {
      AvailableColors(players)
    }
  }
}
