/** The shot routes: validation of a new shot, the record built from the
    request, the duplicate and membership checks, penalty shots numbered
    after the last shot of the hole, updates that clear the error of a
    successful shot, and deletion. The shot table is a sequence held by a
    store object; the round-player links are given to each call. */
module Shots {
  import opened Wrappers
  import opened Schema
  import opened Tables

  const AVAILABLE_CLUBS: seq<string> :=
    ["Driver", "3-Wood", "5-Wood", "Hybrid", "4-Iron", "5-Iron", "6-Iron",
     "7-Iron", "8-Iron", "9-Iron", "PW", "SW", "LW", "Putter"]

  /** Where a shot is played from. */
  const AVAILABLE_LOCATIONS: seq<string> :=
    ["tee", "left_rough", "right_rough", "fairway", "green", "bunker", "left_woods", "right_woods", "downgrade", "fringe"]

  /** Where the ball may land: the locations plus water and the hole. */
  const AVAILABLE_TARGET_LOCATIONS: seq<string> :=
    ["tee", "left_rough", "right_rough", "fairway", "green", "bunker", "left_woods", "right_woods", "downgrade", "water", "hole", "fringe"]

  const AVAILABLE_RESULTS: seq<string> := [SUCCESS, FAIL]

  /** The message of a failed check that names none. */
  const INVALID_VALUE := "Invalid value"
  const NOT_IN_ROUND := "Player is not part of this round"
  const DUPLICATE := "Shot already exists for this player, hole, and shot number"
  const NOT_FOUND := "Shot not found"

  /** The body of a create request. Optional fields are `None` when absent. */
  datatype ShotRequest = ShotRequest(
    roundId: string,
    playerId: string,
    holeNumber: int,
    shotNumber: int,
    club: string,
    distance: int,
    location: string,
    targetLocation: Option<string>,
    result: Option<string>,
    error: Option<string>,
    isPenalty: Option<bool>)

  /** The validated fields of an update request, each optional. */
  datatype ShotUpdate = ShotUpdate(
    club: Option<string>,
    distance: Option<int>,
    location: Option<string>,
    targetLocation: Option<string>,
    result: Option<string>,
    error: Option<string>,
    isPenalty: Option<bool>)

  /** The body of a penalty request. */
  datatype PenaltyRequest = PenaltyRequest(roundId: string, playerId: string, holeNumber: int)

  /** What identifies a shot besides its id. */
  datatype ShotKey = ShotKey(roundId: string, playerId: string, holeNumber: int, shotNumber: int)

  function KeyOf(s: Shot): ShotKey {
    ShotKey(s.roundId, s.playerId, s.holeNumber, s.shotNumber)
  }

  // ---------------------------------------------------------------------
  // Validation
  // ---------------------------------------------------------------------

  predicate IsHex(c: char) {
    '0' <= c <= '9' || 'a' <= c <= 'f' || 'A' <= c <= 'F'
  }

  /** The textual UUID shape: 8-4-4-4-12 hexadecimal digits. */
  predicate IsUuid(s: string) {
    |s| == 36 && forall i :: 0 <= i < 36 ==> if i in {8, 13, 18, 23} then s[i] == '-' else IsHex(s[i])
  }

  predicate IsHole(n: int) {
    1 <= n <= 18
  }

  /** An optional field is fine when absent or within its list. */
  predicate OptionallyIn(v: Option<string>, allowed: seq<string>) {
    v.None? || v.value in allowed
  }

  // The messages of the create and penalty checks.
  const BAD_ROUND_ID := "Valid round ID is required"
  const BAD_PLAYER_ID := "Valid player ID is required"
  const BAD_HOLE := "Hole number must be between 1 and 18"
  const BAD_SHOT_NUMBER := "Shot number must be at least 1"
  const BAD_CLUB := "Invalid club selection"
  const BAD_DISTANCE := "Distance must be a non-negative number"
  const BAD_LOCATION := "Invalid location"
  const BAD_TARGET := "Invalid target location"
  const BAD_RESULT := "Result must be success or fail"

  /** The message of one check, if it fails. */
  function Check(ok: bool, message: string): (r: seq<string>)
    ensures r == [] <==> ok
    ensures forall m :: m in r <==> !ok && m == message
  {
    if ok then [] else [message]
  }

  /** The messages of the failing checks, in the order the checks are
      declared: what `validationResult(req).array()` reports. */
  function Failing(checks: seq<(bool, string)>): (errors: seq<string>)
    ensures |errors| <= |checks|
    ensures errors == [] <==> forall i :: 0 <= i < |checks| ==> checks[i].0
    ensures forall m :: m in errors <==> exists i :: 0 <= i < |checks| && !checks[i].0 && checks[i].1 == m
  {
    if checks == [] then []
    else
      var rest := Failing(checks[1..]);
      assert forall i :: 1 <= i < |checks| ==> checks[i] == checks[1..][i - 1];
      Check(checks[0].0, checks[0].1) + rest
  }

  /** A message no other check uses is reported exactly when its own check fails. */
  lemma FailingMessage(checks: seq<(bool, string)>, i: nat)
    requires i < |checks|
    requires forall j :: 0 <= j < |checks| && j != i ==> checks[j].1 != checks[i].1
    ensures checks[i].1 in Failing(checks) <==> !checks[i].0
  {
  }

  /** The create checks, in the order they are declared. */
  function CreateChecks(req: ShotRequest): seq<(bool, string)> {
    [(IsUuid(req.roundId), BAD_ROUND_ID),
     (IsUuid(req.playerId), BAD_PLAYER_ID),
     (IsHole(req.holeNumber), BAD_HOLE),
     (req.shotNumber >= 1, BAD_SHOT_NUMBER),
     (req.club in AVAILABLE_CLUBS, BAD_CLUB),
     (req.distance >= 0, BAD_DISTANCE),
     (req.location in AVAILABLE_LOCATIONS, BAD_LOCATION),
     (OptionallyIn(req.targetLocation, AVAILABLE_TARGET_LOCATIONS), BAD_TARGET),
     (OptionallyIn(req.result, AVAILABLE_RESULTS), BAD_RESULT)]
  }

  /** The create validation: the request passes exactly when every field is valid. */
  function ValidateCreate(req: ShotRequest): (errors: seq<string>)
    ensures errors == [] <==>
      && IsUuid(req.roundId) && IsUuid(req.playerId)
      && IsHole(req.holeNumber) && req.shotNumber >= 1
      && req.club in AVAILABLE_CLUBS && req.distance >= 0 && req.location in AVAILABLE_LOCATIONS
      && OptionallyIn(req.targetLocation, AVAILABLE_TARGET_LOCATIONS)
      && OptionallyIn(req.result, AVAILABLE_RESULTS)
    ensures |errors| <= 9
  {
    var checks := CreateChecks(req);
    assert (forall i :: 0 <= i < |checks| ==> checks[i].0) <==>
      checks[0].0 && checks[1].0 && checks[2].0 && checks[3].0 && checks[4].0
      && checks[5].0 && checks[6].0 && checks[7].0 && checks[8].0;
    Failing(checks)
  }

  /** Each failing field of a create request contributes its own message. */
  lemma ValidateCreateMessages(req: ShotRequest)
    ensures BAD_ROUND_ID in ValidateCreate(req) <==> !IsUuid(req.roundId)
    ensures BAD_PLAYER_ID in ValidateCreate(req) <==> !IsUuid(req.playerId)
    ensures BAD_HOLE in ValidateCreate(req) <==> !IsHole(req.holeNumber)
    ensures BAD_SHOT_NUMBER in ValidateCreate(req) <==> req.shotNumber < 1
    ensures BAD_CLUB in ValidateCreate(req) <==> req.club !in AVAILABLE_CLUBS
    ensures BAD_DISTANCE in ValidateCreate(req) <==> req.distance < 0
    ensures BAD_LOCATION in ValidateCreate(req) <==> req.location !in AVAILABLE_LOCATIONS
    ensures BAD_TARGET in ValidateCreate(req) <==> !OptionallyIn(req.targetLocation, AVAILABLE_TARGET_LOCATIONS)
    ensures BAD_RESULT in ValidateCreate(req) <==> !OptionallyIn(req.result, AVAILABLE_RESULTS)
  {
    CreateMessage(req, 0); CreateMessage(req, 1); CreateMessage(req, 2);
    CreateMessage(req, 3); CreateMessage(req, 4); CreateMessage(req, 5);
    CreateMessage(req, 6); CreateMessage(req, 7); CreateMessage(req, 8);
  }

  /** The message of the `i`th create check is reported exactly when that check fails. */
  lemma CreateMessage(req: ShotRequest, i: nat)
    requires i < 9
    ensures CreateChecks(req)[i].1 in ValidateCreate(req) <==> !CreateChecks(req)[i].0
  {
    CreateMessagesDistinct(req, i);
    FailingMessage(CreateChecks(req), i);
  }

  /** The nine create messages are pairwise different. */
  lemma CreateMessagesDistinct(req: ShotRequest, i: nat)
    requires i < 9
    ensures forall j :: 0 <= j < 9 && j != i ==> CreateChecks(req)[j].1 != CreateChecks(req)[i].1
  {
  }

  /** The update checks: each supplied field must be in its list or range. */
  function ValidateUpdate(u: ShotUpdate): (errors: seq<string>)
    ensures errors == [] <==>
      && OptionallyIn(u.club, AVAILABLE_CLUBS)
      && (u.distance.None? || u.distance.value >= 0)
      && OptionallyIn(u.location, AVAILABLE_LOCATIONS)
      && OptionallyIn(u.targetLocation, AVAILABLE_TARGET_LOCATIONS)
      && OptionallyIn(u.result, AVAILABLE_RESULTS)
    ensures forall m :: m in errors ==> m == INVALID_VALUE
  {
    Check(OptionallyIn(u.club, AVAILABLE_CLUBS), INVALID_VALUE)
    + Check(u.distance.None? || u.distance.value >= 0, INVALID_VALUE)
    + Check(OptionallyIn(u.location, AVAILABLE_LOCATIONS), INVALID_VALUE)
    + Check(OptionallyIn(u.targetLocation, AVAILABLE_TARGET_LOCATIONS), INVALID_VALUE)
    + Check(OptionallyIn(u.result, AVAILABLE_RESULTS), INVALID_VALUE)
  }

  /** The penalty checks. */
  function ValidatePenalty(req: PenaltyRequest): (errors: seq<string>)
    ensures errors == [] <==> IsUuid(req.roundId) && IsUuid(req.playerId) && IsHole(req.holeNumber)
  {
    Check(IsUuid(req.roundId), BAD_ROUND_ID)
    + Check(IsUuid(req.playerId), BAD_PLAYER_ID)
    + Check(IsHole(req.holeNumber), BAD_HOLE)
  }

  // ---------------------------------------------------------------------
  // Records
  // ---------------------------------------------------------------------

  /** The stored record of a create request. The penalty flag defaults to
      false; a target is kept only when given; a result is kept when given,
      with the error kept only for a failed shot. */
  function ShotData(req: ShotRequest, id: string): (s: Shot)
    ensures s.id == id && KeyOf(s) == ShotKey(req.roundId, req.playerId, req.holeNumber, req.shotNumber)
    ensures s.club == req.club && s.distance == req.distance && s.location == req.location
    ensures s.isPenalty <==> req.isPenalty == Some(true)
    ensures s.targetLocation == (if req.targetLocation == Some("") then None else req.targetLocation)
    ensures s.result == (if req.result == Some("") then None else req.result)
    ensures s.error.Some? ==> s.result == Some(FAIL) && s.error == req.error
    ensures s.result == Some(FAIL) ==> s.error == req.error
  {
    var target := if req.targetLocation.Some? && req.targetLocation.value != "" then req.targetLocation else None;
    var hasResult := req.result.Some? && req.result.value != "";
    Shot(id, req.roundId, req.playerId, req.holeNumber, req.shotNumber, req.club, req.distance, req.location,
         target,
         if hasResult then req.result else None,
         if hasResult && req.result.value == FAIL then req.error else None,
         req.isPenalty.GetOr(false))
  }

  /** The record after an update: supplied fields replace stored ones; a
      result of success also clears the error, whatever error was sent.
      This is the corrected update, which keeps the id and key; the source's
      PUT also stores those fields from the body (`AppliedAsWritten`). */
  function Applied(s: Shot, u: ShotUpdate): (t: Shot)
    ensures t.id == s.id && KeyOf(t) == KeyOf(s)
    ensures u.result == Some(SUCCESS) ==> t.error.None? && t.result == Some(SUCCESS)
    ensures u.result != Some(SUCCESS) ==> t.error == (if u.error.Some? then u.error else s.error)
    ensures t.club == u.club.GetOr(s.club) && t.distance == u.distance.GetOr(s.distance)
    ensures t.location == u.location.GetOr(s.location) && t.isPenalty == u.isPenalty.GetOr(s.isPenalty)
    ensures t.targetLocation == (if u.targetLocation.Some? then u.targetLocation else s.targetLocation)
    ensures t.result == (if u.result.Some? then u.result else s.result)
  {
    var error := if u.result == Some(SUCCESS) then None else if u.error.Some? then u.error else s.error;
    s.(club := u.club.GetOr(s.club),
       distance := u.distance.GetOr(s.distance),
       location := u.location.GetOr(s.location),
       targetLocation := if u.targetLocation.Some? then u.targetLocation else s.targetLocation,
       result := if u.result.Some? then u.result else s.result,
       error := error,
       isPenalty := u.isPenalty.GetOr(s.isPenalty))
  }

  /** An update without a result leaves the result alone and, without an
      error either, the error too; updating twice with the same fields is
      the same as once. */
  lemma AppliedIdempotent(s: Shot, u: ShotUpdate)
    ensures Applied(Applied(s, u), u) == Applied(s, u)
    ensures u == ShotUpdate(None, None, None, None, None, None, None) ==> Applied(s, u) == s
  {
  }

  /** The record of a penalty stroke. */
  function PenaltyShot(req: PenaltyRequest, id: string, shotNumber: int): Shot {
    Shot(id, req.roundId, req.playerId, req.holeNumber, shotNumber, "Penalty", 0, "penalty",
         Some("penalty"), Some(SUCCESS), None, true)
  }

  // ---------------------------------------------------------------------
  // The table
  // ---------------------------------------------------------------------

  predicate HasKey(shots: seq<Shot>, k: ShotKey) {
    exists i :: 0 <= i < |shots| && KeyOf(shots[i]) == k
  }

  /** The table's integrity: ids and keys are unique, holes are 1..18 and
      shot numbers at least 1. */
  ghost predicate WellFormed(shots: seq<Shot>) {
    UniqueIds(shots, IdOfShot) && UniqueKeys(shots) && (forall i :: 0 <= i < |shots| ==> InRange(shots[i]))
  }

  ghost predicate UniqueKeys(shots: seq<Shot>) {
    forall i, j :: 0 <= i < j < |shots| ==> KeyOf(shots[i]) != KeyOf(shots[j])
  }

  predicate InRange(s: Shot) {
    IsHole(s.holeNumber) && s.shotNumber >= 1
  }

  /** A shot with a new id, a new key and a hole and number in range can be added. */
  lemma AppendKeepsWellFormed(shots: seq<Shot>, s: Shot)
    requires WellFormed(shots) && !HasId(shots, IdOfShot, s.id) && !HasKey(shots, KeyOf(s)) && InRange(s)
    ensures WellFormed(shots + [s])
  {
    var t := shots + [s];
    forall i, j | 0 <= i < j < |t|
      ensures t[i].id != t[j].id && KeyOf(t[i]) != KeyOf(t[j])
    {
      if j == |shots| {
        assert t[i] == shots[i];
      }
    }
  }

  /** The position of the shot with `id`. */
  function Find(shots: seq<Shot>, id: string): (r: Option<nat>)
    ensures r.None? <==> !HasId(shots, IdOfShot, id)
    ensures r.Some? ==> r.value < |shots| && shots[r.value].id == id
  {
    if shots == [] then None
    else if shots[|shots| - 1].id == id then Some(|shots| - 1)
    else
      var r := Find(shots[..|shots| - 1], id);
      assert HasId(shots, IdOfShot, id) ==> HasId(shots[..|shots| - 1], IdOfShot, id) by {
        if HasId(shots, IdOfShot, id) {
          var i :| 0 <= i < |shots| && shots[i].id == id;
          assert shots[..|shots| - 1][i].id == id;
        }
      }
      r
  }

  /** The highest shot number of a player on a hole of a round, if any. */
  function LastShotNumber(shots: seq<Shot>, roundId: string, playerId: string, hole: int): (r: Option<int>)
    ensures r.None? <==> forall i :: 0 <= i < |shots| ==> !SameHole(shots[i], roundId, playerId, hole)
    ensures r.Some? ==> exists i :: 0 <= i < |shots| && SameHole(shots[i], roundId, playerId, hole) && shots[i].shotNumber == r.value
    ensures r.Some? ==> forall i :: 0 <= i < |shots| && SameHole(shots[i], roundId, playerId, hole) ==> shots[i].shotNumber <= r.value
  {
    if shots == [] then None
    else
      var init := shots[..|shots| - 1];
      var last := shots[|shots| - 1];
      var before := LastShotNumber(init, roundId, playerId, hole);
      assert forall i :: 0 <= i < |init| ==> shots[i] == init[i];
      if !SameHole(last, roundId, playerId, hole) then before
      else if before.None? || before.value < last.shotNumber then Some(last.shotNumber)
      else before
  }

  predicate SameHole(s: Shot, roundId: string, playerId: string, hole: int) {
    s.roundId == roundId && s.playerId == playerId && s.holeNumber == hole
  }

  /** The number a penalty stroke gets: one more than the last, or 1. */
  function NextShotNumber(shots: seq<Shot>, roundId: string, playerId: string, hole: int): (n: int)
    ensures forall i :: 0 <= i < |shots| && SameHole(shots[i], roundId, playerId, hole) ==> shots[i].shotNumber < n
    ensures n == 1 || exists i :: 0 <= i < |shots| && SameHole(shots[i], roundId, playerId, hole) && shots[i].shotNumber == n - 1
  {
    var last := LastShotNumber(shots, roundId, playerId, hole);
    if last.Some? then last.value + 1 else 1
  }

  // ---------------------------------------------------------------------
  // The routes' decisions
  // ---------------------------------------------------------------------

  function BadRequest(messages: seq<string>): ApiError { ApiError(400, messages) }

  /** `POST /api/shots`: validation, then membership of the player in the
      round, then the duplicate key; an id already in the table fails the
      insert with a server error. */
  function CreateShot(shots: seq<Shot>, links: seq<RoundPlayer>, req: ShotRequest, id: string): (r: Result<Shot, ApiError>)
    ensures ValidateCreate(req) != [] ==> r == Failure(BadRequest(ValidateCreate(req)))
    ensures ValidateCreate(req) == [] && !InRound(links, req.roundId, req.playerId) ==>
      r == Failure(BadRequest([NOT_IN_ROUND]))
    ensures (ValidateCreate(req) == [] && InRound(links, req.roundId, req.playerId)
             && HasKey(shots, ShotKey(req.roundId, req.playerId, req.holeNumber, req.shotNumber))) ==>
      r == Failure(BadRequest([DUPLICATE]))
    ensures r.Success? <==>
      && ValidateCreate(req) == [] && InRound(links, req.roundId, req.playerId)
      && !HasKey(shots, ShotKey(req.roundId, req.playerId, req.holeNumber, req.shotNumber))
      && !HasId(shots, IdOfShot, id)
    ensures r.Success? ==> r.value == ShotData(req, id)
  {
    var key := ShotKey(req.roundId, req.playerId, req.holeNumber, req.shotNumber);
    if ValidateCreate(req) != [] then Failure(BadRequest(ValidateCreate(req)))
    else if !InRound(links, req.roundId, req.playerId) then Failure(BadRequest([NOT_IN_ROUND]))
    else if HasKey(shots, key) then Failure(BadRequest([DUPLICATE]))
    else if HasId(shots, IdOfShot, id) then Failure(ApiError(500, ["Failed to create shot"]))
    else Success(ShotData(req, id))
  }

  /** `POST /api/shots/penalty`: validation, membership, then a penalty
      stroke numbered after the last shot of the hole. */
  function CreatePenalty(shots: seq<Shot>, links: seq<RoundPlayer>, req: PenaltyRequest, id: string): (r: Result<Shot, ApiError>)
    ensures ValidatePenalty(req) != [] ==> r == Failure(BadRequest(ValidatePenalty(req)))
    ensures ValidatePenalty(req) == [] && !InRound(links, req.roundId, req.playerId) ==>
      r == Failure(BadRequest([NOT_IN_ROUND]))
    ensures r.Success? <==> ValidatePenalty(req) == [] && InRound(links, req.roundId, req.playerId) && !HasId(shots, IdOfShot, id)
    ensures r.Success? ==>
      && r.value == PenaltyShot(req, id, NextShotNumber(shots, req.roundId, req.playerId, req.holeNumber))
      && r.value.club == "Penalty" && r.value.distance == 0 && r.value.result == Some(SUCCESS) && r.value.isPenalty
  {
    if ValidatePenalty(req) != [] then Failure(BadRequest(ValidatePenalty(req)))
    else if !InRound(links, req.roundId, req.playerId) then Failure(BadRequest([NOT_IN_ROUND]))
    else if HasId(shots, IdOfShot, id) then Failure(ApiError(500, ["Failed to create penalty shot"]))
    else Success(PenaltyShot(req, id, NextShotNumber(shots, req.roundId, req.playerId, req.holeNumber)))
  }

  // ---------------------------------------------------------------------
  // Integrity of the table
  // ---------------------------------------------------------------------

  /** A created shot keeps ids and keys unique. */
  lemma CreateKeepsWellFormed(shots: seq<Shot>, links: seq<RoundPlayer>, req: ShotRequest, id: string)
    requires WellFormed(shots)
    requires CreateShot(shots, links, req, id).Success?
    ensures WellFormed(shots + [CreateShot(shots, links, req, id).value])
  {
    AppendKeepsWellFormed(shots, ShotData(req, id));
  }

  /** A penalty stroke keeps ids and keys unique: its number is above every
      number of its hole, and at least 1. */
  lemma PenaltyKeepsWellFormed(shots: seq<Shot>, links: seq<RoundPlayer>, req: PenaltyRequest, id: string)
    requires WellFormed(shots)
    requires CreatePenalty(shots, links, req, id).Success?
    ensures WellFormed(shots + [CreatePenalty(shots, links, req, id).value])
  {
    var n := NextShotNumber(shots, req.roundId, req.playerId, req.holeNumber);
    var s := PenaltyShot(req, id, n);
    assert !HasKey(shots, KeyOf(s)) by {
      forall i | 0 <= i < |shots|
        ensures KeyOf(shots[i]) != KeyOf(s)
      {
        if SameHole(shots[i], req.roundId, req.playerId, req.holeNumber) {
          assert shots[i].shotNumber < n;
        }
      }
    }
    AppendKeepsWellFormed(shots, s);
  }

  /** Two penalty strokes in a row on the same hole get consecutive numbers. */
  lemma PenaltiesNumberedInTurn(shots: seq<Shot>, links: seq<RoundPlayer>, req: PenaltyRequest, id1: string, id2: string)
    requires CreatePenalty(shots, links, req, id1).Success?
    requires CreatePenalty(shots + [CreatePenalty(shots, links, req, id1).value], links, req, id2).Success?
    ensures CreatePenalty(shots + [CreatePenalty(shots, links, req, id1).value], links, req, id2).value.shotNumber
         == CreatePenalty(shots, links, req, id1).value.shotNumber + 1
  {
    var first := CreatePenalty(shots, links, req, id1).value;
    var t := shots + [first];
    var n := NextShotNumber(shots, req.roundId, req.playerId, req.holeNumber);
    var m := NextShotNumber(t, req.roundId, req.playerId, req.holeNumber);
    assert t[|shots|] == first;
    assert m > n;
  }

  /** The corrected update never touches a shot's id or key, so integrity is kept. */
  lemma UpdateKeepsWellFormed(shots: seq<Shot>, i: nat, u: ShotUpdate)
    requires WellFormed(shots) && i < |shots|
    ensures WellFormed(shots[i := Applied(shots[i], u)])
  {
    var t := shots[i := Applied(shots[i], u)];
    assert forall j :: 0 <= j < |t| ==> t[j].id == shots[j].id && KeyOf(t[j]) == KeyOf(shots[j]);
  }

  // ---------------------------------------------------------------------
  // The update as written: the whole body is forwarded
  // ---------------------------------------------------------------------

  /** The fields a PUT body may also carry that no rule checks: the id and
      the four key fields. The source hands the whole body to the database. */
  datatype KeyUpdate = KeyUpdate(
    id: Option<string>,
    roundId: Option<string>,
    playerId: Option<string>,
    holeNumber: Option<int>,
    shotNumber: Option<int>)

  const NO_KEY_UPDATE := KeyUpdate(None, None, None, None, None)

  /** The record the source's PUT stores: the validated fields as `Applied`
      sets them, and the id and key fields taken from the body unchecked. */
  function AppliedAsWritten(s: Shot, u: ShotUpdate, k: KeyUpdate): (t: Shot)
    ensures t.id == k.id.GetOr(s.id)
    ensures KeyOf(t) == ShotKey(k.roundId.GetOr(s.roundId), k.playerId.GetOr(s.playerId),
                                k.holeNumber.GetOr(s.holeNumber), k.shotNumber.GetOr(s.shotNumber))
    ensures k == NO_KEY_UPDATE ==> t == Applied(s, u)
  {
    Applied(s, u).(id := k.id.GetOr(s.id),
                   roundId := k.roundId.GetOr(s.roundId),
                   playerId := k.playerId.GetOr(s.playerId),
                   holeNumber := k.holeNumber.GetOr(s.holeNumber),
                   shotNumber := k.shotNumber.GetOr(s.shotNumber))
  }

  /** A PUT that the source accepts can break the table's integrity: a body
      `{holeNumber: 19}` stores hole 19, and a body `{shotNumber: 1}` on the
      second shot of a hole repeats the key of the first. */
  lemma UpdateAsWrittenBreaksIntegrity()
    ensures
      var u := ShotUpdate(None, None, None, None, None, None, None);
      var a := Shot("a", "r", "p", 1, 1, "Driver", 200, "tee", None, None, None, false);
      var b := Shot("b", "r", "p", 1, 2, "PW", 80, "fairway", None, None, None, false);
      && ValidateUpdate(u) == []
      && WellFormed([a, b])
      && !WellFormed([AppliedAsWritten(a, u, KeyUpdate(None, None, None, Some(19), None)), b])
      && !WellFormed([a, AppliedAsWritten(b, u, KeyUpdate(None, None, None, None, Some(1)))])
  {
    var u := ShotUpdate(None, None, None, None, None, None, None);
    var a := Shot("a", "r", "p", 1, 1, "Driver", 200, "tee", None, None, None, false);
    var b := Shot("b", "r", "p", 1, 2, "PW", 80, "fairway", None, None, None, false);
    assert KeyOf(a) != KeyOf(b);
    var a' := AppliedAsWritten(a, u, KeyUpdate(None, None, None, Some(19), None));
    assert !InRange([a', b][0]);
    var b' := AppliedAsWritten(b, u, KeyUpdate(None, None, None, None, Some(1)));
    assert KeyOf([a, b'][0]) == KeyOf([a, b'][1]);
  }

  /** Without keeps the order of what it keeps, so it is a well-formed table's sub-list. */
  lemma {:induction false} WithoutKeeps(shots: seq<Shot>, id: string)
    requires WellFormed(shots)
    ensures WellFormed(Without(shots, IdOfShot, id))
  {
    if shots != [] {
      var init := shots[..|shots| - 1];
      var last := shots[|shots| - 1];
      assert WellFormed(init);
      WithoutKeeps(init, id);
      if last.id != id {
        var w := Without(init, IdOfShot, id);
        forall a, b | 0 <= a < b < |w + [last]|
          ensures (w + [last])[a].id != (w + [last])[b].id && KeyOf((w + [last])[a]) != KeyOf((w + [last])[b])
        {
          if b == |w| {
            var x := w[a];
            assert x in init;
            var k :| 0 <= k < |init| && init[k] == x;
            assert shots[k] == x;
          }
        }
      }
    }
  }

  // ---------------------------------------------------------------------
  // The store
  // ---------------------------------------------------------------------

  /** The shot table. */
  class ShotStore {
    var shots: seq<Shot>

    ghost predicate Valid()
      reads this
    {
      WellFormed(shots)
    }

    constructor()
      ensures Valid() && shots == []
    {
      shots := [];
    }

    /** `POST /api/shots`: a created shot is appended; on any error the table is unchanged. */
    method Create(links: seq<RoundPlayer>, req: ShotRequest, id: string) returns (r: Result<Shot, ApiError>)
      requires Valid()
      modifies this
      ensures Valid()
      ensures r == CreateShot(old(shots), links, req, id)
      ensures r.Success? ==> shots == old(shots) + [r.value]
      ensures r.Failure? ==> shots == old(shots)
    {
      r := CreateShot(shots, links, req, id);
      if r.Success? {
        CreateKeepsWellFormed(shots, links, req, id);
        shots := shots + [r.value];
      }
    }

    /** `POST /api/shots/penalty`: the penalty stroke is appended; on any error the table is unchanged. */
    method AddPenalty(links: seq<RoundPlayer>, req: PenaltyRequest, id: string) returns (r: Result<Shot, ApiError>)
      requires Valid()
      modifies this
      ensures Valid()
      ensures r == CreatePenalty(old(shots), links, req, id)
      ensures r.Success? ==> shots == old(shots) + [r.value]
      ensures r.Failure? ==> shots == old(shots)
    {
      r := CreatePenalty(shots, links, req, id);
      if r.Success? {
        PenaltyKeepsWellFormed(shots, links, req, id);
        shots := shots + [r.value];
      }
    }

    /** `PUT /api/shots/:id`: invalid fields give 400 and an unknown id 404,
        both without change; otherwise the one shot with `id` is replaced by
        its updated record, in place. */
    method Update(id: string, u: ShotUpdate) returns (r: Result<Shot, ApiError>)
      requires Valid()
      modifies this
      ensures Valid()
      ensures ValidateUpdate(u) != [] ==> r == Failure(BadRequest(ValidateUpdate(u))) && shots == old(shots)
      ensures ValidateUpdate(u) == [] && !HasId(old(shots), IdOfShot, id) ==> r == Failure(ApiError(404, [NOT_FOUND])) && shots == old(shots)
      ensures r.Success? <==> ValidateUpdate(u) == [] && HasId(old(shots), IdOfShot, id)
      ensures r.Success? ==>
        exists i :: 0 <= i < |old(shots)| && old(shots)[i].id == id
          && r.value == Applied(old(shots)[i], u) && shots == old(shots)[i := r.value]
    {
      if ValidateUpdate(u) != [] {
        return Failure(BadRequest(ValidateUpdate(u)));
      }
      var found := Find(shots, id);
      if found.None? {
        return Failure(ApiError(404, [NOT_FOUND]));
      }
      var i := found.value;
      UpdateKeepsWellFormed(shots, i, u);
      var updated := Applied(shots[i], u);
      shots := shots[i := updated];
      return Success(updated);
    }

    /** `DELETE /api/shots/:id`: an unknown id gives 404 without change;
        otherwise exactly the shot with `id` is removed. */
    method Delete(id: string) returns (r: Result<string, ApiError>)
      requires Valid()
      modifies this
      ensures Valid()
      ensures !HasId(old(shots), IdOfShot, id) ==> r == Failure(ApiError(404, [NOT_FOUND])) && shots == old(shots)
      ensures HasId(old(shots), IdOfShot, id) ==>
        && r == Success("Shot deleted successfully")
        && shots == Without(old(shots), IdOfShot, id)
        && |shots| == |old(shots)| - 1
    {
      var found := Find(shots, id);
      if found.None? {
        return Failure(ApiError(404, [NOT_FOUND]));
      }
      WithoutRemovesOne(shots, IdOfShot, id);
      WithoutKeeps(shots, id);
      shots := Without(shots, IdOfShot, id);
      return Success("Shot deleted successfully");
    }
  }
}
