/** The ranked-mode request handlers' logic: starting a match, adjudicating
    a submitted pair of results, and projecting a stored match onto one
    player's history. Handler outcomes are result values, not HTTP replies. */
module Ranked {
  import opened Wrappers
  import AntiCheat
  import Elo
  import Tiers
  import Matchmaking

  /** Winner and loser uid recorded for a draw. */
  const Draw: string := "draw"
  const MissingDataMessage: string := "Missing required match result data."
  const UserIdRequiredMessage: string := "User ID is required."
  const InternalErrorMessage: string := "Internal server error."

  /** One player's submitted performance. */
  datatype PlayerResult = PlayerResult(
    wpm: real,
    accuracy: real,
    rawWpm: real,
    consistency: real,
    duration: real,
    wordlist: seq<string>)

  /** One stored match document (the store's own object id is not modelled). */
  datatype RankedMatch = RankedMatch(
    matchId: string,
    player1Uid: string,
    player2Uid: string,
    player1InitialElo: real,
    player2InitialElo: real,
    player1FinalElo: real,
    player2FinalElo: real,
    winnerUid: string,
    loserUid: string,
    player1Result: PlayerResult,
    player2Result: PlayerResult,
    timestamp: int,
    wordListSeed: string,
    isValid: bool)

  /** A submitted request body; `None` is an absent field. */
  datatype Submission = Submission(
    matchId: Option<string>,
    playerUid: Option<string>,
    opponentUid: Option<string>,
    playerResult: Option<PlayerResult>,
    opponentResult: Option<PlayerResult>,
    wordListSeed: Option<string>)

  /** A string field passes the handler's truthiness test: present and non-empty. */
  predicate Present(s: Option<string>) {
    s.Some? && s.value != ""
  }

  predicate Complete(sub: Submission) {
    && Present(sub.matchId) && Present(sub.playerUid) && Present(sub.opponentUid)
    && sub.playerResult.Some? && sub.opponentResult.Some? && Present(sub.wordListSeed)
  }

  /** Both results have positive speed and accuracy. */
  predicate PositiveResults(r1: PlayerResult, r2: PlayerResult) {
    r1.wpm > 0.0 && r1.accuracy > 0.0 && r2.wpm > 0.0 && r2.accuracy > 0.0
  }

  datatype SubmitResponse =
    | BadRequest(message: string)
    | InternalError(message: string)
    | Submitted(player1EloChange: real, player2EloChange: real,
                newPlayer1Elo: real, newPlayer2Elo: real, winnerUid: string)

  // ---------------------------------------------------------------------
  // Outcome

  datatype Outcome = Outcome(winnerUid: string, loserUid: string, player1Score: real, player2Score: real)

  /** Higher wpm wins; on equal wpm higher accuracy wins; otherwise a draw. */
  function DetermineOutcome(playerUid: string, opponentUid: string, r1: PlayerResult, r2: PlayerResult): (o: Outcome)
    ensures o.player1Score + o.player2Score == 1.0
    ensures r1.wpm > r2.wpm ==> o == Outcome(playerUid, opponentUid, 1.0, 0.0)
    ensures r2.wpm > r1.wpm ==> o == Outcome(opponentUid, playerUid, 0.0, 1.0)
    ensures r1.wpm == r2.wpm && r1.accuracy > r2.accuracy ==> o == Outcome(playerUid, opponentUid, 1.0, 0.0)
    ensures r1.wpm == r2.wpm && r2.accuracy > r1.accuracy ==> o == Outcome(opponentUid, playerUid, 0.0, 1.0)
    ensures r1.wpm == r2.wpm && r1.accuracy == r2.accuracy ==> o == Outcome(Draw, Draw, 0.5, 0.5)
  {
    if r1.wpm > r2.wpm then Outcome(playerUid, opponentUid, 1.0, 0.0)
    else if r2.wpm > r1.wpm then Outcome(opponentUid, playerUid, 0.0, 1.0)
    else if r1.accuracy > r2.accuracy then Outcome(playerUid, opponentUid, 1.0, 0.0)
    else if r2.accuracy > r1.accuracy then Outcome(opponentUid, playerUid, 0.0, 1.0)
    else Outcome(Draw, Draw, 0.5, 0.5)
  }

  /** Swapping the two sides swaps the scores and keeps winner and loser. */
  lemma OutcomeSwap(playerUid: string, opponentUid: string, r1: PlayerResult, r2: PlayerResult)
    ensures var o := DetermineOutcome(playerUid, opponentUid, r1, r2);
      DetermineOutcome(opponentUid, playerUid, r2, r1) == Outcome(o.winnerUid, o.loserUid, o.player2Score, o.player1Score)
  {
  }

  // ---------------------------------------------------------------------
  // Adjudication: the record and the response built from the two fetched players

  datatype Adjudication = Adjudication(
    outcome: Outcome,
    change: Elo.EloChange,
    record: RankedMatch,
    response: SubmitResponse)

  /** Everything the handler computes once both players are fetched. */
  function Adjudicate(
    pow10: real -> real,
    matchId: string, wordListSeed: string,
    player1: Elo.RankedPlayer, player2: Elo.RankedPlayer,
    r1: PlayerResult, r2: PlayerResult, timestamp: int): (a: Adjudication)
    requires Elo.Pow10Laws(pow10)
    ensures a.outcome == DetermineOutcome(player1.uid, player2.uid, r1, r2)
    ensures a.change == Elo.CalculateEloChange(pow10, player1.elo, player2.elo,
                                               a.outcome.player1Score, a.outcome.player2Score,
                                               player1.kFactor, player2.kFactor)
    ensures a.record.matchId == matchId && a.record.wordListSeed == wordListSeed && a.record.timestamp == timestamp
    ensures a.record.player1Uid == player1.uid && a.record.player2Uid == player2.uid
    ensures a.record.player1Result == r1 && a.record.player2Result == r2
    ensures a.record.player1InitialElo == player1.elo && a.record.player2InitialElo == player2.elo
    ensures a.record.player1FinalElo == a.change.newPlayer1Elo && a.record.player2FinalElo == a.change.newPlayer2Elo
    ensures a.record.winnerUid == a.outcome.winnerUid && a.record.loserUid == a.outcome.loserUid
    ensures a.record.isValid == (AntiCheat.ValidateRankedResult(r1.wpm, r1.accuracy, r1.rawWpm, r1.duration) &&
                                 AntiCheat.ValidateRankedResult(r2.wpm, r2.accuracy, r2.rawWpm, r2.duration))
    ensures a.response.Submitted?
    ensures a.response.player1EloChange == a.record.player1FinalElo - a.record.player1InitialElo
    ensures a.response.player2EloChange == a.record.player2FinalElo - a.record.player2InitialElo
    ensures a.response.newPlayer1Elo == a.record.player1FinalElo && a.response.newPlayer2Elo == a.record.player2FinalElo
    ensures a.response.winnerUid == a.record.winnerUid
  {
    var valid1 := AntiCheat.ValidateRankedResult(r1.wpm, r1.accuracy, r1.rawWpm, r1.duration);
    var valid2 := AntiCheat.ValidateRankedResult(r2.wpm, r2.accuracy, r2.rawWpm, r2.duration);
    var o := DetermineOutcome(player1.uid, player2.uid, r1, r2);
    var c := Elo.CalculateEloChange(pow10, player1.elo, player2.elo, o.player1Score, o.player2Score,
                                    player1.kFactor, player2.kFactor);
    var record := RankedMatch(matchId, player1.uid, player2.uid, player1.elo, player2.elo,
                              c.newPlayer1Elo, c.newPlayer2Elo, o.winnerUid, o.loserUid, r1, r2,
                              timestamp, wordListSeed, valid1 && valid2);
    var response := Submitted(c.newPlayer1Elo - player1.elo, c.newPlayer2Elo - player2.elo,
                              c.newPlayer1Elo, c.newPlayer2Elo, o.winnerUid);
    Adjudication(o, c, record, response)
  }

  /** The winner gains and the loser loses rating (positive k-factors); a
      draw is a loss for the record of both players, since only a score of
      exactly 1 counts as a win. */
  lemma AdjudicationEffects(
    pow10: real -> real, matchId: string, wordListSeed: string,
    player1: Elo.RankedPlayer, player2: Elo.RankedPlayer,
    r1: PlayerResult, r2: PlayerResult, timestamp: int)
    requires Elo.Pow10Laws(pow10)
    requires player1.kFactor > 0 && player2.kFactor > 0
    ensures var a := Adjudicate(pow10, matchId, wordListSeed, player1, player2, r1, r2, timestamp);
      && (a.outcome.player1Score == 1.0 ==> a.response.player1EloChange > 0.0 && a.response.player2EloChange < 0.0)
      && (a.outcome.player2Score == 1.0 ==> a.response.player2EloChange > 0.0 && a.response.player1EloChange < 0.0)
      && (r1.wpm == r2.wpm && r1.accuracy == r2.accuracy ==>
            var u1 := Elo.StatsUpdated(player1, a.change.newPlayer1Elo, a.outcome.player1Score == 1.0, timestamp);
            var u2 := Elo.StatsUpdated(player2, a.change.newPlayer2Elo, a.outcome.player2Score == 1.0, timestamp);
            && a.record.winnerUid == Draw && a.record.loserUid == Draw
            && u1.wins == player1.wins && u1.losses == player1.losses + 1
            && u2.wins == player2.wins && u2.losses == player2.losses + 1)
  {
  }

  // ---------------------------------------------------------------------
  // History projection

  datatype HistoryEntry = HistoryEntry(
    matchId: string,
    opponentUid: string,
    initialElo: real,
    finalElo: real,
    eloChange: real,
    outcome: string,
    timestamp: int,
    playerResult: PlayerResult,
    opponentResult: PlayerResult)

  /** A stored match seen from `uid`'s side: player 1's side when `uid` is
      player 1, otherwise player 2's. */
  function Perspective(m: RankedMatch, uid: string): (h: HistoryEntry)
    ensures h.matchId == m.matchId && h.timestamp == m.timestamp
    ensures h.eloChange == h.finalElo - h.initialElo
    ensures m.player1Uid == uid ==>
      h.opponentUid == m.player2Uid && h.initialElo == m.player1InitialElo && h.finalElo == m.player1FinalElo &&
      h.playerResult == m.player1Result && h.opponentResult == m.player2Result
    ensures m.player1Uid != uid ==>
      h.opponentUid == m.player1Uid && h.initialElo == m.player2InitialElo && h.finalElo == m.player2FinalElo &&
      h.playerResult == m.player2Result && h.opponentResult == m.player1Result
    ensures h.outcome in {"win", "loss", "draw"}
    ensures h.outcome == "win" <==> m.winnerUid == uid
    ensures h.outcome == "loss" <==> m.winnerUid != uid && m.loserUid == uid
    ensures h.outcome == "draw" <==> m.winnerUid != uid && m.loserUid != uid
  {
    var isPlayer1 := m.player1Uid == uid;
    HistoryEntry(
      m.matchId,
      if isPlayer1 then m.player2Uid else m.player1Uid,
      if isPlayer1 then m.player1InitialElo else m.player2InitialElo,
      if isPlayer1 then m.player1FinalElo else m.player2FinalElo,
      (if isPlayer1 then m.player1FinalElo else m.player2FinalElo) -
        (if isPlayer1 then m.player1InitialElo else m.player2InitialElo),
      if m.winnerUid == uid then "win" else if m.loserUid == uid then "loss" else "draw",
      m.timestamp,
      if isPlayer1 then m.player1Result else m.player2Result,
      if isPlayer1 then m.player2Result else m.player1Result)
  }

  /** Each player's history entry for an adjudicated match reports the same
      rating change as the submission's response, the other player as
      opponent, and the outcome that matches the player's score (for two
      distinct players, neither of whom is named "draw"). */
  lemma HistoryMatchesSubmission(
    pow10: real -> real, matchId: string, wordListSeed: string,
    player1: Elo.RankedPlayer, player2: Elo.RankedPlayer,
    r1: PlayerResult, r2: PlayerResult, timestamp: int)
    requires Elo.Pow10Laws(pow10)
    requires player1.uid != player2.uid && player1.uid != Draw && player2.uid != Draw
    ensures var a := Adjudicate(pow10, matchId, wordListSeed, player1, player2, r1, r2, timestamp);
      var h1 := Perspective(a.record, player1.uid);
      var h2 := Perspective(a.record, player2.uid);
      && h1.opponentUid == player2.uid && h2.opponentUid == player1.uid
      && h1.eloChange == a.response.player1EloChange && h2.eloChange == a.response.player2EloChange
      && (h1.outcome == "win" <==> a.outcome.player1Score == 1.0)
      && (h1.outcome == "loss" <==> a.outcome.player1Score == 0.0)
      && (h1.outcome == "draw" <==> a.outcome.player1Score == 0.5)
      && (h2.outcome == "win" <==> a.outcome.player2Score == 1.0)
      && (h2.outcome == "loss" <==> a.outcome.player2Score == 0.0)
      && (h2.outcome == "draw" <==> a.outcome.player2Score == 0.5)
  {
  }

  // ---------------------------------------------------------------------
  // The match collection and the handlers

  class MatchStore {
    /** The stored match documents, oldest first. */
    var records: seq<RankedMatch>

    constructor ()
      ensures records == []
    {
      records := [];
    }

    method InsertOne(m: RankedMatch)
      modifies this
      ensures records == old(records) + [m]
    {
      records := records + [m];
    }
  }

  /** A uid stored in `before` is still stored in `after` when `after` keeps
      the uids of `before` in place. */
  lemma StillPresent(before: seq<Elo.RankedPlayer>, after: seq<Elo.RankedPlayer>, uid: string)
    requires Elo.Locate(before, uid).Some?
    requires |before| <= |after|
    requires forall i :: 0 <= i < |before| ==> after[i].uid == before[i].uid
    ensures Elo.Locate(after, uid).Some?
    ensures Elo.Provision(after, uid) == after
  {
    var k := Elo.Locate(before, uid).value;
    assert after[k].uid == uid;
  }

  /** The player collection `after` a match between `uid1` and `uid2`
      adjudicated as `a`, starting from `before`: each player's record is
      the per-match update of the record fetched for them (one after the
      other when both uids are the same), nobody else's record changes, and
      the documents are those of `before` with the two provisioned, in place. */
  ghost predicate PlayersAfterMatch(
    before: seq<Elo.RankedPlayer>, after: seq<Elo.RankedPlayer>,
    uid1: string, uid2: string, a: Adjudication, timestamp: int)
  {
    var player1 := Elo.Lookup(before, uid1);
    var player2 := Elo.Lookup(Elo.Provision(before, uid1), uid2);
    var u1 := Elo.StatsUpdated(player1, a.change.newPlayer1Elo, a.outcome.player1Score == 1.0, timestamp);
    var provisioned := Elo.Provision(Elo.Provision(before, uid1), uid2);
    && (uid1 != uid2 ==>
          && Elo.Lookup(after, uid1) == u1
          && Elo.Lookup(after, uid2) ==
               Elo.StatsUpdated(player2, a.change.newPlayer2Elo, a.outcome.player2Score == 1.0, timestamp))
    && (uid1 == uid2 ==>
          Elo.Lookup(after, uid1) == Elo.StatsUpdated(u1, a.change.newPlayer2Elo, a.outcome.player2Score == 1.0, timestamp))
    && (forall v :: v != uid1 && v != uid2 ==> Elo.Lookup(after, v) == Elo.Lookup(before, v))
    && |after| == |provisioned|
    && (forall i :: 0 <= i < |after| ==> after[i].uid == provisioned[i].uid)
  }

  /** The part of `submitRankedMatchResult` after validation: fetch or
      create both players in order, adjudicate, and update both records. */
  method PlayMatch(
    store: Elo.PlayerStore, pow10: real -> real,
    matchId: string, wordListSeed: string, uid1: string, uid2: string,
    r1: PlayerResult, r2: PlayerResult, timestamp: int) returns (a: Adjudication)
    requires Elo.Pow10Laws(pow10) && store.Valid()
    modifies store
    ensures store.Valid()
    ensures a == Adjudicate(pow10, matchId, wordListSeed, Elo.Lookup(old(store.players), uid1),
                            Elo.Lookup(Elo.Provision(old(store.players), uid1), uid2), r1, r2, timestamp)
    ensures PlayersAfterMatch(old(store.players), store.players, uid1, uid2, a, timestamp)
  {
    ghost var s0 := store.players;
    var player1 := store.GetOrCreateRankedPlayer(uid1);
    ghost var s1 := store.players;
    var player2 := store.GetOrCreateRankedPlayer(uid2);
    ghost var s2 := store.players;
    Elo.ProvisionFacts(s0, uid1);
    Elo.ProvisionFacts(s1, uid2);
    Elo.ProvisionKeepsUidsUnique(s1, uid2);
    StillPresent(s1, s2, uid1);
    a := Adjudicate(pow10, matchId, wordListSeed, player1, player2, r1, r2, timestamp);
    store.UpdatePlayerEloAndStats(player1.uid, a.change.newPlayer1Elo, a.outcome.player1Score == 1.0, timestamp);
    ghost var s3 := store.players;
    StillPresent(s2, s3, uid2);
    store.UpdatePlayerEloAndStats(player2.uid, a.change.newPlayer2Elo, a.outcome.player2Score == 1.0, timestamp);
  }

  /** `submitRankedMatchResult`: reject an incomplete body, then (after the
      anti-cheat verdicts) reject non-positive results as an internal error;
      otherwise fetch or create both players, update both, insert the match
      record, and report the deltas. The verdicts only mark the record. */
  method SubmitRankedMatchResult(
    store: Elo.PlayerStore, matches: MatchStore, pow10: real -> real,
    sub: Submission, timestamp: int) returns (response: SubmitResponse)
    requires Elo.Pow10Laws(pow10) && store.Valid()
    modifies store, matches
    ensures store.Valid()
    ensures !Complete(sub) ==>
      response == BadRequest(MissingDataMessage) &&
      store.players == old(store.players) && matches.records == old(matches.records)
    ensures Complete(sub) && !PositiveResults(sub.playerResult.value, sub.opponentResult.value) ==>
      response == InternalError(InternalErrorMessage) &&
      store.players == old(store.players) && matches.records == old(matches.records)
    ensures Complete(sub) && PositiveResults(sub.playerResult.value, sub.opponentResult.value) ==>
      var uid1, uid2 := sub.playerUid.value, sub.opponentUid.value;
      var a := Adjudicate(pow10, sub.matchId.value, sub.wordListSeed.value,
                          Elo.Lookup(old(store.players), uid1),
                          Elo.Lookup(Elo.Provision(old(store.players), uid1), uid2),
                          sub.playerResult.value, sub.opponentResult.value, timestamp);
      && response == a.response
      && matches.records == old(matches.records) + [a.record]
      && PlayersAfterMatch(old(store.players), store.players, uid1, uid2, a, timestamp)
  {
    if !Complete(sub) {
      return BadRequest(MissingDataMessage);
    }
    var playerResult, opponentResult := sub.playerResult.value, sub.opponentResult.value;
    if !PositiveResults(playerResult, opponentResult) {
      return InternalError(InternalErrorMessage);
    }
    var a := PlayMatch(store, pow10, sub.matchId.value, sub.wordListSeed.value,
                       sub.playerUid.value, sub.opponentUid.value, playerResult, opponentResult, timestamp);
    matches.InsertOne(a.record);
    return a.response;
  }

  datatype StartResponse =
    | StartBadRequest(message: string)
    | MatchFound(matchId: string, wordListSeed: string)
    | JoinedQueue

  /** `startRankedMatch`: provision the player and try to pair them from the
      queue; report a found match only if that succeeds, and otherwise join
      the queue (whose own pairing attempt is not reported). */
  method StartRankedMatch(
    store: Elo.PlayerStore, queue: Matchmaking.MatchmakingQueue,
    uid: Option<string>, now: int, matchId: string, wordListSeed: string) returns (response: StartResponse)
    requires store.Valid() && queue.Valid()
    requires matchId != ""
    modifies store, queue
    ensures store.Valid() && queue.Valid()
    ensures !Present(uid) ==>
      response == StartBadRequest(UserIdRequiredMessage) &&
      store.players == old(store.players) && queue.entries == old(queue.entries)
    ensures Present(uid) ==> store.players == Elo.Provision(old(store.players), uid.value)
    ensures Present(uid) ==>
      var candidates := Matchmaking.CandidatesFor(old(store.players), uid.value);
      if Matchmaking.Queued(old(queue.entries), uid.value) &&
         Matchmaking.FirstPartner(candidates, old(queue.entries), uid.value).Some?
      then
        var k := Matchmaking.FirstPartner(candidates, old(queue.entries), uid.value).value;
        response == MatchFound(matchId, wordListSeed) &&
        queue.entries == Matchmaking.Without(Matchmaking.Without(old(queue.entries), uid.value), candidates[k].uid)
      else
        response == JoinedQueue &&
        var requeued := Matchmaking.Requeue(old(queue.entries),
                          Matchmaking.QueueEntry(uid.value, Elo.Lookup(old(store.players), uid.value).elo, now));
        match Matchmaking.FirstPartner(candidates, requeued, uid.value)
        case Some(k) => queue.entries == Matchmaking.Without(Matchmaking.Without(requeued, uid.value), candidates[k].uid)
        case None => queue.entries == requeued
  {
    if !Present(uid) {
      return StartBadRequest(UserIdRequiredMessage);
    }
    ghost var s0 := store.players;
    var player := store.GetOrCreateRankedPlayer(uid.value);
    Elo.ProvisionFacts(s0, uid.value);
    Matchmaking.CandidatesAfterProvision(s0, uid.value);
    var found := queue.FindMatch(store, uid.value, matchId);
    if found.Some? && found.value != "" {
      return MatchFound(found.value, wordListSeed);
    }
    var _ := queue.JoinMatchmakingQueue(store, uid.value, now, matchId);
    return JoinedQueue;
  }

  datatype PlayerStats = PlayerStats(
    uid: string,
    elo: real,
    rankTier: string,
    gamesPlayed: int,
    wins: int,
    losses: int,
    matchHistory: seq<HistoryEntry>)

  /** `getPlayerRankedStats`: provision the player and report the profile,
      the tier recomputed from the rating, and each match of `history` (the
      player's matches as the store returns them) from the player's side. */
  method GetPlayerRankedStats(store: Elo.PlayerStore, history: seq<RankedMatch>, uid: string) returns (stats: PlayerStats)
    requires store.Valid()
    modifies store
    ensures store.Valid()
    ensures store.players == Elo.Provision(old(store.players), uid)
    ensures var p := Elo.Lookup(old(store.players), uid);
      && stats.uid == uid && stats.elo == p.elo && stats.rankTier == Tiers.GetRankTier(p.elo)
      && stats.gamesPlayed == p.gamesPlayed && stats.wins == p.wins && stats.losses == p.losses
    ensures |stats.matchHistory| == |history|
    ensures forall i :: 0 <= i < |history| ==> stats.matchHistory[i] == Perspective(history[i], uid)
  {
    var player := store.GetOrCreateRankedPlayer(uid);
    var projected := seq(|history|, i requires 0 <= i < |history| => Perspective(history[i], uid));
    stats := PlayerStats(player.uid, player.elo, Tiers.GetRankTier(player.elo),
                         player.gamesPlayed, player.wins, player.losses, projected);
  }
}
