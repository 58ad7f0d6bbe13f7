/** The rating engine: expected score and the Elo update rule, the
    per-match record update with its k-factor transition, player
    provisioning, inactivity decay and the matchmaking candidate query,
    over a player collection held in its natural order. */
module Elo {
  import opened Wrappers
  import Tiers

  const KFactorNewPlayer: int := 32
  const KFactorEstablishedPlayer: int := 16
  /** Games after which the k-factor drops to the established value. */
  const NewPlayerGamesThreshold: int := 10
  const EloDecayAmount: real := 10.0
  const EloDecayInactivityWeeks: int := 2
  /** Two weeks, in milliseconds. */
  const DecayWindowMillis: int := EloDecayInactivityWeeks * 7 * 24 * 60 * 60 * 1000
  const DefaultElo: real := 1000.0
  /** Candidates lie within this distance of the player's rating, both ends included. */
  const MatchmakingEloRange: real := 100.0
  const MatchmakingCandidateLimit: nat := 50

  /** One stored player document (the store's own object id is not modelled). */
  datatype RankedPlayer = RankedPlayer(
    uid: string,
    elo: real,
    rankTier: string,
    lastRankedGameTimestamp: int,
    gamesPlayed: int,
    wins: int,
    losses: int,
    kFactor: int)

  // ---------------------------------------------------------------------
  // Expected score and the Elo update rule

  /** What the model relies on about `Math.pow(10, x)`: it is positive,
      `10^-x` is the reciprocal of `10^x`, and it is strictly increasing. */
  ghost predicate Pow10Laws(pow10: real -> real) {
    && (forall x :: pow10(x) > 0.0)
    && (forall x :: pow10(-x) * pow10(x) == 1.0)
    && (forall x, y :: x < y ==> pow10(x) < pow10(y))
  }

  /** The logistic expected score of a player rated `rating` against `opponent`. */
  function ExpectedScore(pow10: real -> real, rating: real, opponent: real): real
    requires Pow10Laws(pow10)
  {
    1.0 / (1.0 + pow10((opponent - rating) / 400.0))
  }

  lemma ExpectedScoreBounds(pow10: real -> real, rating: real, opponent: real)
    requires Pow10Laws(pow10)
    ensures 0.0 < ExpectedScore(pow10, rating, opponent) < 1.0
  {
    var q := pow10((opponent - rating) / 400.0);
    assert q > 0.0;
    assert 1.0 / (1.0 + q) < 1.0 / 1.0;
  }

  /** The two players' expected scores always sum to one. */
  lemma ExpectedScoresSumToOne(pow10: real -> real, a: real, b: real)
    requires Pow10Laws(pow10)
    ensures ExpectedScore(pow10, a, b) + ExpectedScore(pow10, b, a) == 1.0
  {
    var d := (b - a) / 400.0;
    assert (a - b) / 400.0 == -d;
    var p, q := pow10(d), pow10(-d);
    assert p > 0.0 && q > 0.0 && q * p == 1.0;
    calc {
      1.0 / (1.0 + q);
      { assert (1.0 + q) * p == p + 1.0; }
      p / (1.0 + p);
    }
    assert 1.0 / (1.0 + p) + p / (1.0 + p) == 1.0;
  }

  /** Equal ratings expect one half each; the higher-rated player expects more. */
  lemma ExpectedScoreOrdering(pow10: real -> real, a: real, b: real)
    requires Pow10Laws(pow10)
    ensures a == b ==> ExpectedScore(pow10, a, b) == 0.5
    ensures a > b ==> ExpectedScore(pow10, a, b) > 0.5
  {
    ExpectedScoresSumToOne(pow10, a, b);
    if a > b {
      var d := (b - a) / 400.0;
      assert d < -d;
      assert pow10(d) < pow10(-d);
      assert 1.0 + pow10(d) < 1.0 + pow10(-d);
    }
  }

  datatype EloChange = EloChange(newPlayer1Elo: real, newPlayer2Elo: real)

  /** Each new rating is `old + k * (score - expected)`. */
  function CalculateEloChange(
    pow10: real -> real,
    player1Elo: real, player2Elo: real,
    player1Score: real, player2Score: real,
    kFactor1: int, kFactor2: int): (r: EloChange)
    requires Pow10Laws(pow10)
    ensures kFactor1 > 0 && player1Score == 1.0 ==> r.newPlayer1Elo > player1Elo
    ensures kFactor1 > 0 && player1Score == 0.0 ==> r.newPlayer1Elo < player1Elo
    ensures kFactor2 > 0 && player2Score == 1.0 ==> r.newPlayer2Elo > player2Elo
    ensures kFactor2 > 0 && player2Score == 0.0 ==> r.newPlayer2Elo < player2Elo
    ensures kFactor1 == kFactor2 && player1Score + player2Score == 1.0 ==>
      r.newPlayer1Elo + r.newPlayer2Elo == player1Elo + player2Elo
    ensures player1Elo == player2Elo && kFactor1 == kFactor2 && player1Score == 1.0 && player2Score == 0.0 ==>
      r.newPlayer1Elo - player1Elo == kFactor1 as real / 2.0 &&
      r.newPlayer2Elo - player2Elo == -(kFactor2 as real) / 2.0
  {
    RatingMoves(pow10, player1Elo, player2Elo, player1Score, kFactor1);
    RatingMoves(pow10, player2Elo, player1Elo, player2Score, kFactor2);
    TotalConserved(pow10, player1Elo, player2Elo, player1Score, player2Score, kFactor1);
    EvenMatch(pow10, player1Elo, player2Elo, kFactor1);
    EvenMatch(pow10, player2Elo, player1Elo, kFactor2);
    EloChange(Rerated(pow10, player1Elo, player2Elo, player1Score, kFactor1),
              Rerated(pow10, player2Elo, player1Elo, player2Score, kFactor2))
  }

  /** One side of the update: `rating + k * (score - expected)`. */
  function Rerated(pow10: real -> real, rating: real, opponent: real, score: real, k: int): real
    requires Pow10Laws(pow10)
  {
    rating + k as real * (score - ExpectedScore(pow10, rating, opponent))
  }

  /** A win raises and a loss lowers the rating. */
  lemma RatingMoves(pow10: real -> real, rating: real, opponent: real, score: real, k: int)
    requires Pow10Laws(pow10)
    ensures k > 0 && score == 1.0 ==> Rerated(pow10, rating, opponent, score, k) > rating
    ensures k > 0 && score == 0.0 ==> Rerated(pow10, rating, opponent, score, k) < rating
  {
    ExpectedScoreBounds(pow10, rating, opponent);
    var e := ExpectedScore(pow10, rating, opponent);
    if k > 0 && score == 1.0 {
      assert score - e > 0.0;
      assert k as real * (score - e) > 0.0;
    }
    if k > 0 && score == 0.0 {
      assert score - e < 0.0;
      assert k as real * (score - e) < 0.0;
    }
  }

  /** With one k-factor and scores summing to one, the total rating is unchanged. */
  lemma TotalConserved(pow10: real -> real, a: real, b: real, sa: real, sb: real, k: int)
    requires Pow10Laws(pow10)
    ensures sa + sb == 1.0 ==> Rerated(pow10, a, b, sa, k) + Rerated(pow10, b, a, sb, k) == a + b
  {
    ExpectedScoresSumToOne(pow10, a, b);
    var ea, eb := ExpectedScore(pow10, a, b), ExpectedScore(pow10, b, a);
    assert k as real * (sa - ea) + k as real * (sb - eb) == k as real * ((sa - ea) + (sb - eb));
  }

  /** Between equal ratings a win gains exactly k/2 and a loss costs exactly k/2. */
  lemma EvenMatch(pow10: real -> real, rating: real, opponent: real, k: int)
    requires Pow10Laws(pow10)
    ensures rating == opponent ==> Rerated(pow10, rating, opponent, 1.0, k) - rating == k as real / 2.0
    ensures rating == opponent ==> Rerated(pow10, rating, opponent, 0.0, k) - rating == -(k as real) / 2.0
  {
    ExpectedScoreOrdering(pow10, rating, opponent);
  }

  // ---------------------------------------------------------------------
  // Per-player record rules

  /** The record created for a player seen for the first time. */
  function NewRankedPlayer(uid: string): RankedPlayer {
    RankedPlayer(uid, DefaultElo, Tiers.GetRankTier(DefaultElo), 0, 0, 0, 0, KFactorNewPlayer)
  }

  lemma NewRankedPlayerDefaults(uid: string)
    ensures var p := NewRankedPlayer(uid);
      && p.uid == uid && p.elo == 1000.0 && p.rankTier == "Silver IV"
      && p.lastRankedGameTimestamp == 0 && p.gamesPlayed == 0 && p.wins == 0 && p.losses == 0
      && p.kFactor == 32
  {
    Tiers.TierExamples(2900.0, -1.0);
  }

  /** The record after one match: new rating and tier, new timestamp, one
      more game, one more win or (otherwise) one more loss, and the
      established k-factor once the game count reaches the threshold. */
  function StatsUpdated(p: RankedPlayer, newElo: real, isWin: bool, timestamp: int): (q: RankedPlayer)
    ensures q.uid == p.uid && q.elo == newElo && q.rankTier == Tiers.GetRankTier(newElo)
    ensures q.lastRankedGameTimestamp == timestamp && q.gamesPlayed == p.gamesPlayed + 1
    ensures q.wins + q.losses == p.wins + p.losses + 1
    ensures q.wins == p.wins + (if isWin then 1 else 0)
    ensures q.kFactor == if p.gamesPlayed + 1 >= NewPlayerGamesThreshold then KFactorEstablishedPlayer else p.kFactor
  {
    var counted := if isWin then p.(wins := p.wins + 1) else p.(losses := p.losses + 1);
    var kFactor := if p.gamesPlayed + 1 >= NewPlayerGamesThreshold then KFactorEstablishedPlayer else p.kFactor;
    counted.(elo := newElo, rankTier := Tiers.GetRankTier(newElo),
             lastRankedGameTimestamp := timestamp, gamesPlayed := p.gamesPlayed + 1,
             kFactor := kFactor)
  }

  /** One match's worth of input to the record update. */
  datatype MatchUpdate = MatchUpdate(newElo: real, isWin: bool, timestamp: int)

  function ApplyUpdates(p: RankedPlayer, updates: seq<MatchUpdate>): RankedPlayer
    decreases |updates|
  {
    if updates == [] then p
    else ApplyUpdates(StatsUpdated(p, updates[0].newElo, updates[0].isWin, updates[0].timestamp), updates[1..])
  }

  /** Over any run of matches the game count grows by the number of matches,
      `wins + losses == gamesPlayed` is kept, and once the k-factor is the
      established value (or the threshold has been reached) it stays so. */
  lemma {:induction false} UpdatesKeepInvariants(p: RankedPlayer, updates: seq<MatchUpdate>)
    ensures ApplyUpdates(p, updates).gamesPlayed == p.gamesPlayed + |updates|
    ensures p.wins + p.losses == p.gamesPlayed ==>
      ApplyUpdates(p, updates).wins + ApplyUpdates(p, updates).losses == ApplyUpdates(p, updates).gamesPlayed
    ensures p.kFactor == KFactorEstablishedPlayer ==> ApplyUpdates(p, updates).kFactor == KFactorEstablishedPlayer
    ensures p.gamesPlayed + |updates| >= NewPlayerGamesThreshold && |updates| > 0 ==>
      ApplyUpdates(p, updates).kFactor == KFactorEstablishedPlayer
    decreases |updates|
  {
    if updates != [] {
      var u := updates[0];
      var q := StatsUpdated(p, u.newElo, u.isWin, u.timestamp);
      UpdatesKeepInvariants(q, updates[1..]);
      if p.gamesPlayed + |updates| >= NewPlayerGamesThreshold && |updates| > 1 {
        assert q.gamesPlayed + |updates[1..]| >= NewPlayerGamesThreshold;
      }
    }
  }

  /** The cut-off before which a player counts as inactive. */
  function DecayCutoff(now: int): int {
    now - DecayWindowMillis
  }

  /** Decay of one record: ten points off an inactive player with a positive
      rating; the tier field is left as it was. */
  function Decayed(p: RankedPlayer, cutoff: int): (q: RankedPlayer)
    ensures q.uid == p.uid
    ensures p.lastRankedGameTimestamp < cutoff && p.elo > 0.0 ==> q == p.(elo := p.elo - 10.0)
    ensures !(p.lastRankedGameTimestamp < cutoff && p.elo > 0.0) ==> q == p
  {
    if p.lastRankedGameTimestamp < cutoff && p.elo > 0.0 then p.(elo := p.elo - EloDecayAmount) else p
  }

  /** The window is 1 209 600 000 ms, and a rating strictly between 0 and 10
      ends up negative. */
  lemma DecayExamples(p: RankedPlayer, now: int)
    requires 0.0 < p.elo < 10.0 && p.lastRankedGameTimestamp < now - 1209600000
    ensures DecayCutoff(now) == now - 1209600000
    ensures Decayed(p, DecayCutoff(now)).elo < 0.0
  {
  }

  /** Decay as evidently intended: the rating is floored at zero. */
  function DecayedFloored(p: RankedPlayer, cutoff: int): (q: RankedPlayer)
    ensures q.uid == p.uid
    ensures p.elo >= 0.0 ==> q.elo >= 0.0
    ensures q.elo <= p.elo && p.elo - q.elo <= EloDecayAmount
    ensures p.elo >= EloDecayAmount || !(p.lastRankedGameTimestamp < cutoff) ==> q == Decayed(p, cutoff)
    ensures q == p.(elo := q.elo)
    ensures p.elo <= 0.0 ==> q == p
    ensures p.lastRankedGameTimestamp < cutoff && 0.0 < p.elo < EloDecayAmount ==> q.elo == 0.0
  {
    if p.lastRankedGameTimestamp < cutoff && p.elo > 0.0 then
      p.(elo := if p.elo > EloDecayAmount then p.elo - EloDecayAmount else 0.0)
    else p
  }

  // ---------------------------------------------------------------------
  // The player collection

  predicate UniqueUids(players: seq<RankedPlayer>) {
    forall i, j :: 0 <= i < j < |players| ==> players[i].uid != players[j].uid
  }

  /** Index of the first document with this uid (what `findOne` finds). */
  function Locate(players: seq<RankedPlayer>, uid: string): (r: Option<nat>)
    ensures r.Some? ==> r.value < |players| && players[r.value].uid == uid
    ensures r.Some? ==> forall j :: 0 <= j < r.value ==> players[j].uid != uid
    ensures r.None? <==> forall j :: 0 <= j < |players| ==> players[j].uid != uid
  {
    if |players| == 0 then None
    else if players[0].uid == uid then Some(0)
    else
      match Locate(players[1..], uid)
      case None => None
      case Some(i) => Some(i + 1)
  }

  /** What `getOrCreateRankedPlayer` returns: the stored record, or a new one. */
  function Lookup(players: seq<RankedPlayer>, uid: string): RankedPlayer {
    match Locate(players, uid)
    case Some(i) => players[i]
    case None => NewRankedPlayer(uid)
  }

  /** The collection after `getOrCreateRankedPlayer`: a new record is
      appended when none has this uid. */
  function Provision(players: seq<RankedPlayer>, uid: string): seq<RankedPlayer> {
    if Locate(players, uid).Some? then players else players + [NewRankedPlayer(uid)]
  }

  /** The first index holding a uid is what `Locate` reports. */
  lemma LocateAt(players: seq<RankedPlayer>, uid: string, i: nat)
    requires i < |players| && players[i].uid == uid
    requires forall j :: 0 <= j < i ==> players[j].uid != uid
    ensures Locate(players, uid) == Some(i)
  {
    var r := Locate(players, uid);
    assert r.Some?;
    assert r.value <= i;
  }

  /** Locating a uid in a collection with one more record at the end. */
  lemma LocateAppend(players: seq<RankedPlayer>, p: RankedPlayer, uid: string)
    ensures Locate(players + [p], uid) ==
      if Locate(players, uid).Some? then Locate(players, uid)
      else if p.uid == uid then Some(|players|) else None
  {
    var ps := players + [p];
    match Locate(players, uid)
    case Some(i) =>
      assert ps[i] == players[i];
      LocateAt(ps, uid, i);
    case None =>
      if p.uid == uid {
        LocateAt(ps, uid, |players|);
      }
  }

  /** Provisioning makes the uid present with the record it reported, is
      idempotent, and leaves every other uid alone. */
  lemma ProvisionFacts(players: seq<RankedPlayer>, uid: string)
    ensures Lookup(players, uid).uid == uid
    ensures Locate(Provision(players, uid), uid).Some?
    ensures Lookup(Provision(players, uid), uid) == Lookup(players, uid)
    ensures Provision(Provision(players, uid), uid) == Provision(players, uid)
    ensures forall v :: v != uid ==> Lookup(Provision(players, uid), v) == Lookup(players, v)
    ensures |Provision(players, uid)| == |players| + (if Locate(players, uid).None? then 1 else 0)
  {
    if Locate(players, uid).None? {
      LocateAppend(players, NewRankedPlayer(uid), uid);
      forall v | v != uid
        ensures Lookup(Provision(players, uid), v) == Lookup(players, v)
      {
        LocateAppend(players, NewRankedPlayer(uid), v);
      }
    }
  }

  lemma ProvisionKeepsUidsUnique(players: seq<RankedPlayer>, uid: string)
    requires UniqueUids(players)
    ensures UniqueUids(Provision(players, uid))
    ensures forall i :: 0 <= i < |players| ==> Provision(players, uid)[i] == players[i]
  {
    if Locate(players, uid).None? {
      var ps := players + [NewRankedPlayer(uid)];
      forall i, j | 0 <= i < j < |ps|
        ensures ps[i].uid != ps[j].uid
      {
        if j == |players| {
          assert ps[i] == players[i];
        }
      }
    }
  }

  /** The collection with the first record for `q.uid` replaced (`updateOne`). */
  function ReplaceRecord(players: seq<RankedPlayer>, q: RankedPlayer): seq<RankedPlayer> {
    match Locate(players, q.uid)
    case Some(i) => players[i := q]
    case None => players
  }

  /** Replacing a present record changes what that uid finds and nothing else. */
  lemma ReplaceRecordFacts(players: seq<RankedPlayer>, q: RankedPlayer)
    requires Locate(players, q.uid).Some?
    ensures |ReplaceRecord(players, q)| == |players|
    ensures Lookup(ReplaceRecord(players, q), q.uid) == q
    ensures forall v :: v != q.uid ==> Lookup(ReplaceRecord(players, q), v) == Lookup(players, v)
    ensures forall i :: 0 <= i < |players| ==> ReplaceRecord(players, q)[i].uid == players[i].uid
  {
    var i := Locate(players, q.uid).value;
    var ps := players[i := q];
    LocateAt(ps, q.uid, i);
    forall v | v != q.uid
      ensures Lookup(ps, v) == Lookup(players, v)
    {
      match Locate(players, v)
      case Some(j) =>
        LocateAt(ps, v, j);
      case None =>
        assert Locate(ps, v).None?;
    }
  }

  lemma ReplaceRecordKeepsUidsUnique(players: seq<RankedPlayer>, q: RankedPlayer)
    requires UniqueUids(players)
    ensures UniqueUids(ReplaceRecord(players, q))
  {
  }

  /** Players in the collection that `findMatchmakingCandidates` selects. */
  predicate IsCandidate(p: RankedPlayer, playerElo: real, excludeUid: string) {
    p.uid != excludeUid && playerElo - MatchmakingEloRange <= p.elo <= playerElo + MatchmakingEloRange
  }

  /** The qualifying players, in collection order. */
  function Qualifying(players: seq<RankedPlayer>, playerElo: real, excludeUid: string): (r: seq<RankedPlayer>)
    ensures |r| <= |players|
    ensures forall p :: p in r <==> p in players && IsCandidate(p, playerElo, excludeUid)
  {
    if players == [] then []
    else
      var rest := Qualifying(players[1..], playerElo, excludeUid);
      if IsCandidate(players[0], playerElo, excludeUid) then [players[0]] + rest else rest
  }

  /** The selection is a filter: one player is kept exactly when it qualifies ... */
  lemma QualifyingSingle(p: RankedPlayer, playerElo: real, excludeUid: string)
    ensures Qualifying([p], playerElo, excludeUid) == if IsCandidate(p, playerElo, excludeUid) then [p] else []
  {
    assert [p][1..] == [];
  }

  /** ... and the selection of a concatenation is the concatenation of the
      selections, so the qualifying players keep their collection order. */
  lemma {:induction false} QualifyingAppend(a: seq<RankedPlayer>, b: seq<RankedPlayer>, playerElo: real, excludeUid: string)
    ensures Qualifying(a + b, playerElo, excludeUid) == Qualifying(a, playerElo, excludeUid) + Qualifying(b, playerElo, excludeUid)
    decreases |a|
  {
    if a == [] {
      assert a + b == b;
    } else {
      assert (a + b)[0] == a[0] && (a + b)[1..] == a[1..] + b;
      QualifyingAppend(a[1..], b, playerElo, excludeUid);
    }
  }

  /** The candidate query: at most 50 players other than `excludeUid`, each
      rated within 100 of `playerElo` (inclusive), the first qualifying ones
      in collection order; fewer than 50 means every qualifying player. */
  function FindMatchmakingCandidates(players: seq<RankedPlayer>, playerElo: real, excludeUid: string): (r: seq<RankedPlayer>)
    ensures |r| <= MatchmakingCandidateLimit
    ensures forall p :: p in r ==> p in players && p.uid != excludeUid
    ensures forall p :: p in r ==> playerElo - 100.0 <= p.elo <= playerElo + 100.0
    ensures r <= Qualifying(players, playerElo, excludeUid)
    ensures |r| < MatchmakingCandidateLimit ==>
      forall p :: p in players && IsCandidate(p, playerElo, excludeUid) ==> p in r
  {
    var all := Qualifying(players, playerElo, excludeUid);
    if |all| <= MatchmakingCandidateLimit then all
    else
      var r := all[..MatchmakingCandidateLimit];
      assert forall p :: p in r ==> p in all;
      r
  }

  // ---------------------------------------------------------------------
  // The stored collection, updated in place

  class PlayerStore {
    /** The player documents in the collection's natural order. */
    var players: seq<RankedPlayer>

    ghost predicate Valid()
      reads this
    {
      UniqueUids(players)
    }

    constructor ()
      ensures Valid() && players == []
    {
      players := [];
    }

    /** `getOrCreateRankedPlayer`: the stored record, or a fresh default one,
        which is then inserted. */
    method GetOrCreateRankedPlayer(uid: string) returns (player: RankedPlayer)
      requires Valid()
      modifies this
      ensures Valid()
      ensures player == Lookup(old(players), uid) && player.uid == uid
      ensures players == Provision(old(players), uid)
      ensures Locate(old(players), uid).Some? ==> players == old(players)
      ensures Locate(old(players), uid).None? ==> player == NewRankedPlayer(uid) && players == old(players) + [player]
    {
      ProvisionFacts(players, uid);
      ProvisionKeepsUidsUnique(players, uid);
      var found := Locate(players, uid);
      if found.Some? {
        player := players[found.value];
      } else {
        player := NewRankedPlayer(uid);
        players := players + [player];
      }
    }

    /** `updatePlayerEloAndStats`: fetch (or create) the record, then
        overwrite it with the per-match update; nobody else changes. */
    method UpdatePlayerEloAndStats(uid: string, newElo: real, isWin: bool, timestamp: int)
      requires Valid()
      modifies this
      ensures Valid()
      ensures Lookup(players, uid) == StatsUpdated(Lookup(old(players), uid), newElo, isWin, timestamp)
      ensures forall v :: v != uid ==> Lookup(players, v) == Lookup(old(players), v)
      ensures |players| == |Provision(old(players), uid)|
      ensures forall i :: 0 <= i < |players| ==> players[i].uid == Provision(old(players), uid)[i].uid
    {
      ghost var before := players;
      var player := GetOrCreateRankedPlayer(uid);
      ProvisionFacts(before, uid);
      var updated := StatsUpdated(player, newElo, isWin, timestamp);
      ghost var provisioned := players;
      ReplaceRecordFacts(players, updated);
      ReplaceRecordKeepsUidsUnique(players, updated);
      players := ReplaceRecord(players, updated);
    }

    /** `applyEloDecay`: every inactive player with a positive rating loses
        ten points; the others are untouched. */
    method ApplyEloDecay(now: int)
      requires Valid()
      modifies this
      ensures Valid()
      ensures |players| == |old(players)|
      ensures forall i :: 0 <= i < |players| ==> players[i] == Decayed(old(players)[i], DecayCutoff(now))
    {
      var cutoff := DecayCutoff(now);
      players := seq(|players|, i requires 0 <= i < |players| reads this => Decayed(players[i], cutoff));
    }
  }
}
