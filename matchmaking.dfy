/** The matchmaking queue: a list of waiting players changed in place by
    join (replace, then append), leave (`splice` at the found index) and
    first-fit pairing over the candidate query's answer. */
module Matchmaking {
  import opened Wrappers
  import Elo

  datatype QueueEntry = QueueEntry(uid: string, elo: real, timestamp: int)

  const WaitingForOpponent: string := "Waiting for opponent"

  /** `Array.prototype.findIndex` by uid: the first index, or -1. */
  function FindIndex(entries: seq<QueueEntry>, uid: string): (i: int)
    ensures -1 <= i < |entries|
    ensures i >= 0 ==> entries[i].uid == uid && forall j :: 0 <= j < i ==> entries[j].uid != uid
    ensures i == -1 <==> forall j :: 0 <= j < |entries| ==> entries[j].uid != uid
  {
    if entries == [] then -1
    else if entries[0].uid == uid then 0
    else
      var i := FindIndex(entries[1..], uid);
      if i == -1 then -1 else i + 1
  }

  /** `Array.prototype.splice(start, 1)`: a negative start counts back from
      the end (clamped at 0), a start past the end removes nothing. */
  function SpliceOne(entries: seq<QueueEntry>, start: int): seq<QueueEntry> {
    var n := |entries|;
    var s := if start < 0 then (if n + start < 0 then 0 else n + start) else (if start > n then n else start);
    if s < n then entries[..s] + entries[s + 1..] else entries
  }

  predicate Queued(entries: seq<QueueEntry>, uid: string) {
    exists i :: 0 <= i < |entries| && entries[i].uid == uid
  }

  /** At most one entry per uid. */
  predicate UniqueUids(entries: seq<QueueEntry>) {
    forall i, j :: 0 <= i < j < |entries| ==> entries[i].uid != entries[j].uid
  }

  /** The queue with every entry for `uid` taken out, the rest in order. */
  function Without(entries: seq<QueueEntry>, uid: string): (r: seq<QueueEntry>)
    ensures forall e :: e in r <==> e in entries && e.uid != uid
    ensures |r| <= |entries|
  {
    if entries == [] then []
    else if entries[0].uid == uid then Without(entries[1..], uid)
    else [entries[0]] + Without(entries[1..], uid)
  }

  lemma {:induction false} WithoutAppend(a: seq<QueueEntry>, b: seq<QueueEntry>, uid: string)
    ensures Without(a + b, uid) == Without(a, uid) + Without(b, uid)
    decreases |a|
  {
    if a == [] {
      assert a + b == b;
    } else {
      assert (a + b)[0] == a[0] && (a + b)[1..] == a[1..] + b;
      WithoutAppend(a[1..], b, uid);
    }
  }

  lemma {:induction false} WithoutAbsent(entries: seq<QueueEntry>, uid: string)
    requires forall j :: 0 <= j < |entries| ==> entries[j].uid != uid
    ensures Without(entries, uid) == entries
    decreases |entries|
  {
    if entries != [] {
      WithoutAbsent(entries[1..], uid);
    }
  }

  lemma UniqueSubsequence(entries: seq<QueueEntry>, i: nat)
    requires UniqueUids(entries) && i < |entries|
    ensures UniqueUids(entries[..i] + entries[i + 1..])
  {
    var r := entries[..i] + entries[i + 1..];
    forall a, b | 0 <= a < b < |r|
      ensures r[a].uid != r[b].uid
    {
      var a' := if a < i then a else a + 1;
      var b' := if b < i then b else b + 1;
      assert r[a] == entries[a'] && r[b] == entries[b'];
    }
  }

  /** Removing the entry at `i` removes exactly the entries for its uid
      when that uid appears nowhere else. */
  lemma {:induction false} WithoutAtIndex(entries: seq<QueueEntry>, i: nat)
    requires i < |entries|
    requires forall j :: 0 <= j < |entries| && j != i ==> entries[j].uid != entries[i].uid
    ensures Without(entries, entries[i].uid) == entries[..i] + entries[i + 1..]
    decreases i
  {
    var uid := entries[i].uid;
    var rest := entries[1..];
    if i == 0 {
      WithoutAbsent(rest, uid);
    } else {
      assert rest[i - 1] == entries[i];
      WithoutAtIndex(rest, i - 1);
      assert entries[..i] == [entries[0]] + rest[..i - 1];
      assert rest[i..] == entries[i + 1..];
    }
  }

  /** With one entry per uid, splicing at the found index removes exactly
      that uid's entry and keeps the rest in order. */
  lemma SpliceFound(entries: seq<QueueEntry>, uid: string)
    requires UniqueUids(entries) && Queued(entries, uid)
    ensures FindIndex(entries, uid) >= 0
    ensures SpliceOne(entries, FindIndex(entries, uid)) == Without(entries, uid)
    ensures |Without(entries, uid)| == |entries| - 1
    ensures UniqueUids(Without(entries, uid)) && !Queued(Without(entries, uid), uid)
  {
    var i := FindIndex(entries, uid);
    assert i >= 0;
    WithoutAtIndex(entries, i);
    assert SpliceOne(entries, i) == entries[..i] + entries[i + 1..];
    UniqueSubsequence(entries, i);
  }

  /** Splicing at -1 (the uid is absent) drops the last entry, if any. */
  lemma SpliceAbsent(entries: seq<QueueEntry>, uid: string)
    requires !Queued(entries, uid)
    ensures FindIndex(entries, uid) == -1
    ensures SpliceOne(entries, FindIndex(entries, uid)) == if entries == [] then [] else entries[..|entries| - 1]
    ensures UniqueUids(entries) ==> UniqueUids(SpliceOne(entries, FindIndex(entries, uid)))
  {
  }

  /** Join's replace-and-append step. */
  function Requeue(entries: seq<QueueEntry>, entry: QueueEntry): seq<QueueEntry> {
    Without(entries, entry.uid) + [entry]
  }

  /** After requeueing, the uid has exactly one entry, it is last and it is
      the new one; every other entry is kept, in order. */
  lemma RequeueFacts(entries: seq<QueueEntry>, entry: QueueEntry)
    requires UniqueUids(entries)
    ensures var r := Requeue(entries, entry);
      && |r| > 0 && r[|r| - 1] == entry
      && (forall j :: 0 <= j < |r| - 1 ==> r[j].uid != entry.uid)
      && Without(r, entry.uid) == Without(entries, entry.uid)
      && UniqueUids(r)
  {
    var r := Requeue(entries, entry);
    WithoutAppend(Without(entries, entry.uid), [entry], entry.uid);
    WithoutAbsent(Without(entries, entry.uid), entry.uid);
    assert Without([entry], entry.uid) == [];
    forall a, b | 0 <= a < b < |r|
      ensures r[a].uid != r[b].uid
    {
      if b < |r| - 1 {
        WithoutKeepsUnique(entries, entry.uid);
      } else {
        assert r[a] in Without(entries, entry.uid);
      }
    }
  }

  lemma {:induction false} WithoutKeepsUnique(entries: seq<QueueEntry>, uid: string)
    requires UniqueUids(entries)
    ensures UniqueUids(Without(entries, uid))
    decreases |entries|
  {
    if entries != [] {
      WithoutKeepsUnique(entries[1..], uid);
      if entries[0].uid != uid {
        var rest := Without(entries[1..], uid);
        forall j | 0 <= j < |rest|
          ensures rest[j].uid != entries[0].uid
        {
          assert rest[j] in entries[1..];
        }
      }
    }
  }

  /** A candidate that can be paired: not the player, and queued. */
  predicate Pairable(c: Elo.RankedPlayer, entries: seq<QueueEntry>, playerUid: string) {
    c.uid != playerUid && FindIndex(entries, c.uid) != -1
  }

  /** Index of the first pairable candidate, in candidate order. */
  function FirstPartner(candidates: seq<Elo.RankedPlayer>, entries: seq<QueueEntry>, playerUid: string): (r: Option<nat>)
    ensures r.Some? ==> r.value < |candidates| && Pairable(candidates[r.value], entries, playerUid)
    ensures r.Some? ==> forall j :: 0 <= j < r.value ==> !Pairable(candidates[j], entries, playerUid)
    ensures r.None? <==> forall j :: 0 <= j < |candidates| ==> !Pairable(candidates[j], entries, playerUid)
  {
    if candidates == [] then None
    else if Pairable(candidates[0], entries, playerUid) then Some(0)
    else
      match FirstPartner(candidates[1..], entries, playerUid)
      case None => None
      case Some(i) => Some(i + 1)
  }

  lemma FirstPartnerAt(candidates: seq<Elo.RankedPlayer>, entries: seq<QueueEntry>, playerUid: string, i: nat)
    requires i < |candidates| && Pairable(candidates[i], entries, playerUid)
    requires forall j :: 0 <= j < i ==> !Pairable(candidates[j], entries, playerUid)
    ensures FirstPartner(candidates, entries, playerUid) == Some(i)
  {
    var r := FirstPartner(candidates, entries, playerUid);
    assert r.Some?;
    assert r.value <= i;
  }

  /** The candidates findMatch considers: the query run with the player's
      stored rating, on the collection after the player is provisioned. */
  function CandidatesFor(players: seq<Elo.RankedPlayer>, uid: string): seq<Elo.RankedPlayer> {
    Elo.FindMatchmakingCandidates(Elo.Provision(players, uid), Elo.Lookup(players, uid).elo, uid)
  }

  lemma CandidatesAfterProvision(players: seq<Elo.RankedPlayer>, uid: string)
    ensures CandidatesFor(Elo.Provision(players, uid), uid) == CandidatesFor(players, uid)
  {
    Elo.ProvisionFacts(players, uid);
  }

  /** Pairing removes both entries: two fewer, the rest kept in order. */
  lemma RemovePair(entries: seq<QueueEntry>, a: string, b: string)
    requires UniqueUids(entries) && Queued(entries, a) && Queued(entries, b) && a != b
    ensures var r := Without(Without(entries, a), b);
      && |r| == |entries| - 2
      && UniqueUids(r)
      && (forall e :: e in r <==> e in entries && e.uid != a && e.uid != b)
  {
    SpliceFound(entries, a);
    var i :| 0 <= i < |entries| && entries[i].uid == b;
    assert entries[i] in Without(entries, a);
    var k :| 0 <= k < |Without(entries, a)| && Without(entries, a)[k] == entries[i];
    SpliceFound(Without(entries, a), b);
  }

  /** A player alone in the queue is never paired. */
  lemma LonePlayerNotPaired(candidates: seq<Elo.RankedPlayer>, entry: QueueEntry)
    ensures FirstPartner(candidates, [entry], entry.uid).None?
  {
  }

  /** When the query returns fewer than 50 players, any other queued player
      within the rating band is found as a partner. */
  lemma QueuedNeighbourFound(players: seq<Elo.RankedPlayer>, entries: seq<QueueEntry>, uid: string, other: Elo.RankedPlayer)
    requires other in Elo.Provision(players, uid)
    requires Elo.IsCandidate(other, Elo.Lookup(players, uid).elo, uid)
    requires Queued(entries, other.uid)
    requires |CandidatesFor(players, uid)| < Elo.MatchmakingCandidateLimit
    ensures FirstPartner(CandidatesFor(players, uid), entries, uid).Some?
  {
    var cands := CandidatesFor(players, uid);
    assert other in cands;
    var k :| 0 <= k < |cands| && cands[k] == other;
    assert Pairable(cands[k], entries, uid);
  }

  /** findMatch's scan: the first candidate, in order, that is not the
      player and has a queue entry. */
  method ScanCandidates(candidates: seq<Elo.RankedPlayer>, entries: seq<QueueEntry>, playerUid: string)
    returns (found: Option<nat>)
    ensures found == FirstPartner(candidates, entries, playerUid)
  {
    var i := 0;
    while i < |candidates|
      invariant 0 <= i <= |candidates|
      invariant forall j :: 0 <= j < i ==> !Pairable(candidates[j], entries, playerUid)
    {
      var player2EntryIndex := FindIndex(entries, candidates[i].uid);
      if player2EntryIndex != -1 && candidates[i].uid != playerUid {
        FirstPartnerAt(candidates, entries, playerUid, i);
        return Some(i);
      }
      i := i + 1;
    }
    return None;
  }

  /** Leaving a queue that does not hold the player removes whoever is last. */
  lemma LeaveAbsentDropsAnotherPlayer()
    ensures var queue := [QueueEntry("alice", 1000.0, 0)];
      SpliceOne(queue, FindIndex(queue, "bob")) == []
  {
  }

  /** Leave as evidently intended: splice only when the player has an entry,
      so the queue loses exactly the player's entry and nothing else. */
  function LeaveIfQueued(entries: seq<QueueEntry>, uid: string): (r: seq<QueueEntry>)
    requires UniqueUids(entries)
    ensures r == Without(entries, uid)
    ensures UniqueUids(r) && !Queued(r, uid)
  {
    WithoutKeepsUnique(entries, uid);
    var i := FindIndex(entries, uid);
    if i == -1 then
      WithoutAbsent(entries, uid);
      entries
    else
      SpliceFound(entries, uid);
      SpliceOne(entries, i)
  }

  class MatchmakingQueue {
    var entries: seq<QueueEntry>

    ghost predicate Valid()
      reads this
    {
      UniqueUids(entries)
    }

    constructor ()
      ensures Valid() && entries == []
    {
      entries := [];
    }

    /** `leaveMatchmakingQueue`: `splice(findIndex(uid), 1)`. */
    method LeaveMatchmakingQueue(uid: string)
      requires Valid()
      modifies this
      ensures Valid()
      ensures Queued(old(entries), uid) ==>
        entries == Without(old(entries), uid) && |entries| == |old(entries)| - 1
      ensures !Queued(old(entries), uid) ==>
        entries == if old(entries) == [] then [] else old(entries)[..|old(entries)| - 1]
    {
      if Queued(entries, uid) {
        SpliceFound(entries, uid);
      } else {
        SpliceAbsent(entries, uid);
      }
      entries := SpliceOne(entries, FindIndex(entries, uid));
    }

    /** `findMatch`: if the player is queued, scan the candidates in order
        and pair with the first one that is queued too, removing both. */
    method FindMatch(store: Elo.PlayerStore, playerUid: string, matchId: string) returns (r: Option<string>)
      requires Valid() && store.Valid()
      requires matchId != ""
      modifies this, store
      ensures Valid() && store.Valid()
      ensures !Queued(old(entries), playerUid) ==>
        r == None && entries == old(entries) && store.players == old(store.players)
      ensures Queued(old(entries), playerUid) ==>
        store.players == Elo.Provision(old(store.players), playerUid)
      ensures Queued(old(entries), playerUid) ==>
        var candidates := CandidatesFor(old(store.players), playerUid);
        match FirstPartner(candidates, old(entries), playerUid)
        case Some(k) =>
          r == Some(matchId) && entries == Without(Without(old(entries), playerUid), candidates[k].uid)
        case None =>
          r == None && entries == old(entries)
    {
      if FindIndex(entries, playerUid) == -1 {
        return None;
      }
      var player1 := store.GetOrCreateRankedPlayer(playerUid);
      var candidates := Elo.FindMatchmakingCandidates(store.players, player1.elo, player1.uid);
      assert candidates == CandidatesFor(old(store.players), playerUid);
      var found := ScanCandidates(candidates, entries, player1.uid);
      if found.None? {
        return None;
      }
      var player2Uid := candidates[found.value].uid;
      RemovePair(entries, playerUid, player2Uid);
      LeaveMatchmakingQueue(player1.uid);
      LeaveMatchmakingQueue(player2Uid);
      return Some(matchId);
    }

    /** `joinMatchmakingQueue`: provision the player, replace any entry of
        theirs by a fresh one at the end carrying the stored rating, then try
        to pair at once. */
    method JoinMatchmakingQueue(store: Elo.PlayerStore, uid: string, now: int, matchId: string) returns (status: string)
      requires Valid() && store.Valid()
      requires matchId != ""
      modifies this, store
      ensures Valid() && store.Valid()
      ensures store.players == Elo.Provision(old(store.players), uid)
      ensures
        var requeued := Requeue(old(entries), QueueEntry(uid, Elo.Lookup(old(store.players), uid).elo, now));
        var candidates := CandidatesFor(old(store.players), uid);
        match FirstPartner(candidates, requeued, uid)
        case Some(k) =>
          status == matchId && entries == Without(Without(requeued, uid), candidates[k].uid)
        case None =>
          status == WaitingForOpponent && entries == requeued
    {
      ghost var before := store.players;
      var player := store.GetOrCreateRankedPlayer(uid);
      var existingIndex := FindIndex(entries, uid);
      if existingIndex != -1 {
        SpliceFound(entries, uid);
        entries := SpliceOne(entries, existingIndex);
      } else {
        WithoutAbsent(entries, uid);
      }
      var entry := QueueEntry(uid, player.elo, now);
      RequeueFacts(old(entries), entry);
      entries := entries + [entry];
      assert Queued(entries, uid) by {
        assert entries[|entries| - 1].uid == uid;
      }
      CandidatesAfterProvision(before, uid);
      Elo.ProvisionFacts(before, uid);
      var found := FindMatch(store, uid, matchId);
      if found.Some? && found.value != "" {
        return found.value;
      }
      return WaitingForOpponent;
    }

    /** `getMatchmakingQueueStatus`: the queue as it stands. */
    method GetMatchmakingQueueStatus() returns (snapshot: seq<QueueEntry>)
      ensures snapshot == entries
    {
      snapshot := entries;
    }
  }
}
