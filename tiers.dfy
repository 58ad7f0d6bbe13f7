/** Rank tiers: the fixed table of named, inclusive rating bands and the
    first-match lookup that derives a player's tier from a rating. */
module Tiers {
  import opened Wrappers

  /** Upper end of a band: an inclusive integer bound, or none (the top band). */
  datatype MaxElo = AtMost(hi: int) | Unbounded

  datatype Tier = Tier(name: string, minElo: int, maxElo: MaxElo)

  const Unranked: string := "Unranked"

  /** The 26 bands, in lookup order. */
  const RankTiers: seq<Tier> := [
    Tier("Bronze V", 0, AtMost(499)),
    Tier("Bronze IV", 500, AtMost(599)),
    Tier("Bronze III", 600, AtMost(699)),
    Tier("Bronze II", 700, AtMost(799)),
    Tier("Bronze I", 800, AtMost(899)),
    Tier("Silver V", 900, AtMost(999)),
    Tier("Silver IV", 1000, AtMost(1099)),
    Tier("Silver III", 1100, AtMost(1199)),
    Tier("Silver II", 1200, AtMost(1299)),
    Tier("Silver I", 1300, AtMost(1399)),
    Tier("Gold V", 1400, AtMost(1499)),
    Tier("Gold IV", 1500, AtMost(1599)),
    Tier("Gold III", 1600, AtMost(1699)),
    Tier("Gold II", 1700, AtMost(1799)),
    Tier("Gold I", 1800, AtMost(1899)),
    Tier("Platinum V", 1900, AtMost(1999)),
    Tier("Platinum IV", 2000, AtMost(2099)),
    Tier("Platinum III", 2100, AtMost(2199)),
    Tier("Platinum II", 2200, AtMost(2299)),
    Tier("Platinum I", 2300, AtMost(2399)),
    Tier("Diamond V", 2400, AtMost(2499)),
    Tier("Diamond IV", 2500, AtMost(2599)),
    Tier("Diamond III", 2600, AtMost(2699)),
    Tier("Diamond II", 2700, AtMost(2799)),
    Tier("Diamond I", 2800, AtMost(2899)),
    Tier("Master", 2900, Unbounded)
  ]

  /** The band's inclusive range contains the rating. */
  predicate InBand(t: Tier, elo: real) {
    (t.minElo as real) <= elo &&
    match t.maxElo
    case AtMost(hi) => elo <= hi as real
    case Unbounded => true
  }

  /** Index of the first band of `tiers` containing `elo`, scanning in table order. */
  function FirstBand(tiers: seq<Tier>, elo: real): (r: Option<nat>)
    ensures r.Some? ==> r.value < |tiers| && InBand(tiers[r.value], elo)
    ensures r.Some? ==> forall j :: 0 <= j < r.value ==> !InBand(tiers[j], elo)
    ensures r.None? <==> forall j :: 0 <= j < |tiers| ==> !InBand(tiers[j], elo)
  {
    if |tiers| == 0 then None
    else if InBand(tiers[0], elo) then Some(0)
    else
      match FirstBand(tiers[1..], elo)
      case None => None
      case Some(i) => Some(i + 1)
  }

  /** The tier name for a rating: the first band containing it, else "Unranked". */
  function GetRankTier(elo: real): string {
    match FirstBand(RankTiers, elo)
    case Some(i) => RankTiers[i].name
    case None => Unranked
  }

  /** The table starts at `lo`, ends with the one unbounded band, and every
      other band is non-empty and ends one below where the next one begins. */
  ghost predicate GaplessFrom(tiers: seq<Tier>, lo: int) {
    && |tiers| > 0
    && tiers[0].minElo == lo
    && tiers[|tiers| - 1].maxElo == Unbounded
    && forall i :: 0 <= i < |tiers| - 1 ==>
         tiers[i].maxElo == AtMost(tiers[i + 1].minElo - 1) && tiers[i].minElo < tiers[i + 1].minElo
  }

  /** The rating lies strictly between the inclusive top of some bounded band
      and the next integer, where the following band starts. */
  ghost predicate InGap(tiers: seq<Tier>, elo: real) {
    exists i :: 0 <= i < |tiers| && tiers[i].maxElo.AtMost? &&
      (tiers[i].maxElo.hi as real) < elo < (tiers[i].maxElo.hi + 1) as real
  }

  lemma {:induction false} MinsIncreasing(tiers: seq<Tier>, lo: int, i: nat, j: nat)
    requires GaplessFrom(tiers, lo)
    requires i <= j < |tiers|
    ensures tiers[i].minElo + (j - i) <= tiers[j].minElo
    decreases j
  {
    if i < j {
      MinsIncreasing(tiers, lo, i, j - 1);
    }
  }

  lemma SuffixGapless(tiers: seq<Tier>, lo: int)
    requires GaplessFrom(tiers, lo) && |tiers| > 1
    ensures GaplessFrom(tiers[1..], tiers[1].minElo)
  {
    assert tiers[1..][|tiers| - 2] == tiers[|tiers| - 1];
  }

  /** A gap after the first band, or a gap of the table without its first
      band, is a gap of the whole table. */
  lemma GapOfSuffix(tiers: seq<Tier>, elo: real)
    requires |tiers| > 0
    ensures (tiers[0].maxElo.AtMost? && (tiers[0].maxElo.hi as real) < elo < (tiers[0].maxElo.hi + 1) as real)
      ==> InGap(tiers, elo)
    ensures InGap(tiers[1..], elo) ==> InGap(tiers, elo)
  {
    if InGap(tiers[1..], elo) {
      var k :| 0 <= k < |tiers[1..]| && tiers[1..][k].maxElo.AtMost? &&
        (tiers[1..][k].maxElo.hi as real) < elo < (tiers[1..][k].maxElo.hi + 1) as real;
      assert tiers[k + 1] == tiers[1..][k];
    }
  }

  lemma IntegersNotInGap(tiers: seq<Tier>, n: int)
    ensures !InGap(tiers, n as real)
  {
    forall i | 0 <= i < |tiers| && tiers[i].maxElo.AtMost?
      ensures !((tiers[i].maxElo.hi as real) < n as real < (tiers[i].maxElo.hi + 1) as real)
    {
      var hi := tiers[i].maxElo.hi;
      assert hi < n ==> hi + 1 <= n;
    }
  }

  /** In a gapless table a rating at or above the start lies in some band
      unless it falls in a gap between two bands. */
  lemma {:induction false} CoveredUnlessInGap(tiers: seq<Tier>, lo: int, elo: real)
    requires GaplessFrom(tiers, lo)
    requires lo as real <= elo && !InGap(tiers, elo)
    ensures exists i :: 0 <= i < |tiers| && InBand(tiers[i], elo)
    decreases |tiers|
  {
    if InBand(tiers[0], elo) {
    } else {
      var hi := tiers[0].maxElo.hi;
      assert |tiers| > 1;
      GapOfSuffix(tiers, elo);
      SuffixGapless(tiers, lo);
      var rest := tiers[1..];
      CoveredUnlessInGap(rest, hi + 1, elo);
      var k :| 0 <= k < |rest| && InBand(rest[k], elo);
      assert rest[k] == tiers[k + 1];
    }
  }

  /** No band of a gapless table contains a rating below its start or in a gap. */
  lemma NotCoveredBelowOrInGap(tiers: seq<Tier>, lo: int, elo: real)
    requires GaplessFrom(tiers, lo)
    requires elo < lo as real || InGap(tiers, elo)
    ensures forall j :: 0 <= j < |tiers| ==> !InBand(tiers[j], elo)
  {
    forall j | 0 <= j < |tiers|
      ensures !InBand(tiers[j], elo)
    {
      MinsIncreasing(tiers, lo, 0, j);
      if InGap(tiers, elo) {
        var i :| 0 <= i < |tiers| && tiers[i].maxElo.AtMost? &&
          (tiers[i].maxElo.hi as real) < elo < (tiers[i].maxElo.hi + 1) as real;
        assert i < |tiers| - 1;
        if j <= i {
          MinsIncreasing(tiers, lo, j + 1, i + 1);
        } else {
          MinsIncreasing(tiers, lo, i + 1, j);
        }
      }
    }
  }

  /** The bands of a gapless table do not overlap, so the first band that
      contains a rating is the only one. */
  lemma BandsDisjoint(tiers: seq<Tier>, lo: int, i: nat, elo: real)
    requires GaplessFrom(tiers, lo)
    requires i < |tiers| && InBand(tiers[i], elo)
    ensures forall j :: 0 <= j < |tiers| && j != i ==> !InBand(tiers[j], elo)
    ensures FirstBand(tiers, elo) == Some(i)
  {
    forall j | 0 <= j < |tiers| && j != i
      ensures !InBand(tiers[j], elo)
    {
      if j < i {
        MinsIncreasing(tiers, lo, j + 1, i);
      } else {
        MinsIncreasing(tiers, lo, i + 1, j);
      }
    }
  }

  lemma RankTiersGapless()
    ensures |RankTiers| == 26 && GaplessFrom(RankTiers, 0)
    ensures forall i :: 0 <= i < |RankTiers| ==> RankTiers[i].name != Unranked
  {
    forall i | 0 <= i < 26
      ensures i < 25 ==> RankTiers[i].maxElo == AtMost(RankTiers[i + 1].minElo - 1)
      ensures i < 25 ==> RankTiers[i].minElo < RankTiers[i + 1].minElo
      ensures RankTiers[i].name != Unranked
    {
      assert i == 0 || i == 1 || i == 2 || i == 3 || i == 4 || i == 5 || i == 6 || i == 7 || i == 8 || i == 9 || i == 10 || i == 11 || i == 12 || i == 13 || i == 14 || i == 15 || i == 16 || i == 17 || i == 18 || i == 19 || i == 20 || i == 21 || i == 22 || i == 23 || i == 24 || i == 25;
    }
  }

  /** getRankTier answers "Unranked" exactly for negative ratings and for
      ratings strictly between the top of a band and the start of the next. */
  lemma UnrankedExactly(elo: real)
    ensures GetRankTier(elo) == Unranked <==> elo < 0.0 || InGap(RankTiers, elo)
  {
    RankTiersGapless();
    if elo < 0.0 || InGap(RankTiers, elo) {
      NotCoveredBelowOrInGap(RankTiers, 0, elo);
    } else {
      CoveredUnlessInGap(RankTiers, 0, elo);
    }
  }

  /** Every non-negative integer rating lies in exactly one band, and
      getRankTier names that band. */
  lemma IntegerRatingsRanked(n: int)
    requires n >= 0
    ensures exists i :: 0 <= i < |RankTiers| && InBand(RankTiers[i], n as real)
    ensures forall i, j :: 0 <= i < j < |RankTiers| ==> !(InBand(RankTiers[i], n as real) && InBand(RankTiers[j], n as real))
    ensures GetRankTier(n as real) != Unranked
  {
    RankTiersGapless();
    IntegersNotInGap(RankTiers, n);
    CoveredUnlessInGap(RankTiers, 0, n as real);
    var i :| 0 <= i < |RankTiers| && InBand(RankTiers[i], n as real);
    BandsDisjoint(RankTiers, 0, i, n as real);
  }

  /** A new player's 1000 is "Silver IV"; 2900 and above is "Master"; the
      fractional rating 499.5 and any negative rating are "Unranked". */
  lemma TierExamples(top: real, negative: real)
    requires top >= 2900.0 && negative < 0.0
    ensures GetRankTier(1000.0) == "Silver IV"
    ensures GetRankTier(top) == "Master"
    ensures GetRankTier(499.5) == Unranked && GetRankTier(negative) == Unranked
  {
    RankedExamples(top);
    UnrankedExamples(negative);
  }

  lemma RankedExamples(top: real)
    requires top >= 2900.0
    ensures GetRankTier(1000.0) == "Silver IV"
    ensures GetRankTier(top) == "Master"
  {
    RankTiersGapless();
    BandsDisjoint(RankTiers, 0, 6, 1000.0);
    BandsDisjoint(RankTiers, 0, 25, top);
  }

  lemma UnrankedExamples(negative: real)
    requires negative < 0.0
    ensures GetRankTier(499.5) == Unranked && GetRankTier(negative) == Unranked
  {
    assert RankTiers[0].maxElo.AtMost?;
    assert InGap(RankTiers, 499.5);
    UnrankedExactly(499.5);
    UnrankedExactly(negative);
  }

  /** A band with integer bounds that holds a rating also holds its integer part. */
  lemma FloorInBand(t: Tier, elo: real)
    requires InBand(t, elo)
    ensures InBand(t, elo.Floor as real)
  {
    var f := elo.Floor;
    assert f as real <= elo < (f + 1) as real;
    var m := t.minElo;
    assert m as real < (f + 1) as real;
    assert m <= f;
  }

  /** Looking up a rating's integer part names the band the rating lies in,
      when there is one, and the band below a gap when it lies in that gap. */
  lemma FloorTier(elo: real)
    ensures GetRankTier(elo) != Unranked ==> GetRankTier(elo.Floor as real) == GetRankTier(elo)
    ensures forall i ::
      (0 <= i < |RankTiers| - 1 && RankTiers[i].maxElo.AtMost? &&
       (RankTiers[i].maxElo.hi as real) < elo < RankTiers[i + 1].minElo as real) ==>
        GetRankTier(elo.Floor as real) == RankTiers[i].name
  {
    RankTiersGapless();
    match FirstBand(RankTiers, elo) {
      case Some(i) =>
        FloorInBand(RankTiers[i], elo);
        BandsDisjoint(RankTiers, 0, i, elo.Floor as real);
      case None =>
    }
    forall i | 0 <= i < |RankTiers| - 1 && RankTiers[i].maxElo.AtMost? &&
      (RankTiers[i].maxElo.hi as real) < elo < RankTiers[i + 1].minElo as real
      ensures GetRankTier(elo.Floor as real) == RankTiers[i].name
    {
      FloorInGap(elo, i);
    }
  }

  /** A rating in the gap after band `i` has that band's top as its integer part. */
  lemma FloorInGap(elo: real, i: nat)
    requires i < |RankTiers| - 1 && RankTiers[i].maxElo.AtMost?
    requires (RankTiers[i].maxElo.hi as real) < elo < RankTiers[i + 1].minElo as real
    ensures GetRankTier(elo.Floor as real) == RankTiers[i].name
  {
    RankTiersGapless();
    var hi := RankTiers[i].maxElo.hi;
    assert RankTiers[i + 1].minElo == hi + 1;
    assert elo.Floor == hi;
    assert InBand(RankTiers[i], hi as real);
    BandsDisjoint(RankTiers, 0, i, hi as real);
  }

  /** The tier lookup as the table evidently intends it, each bounded band
      running up to where the next one starts: the rating's integer part is
      looked up, so every non-negative rating has a tier, a rating the code
      places keeps its tier, and a rating in a gap gets the band below it. */
  function GetRankTierContinuous(elo: real): (name: string)
    ensures elo >= 0.0 <==> name != Unranked
    ensures elo == elo.Floor as real ==> name == GetRankTier(elo)
    ensures GetRankTier(elo) != Unranked ==> name == GetRankTier(elo)
    ensures forall i ::
      (0 <= i < |RankTiers| - 1 && RankTiers[i].maxElo.AtMost? &&
       (RankTiers[i].maxElo.hi as real) < elo < RankTiers[i + 1].minElo as real) ==>
        name == RankTiers[i].name
  {
    FloorTier(elo);
    if elo >= 0.0 then
      IntegerRatingsRanked(elo.Floor);
      GetRankTier(elo.Floor as real)
    else
      UnrankedExactly(elo.Floor as real);
      GetRankTier(elo.Floor as real)
  }
}
