/**
 * A player's season totals over their per-competition entries: counters
 * are summed, the rating is averaged over the entries that have one, and
 * goals and assists are scaled to 90 minutes. Averages and rates are
 * rounded to two decimals.
 */
module PlayerSeasonAggregates {
  import opened Errors
  import opened JsNumbers
  import opened TeamPlayersNormalizer

  datatype PlayerSeasonAggregates = PlayerSeasonAggregates(
    appearances: real, minutes: real, goals: real, assists: real,
    yellowCards: real, redCards: real,
    averageRating: Option<JsNumber>, goalsPer90: real, assistsPer90: real)

  /** The running totals of the loop. */
  datatype Acc = Acc(
    appearances: real, minutes: real, goals: real, assists: real,
    yellowCards: real, redCards: real,
    ratingSum: JsNumber, ratingCount: nat)

  const Zero: Acc := Acc(0.0, 0.0, 0.0, 0.0, 0.0, 0.0, Finite(0.0), 0)

  /** The fields of a season entry the aggregate reads; its counters are
    * numbers, as the entry's type declares. */
  datatype SeasonLine = SeasonLine(
    appearances: real, minutes: real, goals: real, assists: real,
    yellowCards: real, redCards: real, rating: Option<JsNumber>)

  predicate Counted(s: PlayerSeasonStats) {
    && s.appearances.Num? && s.minutes.Num? && s.goals.Num? && s.assists.Num?
    && s.yellowCards.Num? && s.redCards.Num?
  }

  /** The line of a normalized entry whose counters are numbers. */
  function LineOf(s: PlayerSeasonStats): (l: SeasonLine)
    requires Counted(s)
    ensures l.goals == s.goals.n && l.minutes == s.minutes.n && l.rating == s.rating
  {
    SeasonLine(s.appearances.n, s.minutes.n, s.goals.n, s.assists.n, s.yellowCards.n, s.redCards.n, s.rating)
  }

  /** What one entry contributes to the totals. */
  function Contribution(s: SeasonLine): (a: Acc)
    ensures a.ratingCount == if s.rating.Some? then 1 else 0
  {
    Acc(s.appearances, s.minutes, s.goals, s.assists, s.yellowCards, s.redCards,
        if s.rating.Some? then s.rating.value else Finite(0.0),
        if s.rating.Some? then 1 else 0)
  }

  function Combine(a: Acc, b: Acc): Acc {
    Acc(a.appearances + b.appearances, a.minutes + b.minutes, a.goals + b.goals, a.assists + b.assists,
        a.yellowCards + b.yellowCards, a.redCards + b.redCards,
        Add(a.ratingSum, b.ratingSum), a.ratingCount + b.ratingCount)
  }

  /** The totals as the sum of every entry's contribution. */
  function Totals(stats: seq<SeasonLine>): Acc
    decreases |stats|
  {
    if stats == [] then Zero else Combine(Contribution(stats[0]), Totals(stats[1..]))
  }

  lemma CombineLaws(a: Acc, b: Acc, c: Acc)
    ensures Combine(a, b) == Combine(b, a)
    ensures Combine(Combine(a, b), c) == Combine(a, Combine(b, c))
    ensures Combine(Zero, a) == a
  {
    AddLaws(a.ratingSum, b.ratingSum, c.ratingSum);
  }

  lemma {:induction false} TotalsAppend(a: seq<SeasonLine>, b: seq<SeasonLine>)
    ensures Totals(a + b) == Combine(Totals(a), Totals(b))
    decreases |a|
  {
    if a == [] {
      assert a + b == b;
      CombineLaws(Totals(b), Zero, Zero);
    } else {
      assert (a + b)[1..] == a[1..] + b;
      TotalsAppend(a[1..], b);
      CombineLaws(Contribution(a[0]), Totals(a[1..]), Totals(b));
    }
  }

  /** One iteration of the loop: the counters are added, and the rating is
    * added and counted when it is not `null`. */
  function Step(acc: Acc, s: SeasonLine): (next: Acc)
    ensures next == Combine(acc, Contribution(s))
  {
    var counted := acc.(appearances := acc.appearances + s.appearances,
                        minutes := acc.minutes + s.minutes,
                        goals := acc.goals + s.goals,
                        assists := acc.assists + s.assists,
                        yellowCards := acc.yellowCards + s.yellowCards,
                        redCards := acc.redCards + s.redCards);
    AddLaws(acc.ratingSum, Finite(0.0), Finite(0.0));
    if s.rating.Some? then
      counted.(ratingSum := Add(acc.ratingSum, s.rating.value), ratingCount := acc.ratingCount + 1)
    else
      counted
  }

  lemma TotalsSnoc(a: seq<SeasonLine>, s: SeasonLine)
    ensures Totals(a + [s]) == Combine(Totals(a), Contribution(s))
  {
    TotalsAppend(a, [s]);
    assert [s][1..] == [];
    CombineLaws(Contribution(s), Zero, Zero);
  }

  /** `sum / count` for a positive count: NaN and the infinities are kept. */
  function Average(sum: JsNumber, count: nat): (m: JsNumber)
    requires count > 0
    ensures sum.Finite? <==> m.Finite?
    ensures sum.Finite? ==> m.r * count as real == sum.r
    ensures !sum.Finite? ==> m == sum
  {
    match sum
    case Finite(x) => Finite(x / count as real)
    case _ => sum
  }

  /** `Number(((x / minutes) * 90).toFixed(2))`, or 0 without minutes. */
  function Per90(x: real, minutes: real): (p: real)
    ensures minutes == 0.0 ==> p == 0.0
    ensures minutes != 0.0 ==> Abs(p - x / minutes * 90.0) * 100.0 <= 0.5
    ensures minutes != 0.0 ==> RoundsTo(x / minutes * 90.0, 100, p)
  {
    assert Pow10(2) == 100;
    if minutes == 0.0 then 0.0 else RoundTo(Finite(x / minutes * 90.0), 2).r
  }

  /** `aggregatePlayerSeasonStats(stats)`. */
  method AggregatePlayerSeasonStats(stats: seq<SeasonLine>) returns (r: PlayerSeasonAggregates)
    ensures var t := Totals(stats);
      && r.appearances == t.appearances && r.minutes == t.minutes
      && r.goals == t.goals && r.assists == t.assists
      && r.yellowCards == t.yellowCards && r.redCards == t.redCards
    ensures r.averageRating.None? <==> Totals(stats).ratingCount == 0
    ensures r.averageRating.Some? ==>
      r.averageRating.value == RoundTo(Average(Totals(stats).ratingSum, Totals(stats).ratingCount), 2)
    ensures r.goalsPer90 == Per90(Totals(stats).goals, Totals(stats).minutes)
    ensures r.assistsPer90 == Per90(Totals(stats).assists, Totals(stats).minutes)
  {
    var acc := Zero;
    var i := 0;
    while i < |stats|
      invariant 0 <= i <= |stats|
      invariant acc == Totals(stats[..i])
    {
      assert stats[..i + 1] == stats[..i] + [stats[i]];
      TotalsSnoc(stats[..i], stats[i]);
      acc := Step(acc, stats[i]);
      i := i + 1;
    }
    assert stats[..i] == stats;
    var average := if acc.ratingCount != 0 then Some(RoundTo(Average(acc.ratingSum, acc.ratingCount), 2)) else None;
    r := PlayerSeasonAggregates(
      acc.appearances, acc.minutes, acc.goals, acc.assists, acc.yellowCards, acc.redCards,
      average, Per90(acc.goals, acc.minutes), Per90(acc.assists, acc.minutes));
  }

  // ---------------------------------------------------------------------------
  // Properties

  function Remove<T>(s: seq<T>, j: nat): (r: seq<T>)
    requires j < |s|
    ensures |r| == |s| - 1
  {
    s[..j] + s[j + 1..]
  }

  lemma MultisetRemove<T>(s: seq<T>, j: nat)
    requires j < |s|
    ensures multiset(Remove(s, j)) == multiset(s) - multiset{s[j]}
  {
    assert s == s[..j] + [s[j]] + s[j + 1..];
    assert multiset(s) == multiset(s[..j]) + multiset{s[j]} + multiset(s[j + 1..]);
  }

  /** The totals do not depend on the order of the entries. */
  lemma {:induction false} TotalsArePermutationInvariant(a: seq<SeasonLine>, b: seq<SeasonLine>)
    requires multiset(a) == multiset(b)
    ensures Totals(a) == Totals(b)
    decreases |a|
  {
    if a != [] {
      var x := a[0];
      assert x in multiset(b);
      var j :| 0 <= j < |b| && b[j] == x;
      var rest := Remove(b, j);
      assert rest == b[..j] + b[j + 1..];
      assert b == b[..j] + [x] + b[j + 1..];
      assert a == [x] + a[1..];
      MultisetRemove(b, j);
      MultisetRemove(a, 0);
      assert Remove(a, 0) == a[1..];
      TotalsArePermutationInvariant(a[1..], rest);
      TotalsAppend(b[..j], b[j + 1..]);
      TotalsAppend(b[..j] + [x], b[j + 1..]);
      TotalsAppend(b[..j], [x]);
      assert Totals([x]) == Combine(Contribution(x), Zero);
      CombineLaws(Contribution(x), Zero, Zero);
      CombineLaws(Totals(b[..j]), Contribution(x), Totals(b[j + 1..]));
      CombineLaws(Contribution(x), Totals(b[..j]), Totals(b[j + 1..]));
    }
  }

  /** The top of the provider's rating scale. */
  const MaxRating: nat := 10

  predicate RatingsOnScale(stats: seq<SeasonLine>) {
    forall i :: 0 <= i < |stats| && stats[i].rating.Some? ==>
      stats[i].rating.value.Finite? && 0.0 <= stats[i].rating.value.r <= MaxRating as real
  }

  lemma {:induction false} RatingSumWithin(stats: seq<SeasonLine>)
    requires RatingsOnScale(stats)
    ensures Totals(stats).ratingSum.Finite?
    ensures 0.0 <= Totals(stats).ratingSum.r <= 10.0 * Totals(stats).ratingCount as real
    decreases |stats|
  {
    if stats != [] {
      assert RatingsOnScale(stats[1..]) by {
        assert forall i :: 0 <= i < |stats| - 1 ==> stats[1..][i] == stats[i + 1];
      }
      RatingSumWithin(stats[1..]);
      assert stats[0].rating.Some? ==> stats[0].rating.value.Finite? && 0.0 <= stats[0].rating.value.r <= 10.0;
    }
  }

  /** With every rating on the provider's 0 to 10 scale, the average
    * rating is on that scale too, before and after rounding. */
  lemma AverageRatingOnScale(stats: seq<SeasonLine>)
    requires RatingsOnScale(stats)
    requires Totals(stats).ratingCount > 0
    ensures var avg := Average(Totals(stats).ratingSum, Totals(stats).ratingCount);
      && avg.Finite? && 0.0 <= avg.r <= MaxRating as real
      && RoundTo(avg, 2).Finite? && 0.0 <= RoundTo(avg, 2).r <= MaxRating as real
  {
    var t := Totals(stats);
    RatingSumWithin(stats);
    var q := t.ratingSum.r / t.ratingCount as real;
    QuotientBound(t.ratingSum.r, t.ratingCount as real, 10.0);
    RoundToWithin(q, 2, MaxRating);
  }

  /** A rating that does not parse is counted and poisons the average. */
  lemma UnparsedRatingPoisonsAverage(stats: seq<SeasonLine>, k: nat)
    requires k < |stats| && stats[k].rating == Some(NaN)
    ensures Totals(stats).ratingCount > 0
    ensures Totals(stats).ratingSum == NaN
  {
    var b := [stats[k]] + Remove(stats, k);
    assert stats == stats[..k] + [stats[k]] + stats[k + 1..];
    assert multiset(stats) == multiset(b);
    TotalsArePermutationInvariant(stats, b);
    assert b[1..] == Remove(stats, k);
  }
}
