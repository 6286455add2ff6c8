/**
 * The figures of the "Scan Overview" panel: the high-score count and
 * percentage, the five score buckets of the distribution chart, the bar
 * scale `maxCount` and the width of each bar.
 */
module StatsPanel {
  import opened GenerateLeads

  /** `leads.filter((lead) => lead.score > 80).length`. */
  function HighScoreLeads(leads: seq<Lead>): (n: nat)
    ensures n <= |leads|
  {
    if leads == [] then 0
    else HighScoreLeads(leads[..|leads| - 1]) + (if leads[|leads| - 1].score > 80 then 1 else 0)
  }

  /** `Math.round(x)`: the integer nearest `x`, halves rounded up. */
  function Round(x: real): (n: int)
    ensures x - 0.5 < n as real <= x + 0.5
  {
    (x + 0.5).Floor
  }

  /** `highScorePercentage`: 0 without leads, else the rounded share of high scores. */
  function HighScorePercentage(leads: seq<Lead>): (pct: int)
    ensures 0 <= pct <= 100
    ensures leads == [] ==> pct == 0
    ensures leads != [] ==>
      var exact := HighScoreLeads(leads) as real / |leads| as real * 100.0;
      exact - 0.5 < pct as real <= exact + 0.5
  {
    var total := |leads|;
    if total > 0 then
      var high := HighScoreLeads(leads);
      var exact := high as real / total as real * 100.0;
      assert 0.0 <= high as real / total as real <= 1.0;
      Round(exact)
    else 0
  }

  /** The five bars of the chart, top to bottom. */
  datatype Bucket = From90 | From80 | From70 | From60 | Below60

  const Buckets: seq<Bucket> := [From90, From80, From70, From60, Below60]

  function Label(b: Bucket): string
  {
    match b
    case From90 => "90-100"
    case From80 => "80-89"
    case From70 => "70-79"
    case From60 => "60-69"
    case Below60 => "0-59"
  }

  /** The filter of each bar, as written for it. */
  predicate InBucket(score: int, b: Bucket)
  {
    match b
    case From90 => score >= 90
    case From80 => score >= 80 && score < 90
    case From70 => score >= 70 && score < 80
    case From60 => score >= 60 && score < 70
    case Below60 => score < 60
  }

  /** The bar a score lands in. */
  function BucketOf(score: int): (b: Bucket)
    ensures InBucket(score, b)
  {
    if score >= 90 then From90
    else if score >= 80 then From80
    else if score >= 70 then From70
    else if score >= 60 then From60
    else Below60
  }

  /** The five filters are disjoint: a score lands in one bar only. */
  lemma BucketsDisjoint(score: int, b: Bucket)
    requires InBucket(score, b)
    ensures b == BucketOf(score)
  {
  }

  /** The count of one bar. */
  function Count(leads: seq<Lead>, b: Bucket): (n: nat)
    ensures n <= |leads|
  {
    if leads == [] then 0
    else Count(leads[..|leads| - 1], b) + (if InBucket(leads[|leads| - 1].score, b) then 1 else 0)
  }

  function CountSum(leads: seq<Lead>): nat
  {
    Count(leads, From90) + Count(leads, From80) + Count(leads, From70) + Count(leads, From60) + Count(leads, Below60)
  }

  /** The bars cover every lead once: their counts add up to `totalLeads`. */
  lemma {:induction false} BucketsCoverAll(leads: seq<Lead>)
    ensures CountSum(leads) == |leads|
  {
    if leads != [] {
      BucketsCoverAll(leads[..|leads| - 1]);
      var s := leads[|leads| - 1].score;
      var b := BucketOf(s);
      forall b' | InBucket(s, b') ensures b' == b {
        BucketsDisjoint(s, b');
      }
    }
  }

  /**
   * A score of exactly 80 is drawn in the `80-89` bar without being a high
   * score: the two thresholds differ.
   */
  lemma {:induction false} ScoreEightyBoundary(leads: seq<Lead>, lead: Lead)
    requires lead.score == 80
    ensures Count(leads + [lead], From80) == Count(leads, From80) + 1
    ensures HighScoreLeads(leads + [lead]) == HighScoreLeads(leads)
  {
    assert (leads + [lead])[..|leads|] == leads;
  }

  /** The high scores are the `90-100` bar plus part of the `80-89` one. */
  lemma {:induction false} HighScoreBetweenBars(leads: seq<Lead>)
    ensures Count(leads, From90) <= HighScoreLeads(leads) <= Count(leads, From90) + Count(leads, From80)
  {
    if leads != [] {
      HighScoreBetweenBars(leads[..|leads| - 1]);
    }
  }

  /** The position of each bar in `scoreRanges`. */
  function Index(b: Bucket): (i: nat)
    ensures i < |Buckets| && Buckets[i] == b
  {
    match b
    case From90 => 0
    case From80 => 1
    case From70 => 2
    case From60 => 3
    case Below60 => 4
  }

  /** `scoreRanges.map((r) => r.count)`. */
  function RangeCounts(leads: seq<Lead>): (counts: seq<nat>)
    ensures |counts| == |Buckets|
    ensures forall b :: counts[Index(b)] == Count(leads, b)
  {
    seq(|Buckets|, i requires 0 <= i < |Buckets| => Count(leads, Buckets[i]))
  }

  /** `Math.max(...values)` over a non-empty list. */
  function MaxOf(values: seq<nat>): (m: nat)
    requires values != []
    ensures forall k :: 0 <= k < |values| ==> values[k] <= m
    ensures m in values
  {
    if |values| == 1 then values[0]
    else
      var rest := MaxOf(values[..|values| - 1]);
      if rest >= values[|values| - 1] then rest else values[|values| - 1]
  }

  /** `Math.max(...counts, 1)`: the scale of the bars. */
  function MaxCount(leads: seq<Lead>): (m: nat)
    ensures m >= 1
    ensures forall b :: Count(leads, b) <= m
    ensures m == 1 || exists b :: Count(leads, b) == m
  {
    var counts := RangeCounts(leads);
    var values := counts + [1];
    var m := MaxOf(values);
    assert values[|counts|] == 1;
    assert forall b :: values[Index(b)] == Count(leads, b);
    assert m != 1 ==> exists b :: Count(leads, b) == m by {
      if m != 1 {
        var k :| 0 <= k < |values| && values[k] == m;
        assert k < |counts|;
        assert values[Index(Buckets[k])] == m;
      }
    }
    m
  }

  /** The width of a bar, in percent of the track. */
  function BarWidth(leads: seq<Lead>, b: Bucket): (w: real)
    ensures 0.0 <= w <= 100.0
  {
    var ratio := Count(leads, b) as real / MaxCount(leads) as real;
    RatioAtMostOne(Count(leads, b), MaxCount(leads));
    ratio * 100.0
  }

  lemma RatioAtMostOne(c: nat, m: nat)
    requires 1 <= m && c <= m
    ensures 0.0 <= c as real / m as real <= 1.0
  {
    var q := c as real / m as real;
    assert q * m as real == c as real;
  }

  /** A count over itself is one. */
  lemma RatioOfEqualIsOne(c: nat, m: nat)
    requires 1 <= m && c == m
    ensures c as real / m as real == 1.0
  {
  }

  /** The tallest bar fills the track whenever there is a lead. */
  lemma FullestBarIsFull(leads: seq<Lead>)
    requires leads != []
    ensures exists b :: BarWidth(leads, b) == 100.0
  {
    var m := MaxCount(leads);
    var b: Bucket;
    if m == 1 {
      b := BucketOf(leads[|leads| - 1].score);
      CountPositive(leads, b);
    } else {
      b :| Count(leads, b) == m;
    }
    MaxBarIsFull(leads, b);
  }

  /** A bar whose count is the scale is drawn at full width. */
  lemma MaxBarIsFull(leads: seq<Lead>, b: Bucket)
    requires Count(leads, b) == MaxCount(leads)
    ensures BarWidth(leads, b) == 100.0
  {
    RatioOfEqualIsOne(Count(leads, b), MaxCount(leads));
  }

  /** The bar of the last lead's score is not empty. */
  lemma CountPositive(leads: seq<Lead>, b: Bucket)
    requires leads != [] && b == BucketOf(leads[|leads| - 1].score)
    ensures Count(leads, b) >= 1
  {
  }
}
