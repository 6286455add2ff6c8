/**
 * Mock lead generation (`generateLeads`, `generateLeadName`,
 * `generateAddress`) and the mock geocoder (`geocodeLocation`).
 *
 * `Math.random()` is an oracle: the sequence of values in [0, 1) it returns,
 * seven per lead. `Date.now()` is an oracle too: one reading per lead.
 * Coordinates come from trigonometry on floating point and are left out,
 * but the two draws they consume are kept so that the later draws line up.
 */
module GenerateLeads {
  import opened Text

  // ---------------------------------------------------------------------------
  // Leads
  // ---------------------------------------------------------------------------

  datatype Estado = Nuevo | Pendiente | Calificado

  /** `Lead` without its coordinates. */
  datatype Lead = Lead(id: string, nombre: string, industria: string, direccion: string, score: int, estado: Estado)

  /** A value `Math.random()` can return. */
  predicate IsRandom(r: real)
  {
    0.0 <= r < 1.0
  }

  /** `Math.floor(r * n)` for a random `r`: an index below `n`. */
  function FloorScaled(r: real, n: nat): (k: int)
    requires IsRandom(r) && n > 0
    ensures 0 <= k < n
  {
    var x := r * n as real;
    assert 0.0 <= x < n as real;
    x.Floor
  }

  const Prefixes: seq<string> := ["Aurora", "Nexus", "Prime", "Elite", "Pro", "Max", "Ultra", "Core", "Apex", "Vertex"]
  const Suffixes: seq<string> := ["Center", "Hub", "Studio", "Works", "Lab", "Group", "Solutions", "Services"]
  const Streets: seq<string> := ["Av. Principal", "Calle Reforma", "Blvd. Industrial", "Av. Tecnol\U{00F3}gica", "Calle Comercial"]
  const Estados: seq<Estado> := [Nuevo, Pendiente, Calificado]

  /** The prefix of lead `index`: the index modulo the ten prefixes. */
  function PrefixOf(index: nat): string
  {
    Prefixes[index % |Prefixes|]
  }

  /** The suffix of lead `index`: the index divided by ten, modulo the eight suffixes. */
  function SuffixOf(index: nat): string
  {
    Suffixes[(index / |Prefixes|) % |Suffixes|]
  }

  /** The number after `#`: a random integer from 1 to 50. */
  function NameNumber(r: real): (n: nat)
    requires IsRandom(r)
    ensures 1 <= n <= 50
  {
    FloorScaled(r, 50) + 1
  }

  /** `generateLeadName(industria, index)` with the random draw `r`. */
  function LeadName(industria: string, index: nat, r: real): string
    requires IsRandom(r)
  {
    PrefixOf(index) + " " + UpperFirst(industria) + " " + SuffixOf(index) + " #" + NatToString(NameNumber(r))
  }

  /**
   * A lead name starts with its prefix, has the industry with only its first
   * character changed, and ends in `#` and a number from 1 to 50 that reads
   * back from its digits.
   */
  lemma LeadNameShape(industria: string, index: nat, r: real)
    requires IsRandom(r) && industria != []
    ensures var name := LeadName(industria, index, r);
      var tail := NatToString(NameNumber(r));
      var shown := UpperFirst(industria);
      && name[..|PrefixOf(index)| + 1] == PrefixOf(index) + " "
      && name[|PrefixOf(index)| + 1..][..|shown|] == shown
      && shown[|shown| - |industria| + 1..] == industria[1..]
      && name[|name| - |tail| - 1..] == "#" + tail
      && 1 <= DecimalValue(tail) <= 50
  {
    var tail := NatToString(NameNumber(r));
    NameParts(PrefixOf(index), UpperFirst(industria), SuffixOf(index), tail);
    DecimalRoundTrip(NameNumber(r));
  }

  /** Where the parts of `prefix industry suffix #number` sit. */
  lemma NameParts(prefix: string, shown: string, suffix: string, tail: string)
    ensures var name := prefix + " " + shown + " " + suffix + " #" + tail;
      && name[..|prefix| + 1] == prefix + " "
      && name[|prefix| + 1..][..|shown|] == shown
      && name[|name| - |tail| - 1..] == "#" + tail
  {
    var name := prefix + " " + shown + " " + suffix + " #" + tail;
    var rest := shown + " " + suffix + " #" + tail;
    assert name == prefix + " " + rest;
    assert name[|prefix| + 1..] == rest;
    assert name == (prefix + " " + shown + " " + suffix + " ") + ("#" + tail);
  }

  /** The first eighty leads get eighty different prefix and suffix pairs. */
  lemma NameComboDistinct(i: nat, j: nat)
    requires i < 80 && j < 80 && i != j
    ensures (i % 10, (i / 10) % 8) != (j % 10, (j / 10) % 8)
  {
  }

  /** Adding `k` tens keeps the last decimal digit and adds `k` to the tens. */
  lemma {:induction false} AddTens(n: nat, k: nat)
    ensures (n + 10 * k) % 10 == n % 10 && (n + 10 * k) / 10 == n / 10 + k
  {
    if k > 0 {
      AddTens(n, k - 1);
      var m := n + 10 * (k - 1);
      assert n + 10 * k == m + 10;
    }
  }

  /** Lead `index + 80` gets the same prefix and suffix as lead `index`. */
  lemma NameComboPeriod(index: nat)
    ensures PrefixOf(index + 80) == PrefixOf(index) && SuffixOf(index + 80) == SuffixOf(index)
  {
    AddTens(index, 8);
    var q := index / 10;
    assert (q + 8) % 8 == q % 8;
  }

  /** `generateAddress` with its two draws: the house number, then the street. */
  function Address(rNumber: real, rStreet: real): string
    requires IsRandom(rNumber) && IsRandom(rStreet)
  {
    Streets[FloorScaled(rStreet, |Streets|)] + " " + NatToString(HouseNumber(rNumber)) + ", Col. Centro"
  }

  /** The house number: a random integer from 100 to 5099. */
  function HouseNumber(r: real): (n: nat)
    requires IsRandom(r)
    ensures 100 <= n <= 5099
  {
    FloorScaled(r, 5000) + 100
  }

  /** The id of lead `i` made at clock reading `now`. */
  function LeadId(now: nat, i: nat): string
  {
    "lead-" + NatToString(now) + "-" + NatToString(i)
  }

  /** How many decimal digits `s` ends with. */
  function TrailingDigits(s: string): nat
  {
    if s == [] || !IsDigit(s[|s| - 1]) then 0 else 1 + TrailingDigits(s[..|s| - 1])
  }

  /** Text ending in `-` and then digits ends in exactly those digits. */
  lemma {:induction false} TrailingDigitsAfterDash(w: string, x: string)
    requires forall k :: 0 <= k < |x| ==> IsDigit(x[k])
    ensures TrailingDigits(w + "-" + x) == |x|
  {
    if x != [] {
      var x' := x[..|x| - 1];
      assert (w + "-" + x)[..|w + "-" + x| - 1] == w + "-" + x';
      TrailingDigitsAfterDash(w, x');
    }
  }

  /** Two ids that end in `-` and the decimal text of their indices are equal only for equal indices. */
  lemma DashSuffixInjective(a: string, b: string, i: nat, j: nat)
    requires a + "-" + NatToString(i) == b + "-" + NatToString(j)
    ensures i == j
  {
    var x := NatToString(i);
    var y := NatToString(j);
    TrailingDigitsAfterDash(a, x);
    TrailingDigitsAfterDash(b, y);
    var u := a + "-" + x;
    assert u[|u| - |x|..] == x;
    assert (b + "-" + y)[|u| - |y|..] == y;
    NatToStringInjective(i, j);
  }

  /** Ids made for different loop indices differ, whatever the clock read. */
  lemma LeadIdsDistinct(now1: nat, now2: nat, i: nat, j: nat)
    requires i != j
    ensures LeadId(now1, i) != LeadId(now2, j)
  {
    if LeadId(now1, i) == LeadId(now2, j) {
      DashSuffixInjective("lead-" + NatToString(now1), "lead-" + NatToString(now2), i, j);
    }
  }

  // ---------------------------------------------------------------------------
  // generateLeads
  // ---------------------------------------------------------------------------

  /** How many `Math.random()` values one lead consumes. */
  const DrawsPerLead := 7

  predicate RandomOracle(rand: seq<real>)
  {
    forall k :: 0 <= k < |rand| ==> IsRandom(rand[k])
  }

  /**
   * Lead `i` of the loop: draws `7i` and `7i+1` are the angle and the
   * distance of the random point, then the score, the state, the name number,
   * the house number and the street.
   */
  function MakeLead(i: nat, industria: string, rand: seq<real>, now: nat): (lead: Lead)
    requires RandomOracle(rand) && |rand| >= DrawsPerLead * (i + 1)
    ensures 0 <= lead.score < 100 && lead.industria == industria
  {
    var b := DrawsPerLead * i;
    Lead(
      LeadId(now, i),
      LeadName(industria, i, rand[b + 4]),
      industria,
      Address(rand[b + 5], rand[b + 6]),
      FloorScaled(rand[b + 2], 100),
      Estados[FloorScaled(rand[b + 3], |Estados|)])
  }

  /** The leads pushed by the first `n` turns of the loop, in push order. */
  function Pushed(n: nat, industria: string, rand: seq<real>, clock: seq<nat>): (leads: seq<Lead>)
    requires RandomOracle(rand) && |rand| >= DrawsPerLead * n && |clock| >= n
    ensures |leads| == n
  {
    if n == 0 then []
    else Pushed(n - 1, industria, rand, clock) + [MakeLead(n - 1, industria, rand, clock[n - 1])]
  }

  /** Every pushed lead is lead `k` of the loop. */
  lemma {:induction false} PushedAt(n: nat, industria: string, rand: seq<real>, clock: seq<nat>, k: nat)
    requires RandomOracle(rand) && |rand| >= DrawsPerLead * n && |clock| >= n && k < n
    ensures Pushed(n, industria, rand, clock)[k] == MakeLead(k, industria, rand, clock[k])
  {
    var prev := Pushed(n - 1, industria, rand, clock);
    var last := MakeLead(n - 1, industria, rand, clock[n - 1]);
    assert Pushed(n, industria, rand, clock) == prev + [last];
    if k < n - 1 {
      PushedAt(n - 1, industria, rand, clock, k);
      assert (prev + [last])[k] == prev[k];
    }
  }

  /** No two leads share an id. */
  predicate DistinctIds(leads: seq<Lead>)
  {
    forall p, q :: 0 <= p < q < |leads| ==> leads[p].id != leads[q].id
  }

  /** Non-increasing score. */
  predicate ScoreOrdered(leads: seq<Lead>)
  {
    forall p, q :: 0 <= p < q < |leads| ==> leads[p].score >= leads[q].score
  }

  /** The pushed leads have pairwise distinct ids, because each ends in its own index. */
  lemma PushedDistinct(n: nat, industria: string, rand: seq<real>, clock: seq<nat>)
    requires RandomOracle(rand) && |rand| >= DrawsPerLead * n && |clock| >= n
    ensures DistinctIds(Pushed(n, industria, rand, clock))
  {
    var leads := Pushed(n, industria, rand, clock);
    forall p, q | 0 <= p < q < n ensures leads[p].id != leads[q].id {
      PushedAt(n, industria, rand, clock, p);
      PushedAt(n, industria, rand, clock, q);
      LeadIdsDistinct(clock[p], clock[q], p, q);
    }
  }

  // ---------------------------------------------------------------------------
  // The sort: `leads.sort((a, b) => b.score - a.score)`, which is stable
  // ---------------------------------------------------------------------------

  /** Insert `x` after every lead whose score is at least its own. */
  function Insert(x: Lead, sorted: seq<Lead>): seq<Lead>
  {
    if sorted == [] then [x]
    else if sorted[0].score >= x.score then [sorted[0]] + Insert(x, sorted[1..])
    else [x] + sorted
  }

  /** Stable sort by descending score: each lead goes after the earlier ones with a score at least its own. */
  function SortByScore(leads: seq<Lead>): seq<Lead>
  {
    if leads == [] then []
    else Insert(leads[|leads| - 1], SortByScore(leads[..|leads| - 1]))
  }

  /** Inserting into an ordered list keeps it ordered. */
  lemma {:induction false} InsertOrdered(x: Lead, sorted: seq<Lead>)
    requires ScoreOrdered(sorted)
    ensures ScoreOrdered(Insert(x, sorted))
  {
    if sorted != [] && sorted[0].score >= x.score {
      var tail := sorted[1..];
      InsertOrdered(x, tail);
      InsertBounded(x, tail, sorted[0].score);
      ConsOrdered(sorted[0], Insert(x, tail));
    }
  }

  /** Inserting adds exactly the one lead. */
  lemma {:induction false} InsertMultiset(x: Lead, sorted: seq<Lead>)
    ensures multiset(Insert(x, sorted)) == multiset(sorted) + multiset{x}
  {
    if sorted != [] && sorted[0].score >= x.score {
      var tail := sorted[1..];
      InsertMultiset(x, tail);
      assert sorted == [sorted[0]] + tail;
      assert Insert(x, sorted) == [sorted[0]] + Insert(x, tail);
      assert multiset([sorted[0]] + Insert(x, tail)) == multiset{sorted[0]} + multiset(Insert(x, tail));
      assert multiset(sorted) == multiset{sorted[0]} + multiset(tail);
    } else if sorted != [] {
      assert Insert(x, sorted) == [x] + sorted;
    }
  }

  /** Every score in `leads` is at most `bound`. */
  predicate Bounded(leads: seq<Lead>, bound: int)
  {
    forall k :: 0 <= k < |leads| ==> leads[k].score <= bound
  }

  /** Inserting below a bound keeps every score below it. */
  lemma {:induction false} InsertBounded(x: Lead, sorted: seq<Lead>, bound: int)
    requires ScoreOrdered(sorted) && x.score <= bound
    requires forall k :: 0 <= k < |sorted| ==> sorted[k].score <= bound
    ensures Bounded(Insert(x, sorted), bound)
  {
    if sorted != [] && sorted[0].score >= x.score {
      InsertBounded(x, sorted[1..], bound);
    }
  }

  /** A lead with a score at least every other keeps an ordered list ordered at its head. */
  lemma ConsOrdered(h: Lead, r: seq<Lead>)
    requires ScoreOrdered(r) && Bounded(r, h.score)
    ensures ScoreOrdered([h] + r)
  {
    forall p, q | 0 <= p < q < |r| + 1 ensures ([h] + r)[p].score >= ([h] + r)[q].score {
      if p > 0 {
        assert ([h] + r)[p] == r[p - 1];
      }
      assert ([h] + r)[q] == r[q - 1];
    }
  }

  /** The sort yields the same leads, ordered by non-increasing score. */
  lemma {:induction false} SortByScoreCorrect(leads: seq<Lead>)
    ensures ScoreOrdered(SortByScore(leads))
    ensures multiset(SortByScore(leads)) == multiset(leads)
    ensures |SortByScore(leads)| == |leads|
  {
    if leads != [] {
      var init := leads[..|leads| - 1];
      SortByScoreCorrect(init);
      InsertOrdered(leads[|leads| - 1], SortByScore(init));
      InsertMultiset(leads[|leads| - 1], SortByScore(init));
      assert leads == init + [leads[|leads| - 1]];
    }
  }

  /** Rearranging leads keeps their ids distinct. */
  lemma PermutationKeepsDistinctIds(a: seq<Lead>, b: seq<Lead>)
    requires multiset(a) == multiset(b) && DistinctIds(a)
    ensures DistinctIds(b)
  {
    forall p, q | 0 <= p < q < |b| ensures b[p].id != b[q].id {
      if b[p].id == b[q].id {
        assert b[p] in multiset(a) && b[q] in multiset(a);
        var p' :| 0 <= p' < |a| && a[p'] == b[p];
        var q' :| 0 <= q' < |a| && a[q'] == b[q];
        if p' == q' {
          TwoPositions(b, p, q);
          SinglePosition(a, p');
        }
      }
    }
  }

  /** Two positions holding the same value give it a multiplicity of at least two. */
  lemma TwoPositions<T>(s: seq<T>, p: int, q: int)
    requires 0 <= p < q < |s| && s[p] == s[q]
    ensures multiset(s)[s[p]] >= 2
  {
    assert s == s[..p] + [s[p]] + s[p + 1..q] + [s[q]] + s[q + 1..];
  }

  /** In a sequence with distinct ids, a lead occurs once. */
  lemma SinglePosition(a: seq<Lead>, p: int)
    requires 0 <= p < |a| && DistinctIds(a)
    ensures multiset(a)[a[p]] == 1
  {
    var x := a[p];
    assert a == a[..p] + [x] + a[p + 1..];
    forall k | 0 <= k < p ensures a[..p][k] != x {
      assert a[k].id != a[p].id;
    }
    forall k | p + 1 <= k < |a| ensures a[k] != x {
      assert a[p].id != a[k].id;
    }
    assert x !in a[p + 1..];
    assert multiset(a[..p])[x] == 0 && multiset(a[p + 1..])[x] == 0;
  }

  /**
   * `generateLeads(center, radiusKm, count, industria)`: push `count` leads,
   * then sort them by descending score.
   */
  method GenerateLeadList(count: nat, industria: string, rand: seq<real>, clock: seq<nat>) returns (leads: seq<Lead>)
    requires RandomOracle(rand) && |rand| >= DrawsPerLead * count && |clock| >= count
    ensures leads == SortByScore(Pushed(count, industria, rand, clock))
    ensures |leads| == count
    ensures ScoreOrdered(leads)
    ensures multiset(leads) == multiset(Pushed(count, industria, rand, clock))
    ensures FieldsInRange(leads, industria)
    ensures DistinctIds(leads)
  {
    var pushed: seq<Lead> := [];
    for i := 0 to count
      invariant pushed == Pushed(i, industria, rand, clock)
    {
      var lead := MakeLead(i, industria, rand, clock[i]);
      pushed := pushed + [lead];
    }
    leads := SortByScore(pushed);
    SortByScoreCorrect(pushed);
    PushedDistinct(count, industria, rand, clock);
    PermutationKeepsDistinctIds(pushed, leads);
    PushedFields(count, industria, rand, clock);
    PermutationKeepsFields(pushed, leads, industria);
  }

  /** Every score lies in 0..99 and every industry is the one asked for. */
  predicate FieldsInRange(leads: seq<Lead>, industria: string)
  {
    forall k :: 0 <= k < |leads| ==> 0 <= leads[k].score < 100 && leads[k].industria == industria
  }

  lemma PushedFields(n: nat, industria: string, rand: seq<real>, clock: seq<nat>)
    requires RandomOracle(rand) && |rand| >= DrawsPerLead * n && |clock| >= n
    ensures FieldsInRange(Pushed(n, industria, rand, clock), industria)
  {
    var leads := Pushed(n, industria, rand, clock);
    forall k | 0 <= k < n ensures 0 <= leads[k].score < 100 && leads[k].industria == industria {
      PushedAt(n, industria, rand, clock, k);
    }
  }

  /** Rearranging leads keeps the field ranges. */
  lemma PermutationKeepsFields(a: seq<Lead>, b: seq<Lead>, industria: string)
    requires multiset(a) == multiset(b) && FieldsInRange(a, industria)
    ensures FieldsInRange(b, industria)
  {
    forall k | 0 <= k < |b| ensures 0 <= b[k].score < 100 && b[k].industria == industria {
      assert b[k] in multiset(a);
      var p :| 0 <= p < |a| && a[p] == b[k];
    }
  }

  // ---------------------------------------------------------------------------
  // geocodeLocation
  // ---------------------------------------------------------------------------

  datatype Coord = Coord(lat: real, lng: real)

  const MonterreyCoord := Coord(25.6866, -100.3161)

  /** `mockLocations`, in the order its keys are listed. */
  const Places: seq<(string, Coord)> := [
    ("monterrey", MonterreyCoord),
    ("monterrey, nuevo le\U{00F3}n", MonterreyCoord),
    ("santa catarina", Coord(25.6736, -100.4583)),
    ("san pedro garza garc\U{00ED}a", Coord(25.6667, -100.4000)),
    ("guadalajara", Coord(20.6597, -103.3496)),
    ("ciudad de m\U{00E9}xico", Coord(19.4326, -99.1332)),
    ("m\U{00E9}xico df", Coord(19.4326, -99.1332))
  ]

  /** `location.toLowerCase().trim()`. */
  function Normalize(location: string): string
  {
    Trim(ToLower(location))
  }

  /** A key matches when either of it and the normalized input contains the other. */
  predicate KeyMatches(normalized: string, key: string)
  {
    Contains(normalized, key) || Contains(key, normalized)
  }

  /** The coordinates of the first matching entry of `table`, or Monterrey when none matches. */
  function FirstMatch(table: seq<(string, Coord)>, normalized: string): Coord
  {
    if table == [] then MonterreyCoord
    else if KeyMatches(normalized, table[0].0) then table[0].1
    else FirstMatch(table[1..], normalized)
  }

  /** The first match is the entry at the lowest matching index. */
  lemma {:induction false} FirstMatchAt(table: seq<(string, Coord)>, normalized: string, k: nat)
    requires k < |table| && KeyMatches(normalized, table[k].0)
    requires forall j :: 0 <= j < k ==> !KeyMatches(normalized, table[j].0)
    ensures FirstMatch(table, normalized) == table[k].1
  {
    if k > 0 {
      assert !KeyMatches(normalized, table[0].0);
      var rest := table[1..];
      forall j | 0 <= j < k - 1 ensures !KeyMatches(normalized, rest[j].0) {
        assert rest[j] == table[j + 1];
      }
      FirstMatchAt(rest, normalized, k - 1);
    }
  }

  /** When no key matches, the answer is the Monterrey default. */
  lemma {:induction false} NoMatchIsMonterrey(table: seq<(string, Coord)>, normalized: string)
    requires forall k :: 0 <= k < |table| ==> !KeyMatches(normalized, table[k].0)
    ensures FirstMatch(table, normalized) == MonterreyCoord
  {
    if table != [] {
      var rest := table[1..];
      assert !KeyMatches(normalized, table[0].0);
      forall j | 0 <= j < |rest| ensures !KeyMatches(normalized, rest[j].0) {
        assert rest[j] == table[j + 1];
      }
      NoMatchIsMonterrey(rest, normalized);
    }
  }

  /**
   * `geocodeLocation(location)`: scan the table in order and return the first
   * entry whose key contains the normalized input or is contained in it; the
   * Monterrey coordinates when none does. It never returns null.
   */
  method GeocodeLocation(location: string) returns (coords: Coord)
    ensures coords == FirstMatch(Places, Normalize(location))
  {
    var normalized := Normalize(location);
    var i := 0;
    while i < |Places|
      invariant 0 <= i <= |Places|
      invariant FirstMatch(Places, normalized) == FirstMatch(Places[i..], normalized)
    {
      var (key, c) := Places[i];
      assert Places[i..][1..] == Places[i + 1..];
      if Contains(normalized, key) || Contains(key, normalized) {
        return c;
      }
      i := i + 1;
    }
    coords := MonterreyCoord;
  }

  /** Lower-casing keeps whitespace, so an input of whitespace only normalizes to "". */
  lemma BlankNormalizesEmpty(location: string)
    requires AllTrimmable(location)
    ensures Normalize(location) == ""
  {
    var lowered := ToLower(location);
    assert AllTrimmable(lowered) by {
      forall k | 0 <= k < |lowered| ensures IsTrimmable(lowered[k]) {
        assert IsTrimmable(location[k]);
      }
    }
    TrimEmptyIff(lowered);
  }

  /** A blank location resolves to the first key, `monterrey`, since every key contains "". */
  lemma BlankLocationIsMonterrey(location: string)
    requires AllTrimmable(location)
    ensures FirstMatch(Places, Normalize(location)) == MonterreyCoord
  {
    BlankNormalizesEmpty(location);
    ContainsEmpty(Places[0].0);
    assert KeyMatches("", Places[0].0);
  }

  /** Whatever the input, the answer is one of the table's coordinates. */
  lemma {:induction false} FirstMatchInTable(table: seq<(string, Coord)>, normalized: string)
    ensures FirstMatch(table, normalized) == MonterreyCoord
            || exists k :: 0 <= k < |table| && FirstMatch(table, normalized) == table[k].1
  {
    if table != [] && !KeyMatches(normalized, table[0].0) {
      FirstMatchInTable(table[1..], normalized);
      if FirstMatch(table, normalized) != MonterreyCoord {
        var k :| 0 <= k < |table[1..]| && FirstMatch(table[1..], normalized) == table[1..][k].1;
        assert table[k + 1].1 == table[1..][k].1;
      }
    }
  }
}
