/**
 * Branch statistics computed on the client from the fetched list.
 */
module BranchesApi {
  import opened Common
  import opened Entities
  import opened ApiClient

  datatype BranchStats = BranchStats(
    totalBranches: nat,
    activeBranches: nat,
    branchesByCountry: map<string, nat>,
    branchesByCity: map<string, nat>)

  function Countries(branches: seq<Branch>): (r: seq<string>)
    ensures |r| == |branches|
    ensures forall i :: 0 <= i < |branches| ==> r[i] == branches[i].country
  {
    seq(|branches|, i requires 0 <= i < |branches| => branches[i].country)
  }

  function Cities(branches: seq<Branch>): (r: seq<string>)
    ensures |r| == |branches|
    ensures forall i :: 0 <= i < |branches| ==> r[i] == branches[i].city
  {
    seq(|branches|, i requires 0 <= i < |branches| => branches[i].city)
  }

  /** How many times `k` occurs in `keys`. */
  function Occurrences(keys: seq<string>, k: string): nat
  {
    if keys == [] then 0
    else Occurrences(keys[..|keys| - 1], k) + (if keys[|keys| - 1] == k then 1 else 0)
  }

  /** The dictionary `d[k] = (d[k] || 0) + 1` builds when run over `keys` in order. */
  function Tally(keys: seq<string>): map<string, nat>
  {
    if keys == [] then map[]
    else
      var d := Tally(keys[..|keys| - 1]);
      var k := keys[|keys| - 1];
      d[k := (if k in d then d[k] else 0) + 1]
  }

  /** A key is present exactly when it occurs, and its count is its number of occurrences, at least 1. */
  lemma {:induction false} TallyCounts(keys: seq<string>, k: string)
    ensures k in Tally(keys) <==> k in keys
    ensures k in Tally(keys) ==> Tally(keys)[k] == Occurrences(keys, k) && Tally(keys)[k] >= 1
  {
    if keys != [] {
      var prefix := keys[..|keys| - 1];
      TallyCounts(prefix, k);
      assert keys == prefix + [keys[|keys| - 1]];
      if k !in Tally(prefix) {
        OccurrencesAbsent(prefix, k);
      }
    }
  }

  lemma {:induction false} OccurrencesAbsent(keys: seq<string>, k: string)
    requires k !in keys
    ensures Occurrences(keys, k) == 0
  {
    if keys != [] {
      OccurrencesAbsent(keys[..|keys| - 1], k);
    }
  }

  /** The sum of the counts of a dictionary. */
  ghost function Total(d: map<string, nat>): nat
    decreases |d.Keys|
  {
    if d == map[] then 0
    else
      var k :| k in d;
      d[k] + Total(d - {k})
  }

  /** The sum does not depend on which key is taken out first. */
  lemma {:induction false} TotalWithout(d: map<string, nat>, k: string)
    requires k in d
    ensures Total(d) == d[k] + Total(d - {k})
    decreases |d.Keys|
  {
    var j :| j in d && Total(d) == d[j] + Total(d - {j});
    if j != k {
      TotalWithout(d - {j}, k);
      TotalWithout(d - {k}, j);
      assert d - {j} - {k} == d - {k} - {j};
    }
  }

  /** Counting one more key adds one to the sum. */
  lemma TotalIncrement(d: map<string, nat>, k: string)
    ensures Total(d[k := (if k in d then d[k] else 0) + 1]) == Total(d) + 1
  {
    var e := d[k := (if k in d then d[k] else 0) + 1];
    TotalWithout(e, k);
    assert e - {k} == d - {k};
    if k in d {
      TotalWithout(d, k);
    } else {
      assert d - {k} == d;
    }
  }

  /** The counts of a tally add up to the number of keys counted. */
  lemma {:induction false} TallyTotal(keys: seq<string>)
    ensures Total(Tally(keys)) == |keys|
  {
    if keys != [] {
      TallyTotal(keys[..|keys| - 1]);
      TotalIncrement(Tally(keys[..|keys| - 1]), keys[|keys| - 1]);
    }
  }

  /** Counting the key at `i` extends the tally of the keys before it. */
  lemma TallyStep(keys: seq<string>, i: int)
    requires 0 <= i < |keys|
    ensures Tally(keys[..i + 1]) ==
      Tally(keys[..i])[keys[i] := (if keys[i] in Tally(keys[..i]) then Tally(keys[..i])[keys[i]] else 0) + 1]
  {
    assert keys[..i + 1][..i] == keys[..i];
  }

  /** `getBranchStats`: one pass over the branches, counting countries and cities. */
  method GetBranchStats(branches: seq<Branch>) returns (stats: BranchStats)
    ensures stats.totalBranches == |branches| && stats.activeBranches == stats.totalBranches
    ensures stats.branchesByCountry == Tally(Countries(branches))
    ensures stats.branchesByCity == Tally(Cities(branches))
  {
    var countries, cities := Countries(branches), Cities(branches);
    var byCountry: map<string, nat> := map[];
    var byCity: map<string, nat> := map[];
    var i := 0;
    while i < |branches|
      invariant 0 <= i <= |branches|
      invariant byCountry == Tally(countries[..i])
      invariant byCity == Tally(cities[..i])
    {
      var b := branches[i];
      TallyStep(countries, i);
      TallyStep(cities, i);
      byCountry := byCountry[b.country := (if b.country in byCountry then byCountry[b.country] else 0) + 1];
      byCity := byCity[b.city := (if b.city in byCity then byCity[b.city] else 0) + 1];
      i := i + 1;
    }
    assert countries[..i] == countries;
    assert cities[..i] == cities;
    stats := BranchStats(|branches|, |branches|, byCountry, byCity);
  }

  /** Each dictionary counts every branch once: its counts sum to the total. */
  lemma StatsSumToTotal(branches: seq<Branch>)
    ensures Total(Tally(Countries(branches))) == |branches|
    ensures Total(Tally(Cities(branches))) == |branches|
  {
    TallyTotal(Countries(branches));
    TallyTotal(Cities(branches));
  }

  /** A country is a key exactly when some branch is in it, and its count is the number of such branches. */
  lemma StatsPerCountry(branches: seq<Branch>, country: string)
    ensures country in Tally(Countries(branches)) <==> exists i :: 0 <= i < |branches| && branches[i].country == country
    ensures country in Tally(Countries(branches)) ==>
              Tally(Countries(branches))[country] == Occurrences(Countries(branches), country) >= 1
  {
    TallyCounts(Countries(branches), country);
    if country in Countries(branches) {
      var i :| 0 <= i < |branches| && Countries(branches)[i] == country;
    }
  }

  /** The same for cities. */
  lemma StatsPerCity(branches: seq<Branch>, city: string)
    ensures city in Tally(Cities(branches)) <==> exists i :: 0 <= i < |branches| && branches[i].city == city
    ensures city in Tally(Cities(branches)) ==>
              Tally(Cities(branches))[city] == Occurrences(Cities(branches), city) >= 1
  {
    TallyCounts(Cities(branches), city);
    if city in Cities(branches) {
      var i :| 0 <= i < |branches| && Cities(branches)[i] == city;
    }
  }
}
