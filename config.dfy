/** The league-phase format as one immutable record, its coherence check and
    the arithmetic derived from it. A Python dict is kept as its ordered list
    of (key, value) entries; `get(k, 0)` reads the entry for `k`. */
module LeagueConfig {
  import opened Wrappers

  datatype Config = Config(
    matchesPerClub: int,
    journees: int,
    homeMatchesPerClub: int,
    awayMatchesPerClub: int,
    totalClubs: int,
    clubsPerChapeau: seq<(int, int)>,
    opponentsPerChapeau: seq<(int, int)>,
    distributionChapeaux: seq<(int, (int, int))>,
    maxSameCountryOpponents: int,
    maxOpponentsPerForeignCountry: int,
    maxConsecutiveHome: int,
    maxConsecutiveAway: int)

  /** The format the source ships: 36 clubs in four pots of nine, eight
      rounds, two opponents per pot split one at home and one away. */
  function Shipped(): Config
  {
    Config(
      matchesPerClub := 8,
      journees := 8,
      homeMatchesPerClub := 4,
      awayMatchesPerClub := 4,
      totalClubs := 36,
      clubsPerChapeau := [(1, 9), (2, 9), (3, 9), (4, 9)],
      opponentsPerChapeau := [(1, 2), (2, 2), (3, 2), (4, 2)],
      distributionChapeaux := [(1, (1, 1)), (2, (1, 1)), (3, (1, 1)), (4, (1, 1))],
      maxSameCountryOpponents := 0,
      maxOpponentsPerForeignCountry := 2,
      maxConsecutiveHome := 2,
      maxConsecutiveAway := 2)
  }

  /** `d.get(k, dflt)` on a dict given by its entries. */
  function Get(entries: seq<(int, int)>, k: int, dflt: int): (v: int)
    ensures k !in Keys(entries) ==> v == dflt
    ensures k in Keys(entries) ==> (k, v) in entries
    ensures k in Keys(entries) ==>
              exists i :: 0 <= i < |entries| && entries[i] == (k, v) && forall j :: 0 <= j < i ==> entries[j].0 != k
  {
    if entries == [] then dflt
    else if entries[0].0 == k then entries[0].1
    else
      assert Keys(entries) == {entries[0].0} + Keys(entries[1..]) by {
        forall x | x in Keys(entries) ensures x in {entries[0].0} + Keys(entries[1..]) {
          var i :| 0 <= i < |entries| && entries[i].0 == x;
          if i > 0 { assert entries[1..][i - 1].0 == x; }
        }
      }
      var v := Get(entries[1..], k, dflt);
      assert k in Keys(entries) ==> exists i :: 0 <= i < |entries| && entries[i] == (k, v) && forall j :: 0 <= j < i ==> entries[j].0 != k by {
        if k in Keys(entries) {
          var i :| 0 <= i < |entries[1..]| && entries[1..][i] == (k, v) && forall j :: 0 <= j < i ==> entries[1..][j].0 != k;
          assert entries[i + 1] == (k, v);
          forall j | 0 <= j < i + 1 ensures entries[j].0 != k {
            if j > 0 { assert entries[j] == entries[1..][j - 1]; }
          }
        }
      }
      v
  }

  function Keys<V>(entries: seq<(int, V)>): set<int>
  {
    set i | 0 <= i < |entries| :: entries[i].0
  }

  /** `sum(d.values())`. */
  function SumValues(entries: seq<(int, int)>): int
  {
    if entries == [] then 0 else SumValues(entries[..|entries| - 1]) + entries[|entries| - 1].1
  }

  function SumHome(dist: seq<(int, (int, int))>): int
  {
    if dist == [] then 0 else SumHome(dist[..|dist| - 1]) + dist[|dist| - 1].1.0
  }

  function SumAway(dist: seq<(int, (int, int))>): int
  {
    if dist == [] then 0 else SumAway(dist[..|dist| - 1]) + dist[|dist| - 1].1.1
  }

  /** `get_expected_total_matches`: half the club-match incidences, rounded
      down (`//` and Dafny's `/` agree for a positive divisor). */
  function ExpectedTotalMatches(cfg: Config): (n: int)
    ensures 2 * n <= cfg.totalClubs * cfg.matchesPerClub < 2 * n + 2
  {
    (cfg.totalClubs * cfg.matchesPerClub) / 2
  }

  /** `get_clubs_from_chapeau`: the configured number of clubs in the pot, or 0. */
  function ClubsFromChapeau(cfg: Config, chapeau: int): (n: int)
    ensures chapeau !in Keys(cfg.clubsPerChapeau) ==> n == 0
    ensures chapeau in Keys(cfg.clubsPerChapeau) ==> (chapeau, n) in cfg.clubsPerChapeau
  {
    Get(cfg.clubsPerChapeau, chapeau, 0)
  }

  /** `get_opponents_from_chapeau`: the configured number of opponents from the pot, or 0. */
  function OpponentsFromChapeau(cfg: Config, chapeau: int): (n: int)
    ensures chapeau !in Keys(cfg.opponentsPerChapeau) ==> n == 0
    ensures chapeau in Keys(cfg.opponentsPerChapeau) ==> (chapeau, n) in cfg.opponentsPerChapeau
  {
    Get(cfg.opponentsPerChapeau, chapeau, 0)
  }

  // The checks of `validate_config`, in the order it makes them.

  predicate ClubTotalOk(cfg: Config) { SumValues(cfg.clubsPerChapeau) == cfg.totalClubs }

  predicate PotKeysOk(cfg: Config)
  {
    Keys(cfg.clubsPerChapeau) == Keys(cfg.opponentsPerChapeau) == Keys(cfg.distributionChapeaux)
  }

  predicate OpponentTotalOk(cfg: Config) { SumValues(cfg.opponentsPerChapeau) == cfg.matchesPerClub }

  predicate HomeAwayTotalOk(cfg: Config)
  {
    cfg.homeMatchesPerClub + cfg.awayMatchesPerClub == cfg.matchesPerClub
  }

  /** Entry `i` of the home/away split adds up to that pot's opponent count. */
  predicate PotSplitOk(cfg: Config, i: int)
    requires 0 <= i < |cfg.distributionChapeaux|
  {
    var (chapeau, split) := cfg.distributionChapeaux[i];
    split.0 + split.1 == Get(cfg.opponentsPerChapeau, chapeau, 0)
  }

  predicate PotSplitsOk(cfg: Config)
  {
    forall i :: 0 <= i < |cfg.distributionChapeaux| ==> PotSplitOk(cfg, i)
  }

  predicate SplitTotalsOk(cfg: Config)
  {
    SumHome(cfg.distributionChapeaux) == cfg.homeMatchesPerClub
    && SumAway(cfg.distributionChapeaux) == cfg.awayMatchesPerClub
  }

  predicate EvenProductOk(cfg: Config) { (cfg.totalClubs * cfg.matchesPerClub) % 2 == 0 }

  predicate Coherent(cfg: Config)
  {
    ClubTotalOk(cfg) && PotKeysOk(cfg) && OpponentTotalOk(cfg) && HomeAwayTotalOk(cfg)
    && PotSplitsOk(cfg) && SplitTotalsOk(cfg) && EvenProductOk(cfg)
  }

  datatype ConfigError =
    | ClubTotalMismatch(total: int, expected: int)
    | PotKeysMismatch
    | OpponentTotalMismatch(total: int, expected: int)
    | HomeAwayTotalMismatch(home: int, away: int, expected: int)
    | PotSplitMismatch(chapeau: int, home: int, away: int, expected: int)
    | SplitTotalsMismatch(totalHome: int, totalAway: int)
    | OddMatchProduct(product: int)

  /** `validate_config`: passes exactly on a coherent configuration, and
      otherwise reports the first check that fails, in the source's order. */
  method ValidateConfig(cfg: Config) returns (r: Outcome<ConfigError>)
    ensures r.Pass? <==> Coherent(cfg)
    ensures !ClubTotalOk(cfg) ==>
              r == Fail(ClubTotalMismatch(SumValues(cfg.clubsPerChapeau), cfg.totalClubs))
    ensures ClubTotalOk(cfg) && !PotKeysOk(cfg) ==> r == Fail(PotKeysMismatch)
    ensures ClubTotalOk(cfg) && PotKeysOk(cfg) && !OpponentTotalOk(cfg) ==>
              r == Fail(OpponentTotalMismatch(SumValues(cfg.opponentsPerChapeau), cfg.matchesPerClub))
    ensures ClubTotalOk(cfg) && PotKeysOk(cfg) && OpponentTotalOk(cfg) && !HomeAwayTotalOk(cfg) ==>
              r == Fail(HomeAwayTotalMismatch(cfg.homeMatchesPerClub, cfg.awayMatchesPerClub, cfg.matchesPerClub))
    ensures ClubTotalOk(cfg) && PotKeysOk(cfg) && OpponentTotalOk(cfg) && HomeAwayTotalOk(cfg)
            && !PotSplitsOk(cfg) ==>
              exists i :: 0 <= i < |cfg.distributionChapeaux| && !PotSplitOk(cfg, i)
                          && (forall j :: 0 <= j < i ==> PotSplitOk(cfg, j))
                          && r == Fail(PotSplitMismatch(cfg.distributionChapeaux[i].0,
                                                        cfg.distributionChapeaux[i].1.0,
                                                        cfg.distributionChapeaux[i].1.1,
                                                        Get(cfg.opponentsPerChapeau, cfg.distributionChapeaux[i].0, 0)))
    ensures ClubTotalOk(cfg) && PotKeysOk(cfg) && OpponentTotalOk(cfg) && HomeAwayTotalOk(cfg)
            && PotSplitsOk(cfg) && !SplitTotalsOk(cfg) ==>
              r == Fail(SplitTotalsMismatch(SumHome(cfg.distributionChapeaux), SumAway(cfg.distributionChapeaux)))
    ensures ClubTotalOk(cfg) && PotKeysOk(cfg) && OpponentTotalOk(cfg) && HomeAwayTotalOk(cfg)
            && PotSplitsOk(cfg) && SplitTotalsOk(cfg) && !EvenProductOk(cfg) ==>
              r == Fail(OddMatchProduct(cfg.totalClubs * cfg.matchesPerClub))
  {
    if !ClubTotalOk(cfg) {
      return Fail(ClubTotalMismatch(SumValues(cfg.clubsPerChapeau), cfg.totalClubs));
    }
    if !PotKeysOk(cfg) {
      return Fail(PotKeysMismatch);
    }
    if !OpponentTotalOk(cfg) {
      return Fail(OpponentTotalMismatch(SumValues(cfg.opponentsPerChapeau), cfg.matchesPerClub));
    }
    if !HomeAwayTotalOk(cfg) {
      return Fail(HomeAwayTotalMismatch(cfg.homeMatchesPerClub, cfg.awayMatchesPerClub, cfg.matchesPerClub));
    }
    var dist := cfg.distributionChapeaux;
    var totalHome, totalAway := 0, 0;
    for i := 0 to |dist|
      invariant totalHome == SumHome(dist[..i]) && totalAway == SumAway(dist[..i])
      invariant forall j :: 0 <= j < i ==> PotSplitOk(cfg, j)
    {
      var (chapeau, split) := dist[i];
      var expected := Get(cfg.opponentsPerChapeau, chapeau, 0);
      if split.0 + split.1 != expected {
        assert !PotSplitOk(cfg, i);
        return Fail(PotSplitMismatch(chapeau, split.0, split.1, expected));
      }
      assert dist[..i + 1][..i] == dist[..i];
      totalHome := totalHome + split.0;
      totalAway := totalAway + split.1;
    }
    assert dist[..|dist|] == dist;
    if totalHome != cfg.homeMatchesPerClub || totalAway != cfg.awayMatchesPerClub {
      return Fail(SplitTotalsMismatch(totalHome, totalAway));
    }
    if (cfg.totalClubs * cfg.matchesPerClub) % 2 != 0 {
      return Fail(OddMatchProduct(cfg.totalClubs * cfg.matchesPerClub));
    }
    return Pass;
  }

  lemma SumsOfFour(a: (int, int), b: (int, int), c: (int, int), d: (int, int))
    ensures SumValues([a, b, c, d]) == a.1 + b.1 + c.1 + d.1
  {
    assert [a, b, c, d][..3] == [a, b, c];
    assert [a, b, c][..2] == [a, b];
    assert [a, b][..1] == [a];
    assert [a][..0] == [];
    assert SumValues([a]) == a.1;
    assert SumValues([a, b]) == a.1 + b.1;
    assert SumValues([a, b, c]) == a.1 + b.1 + c.1;
  }

  lemma SplitSumsOfFour(a: (int, (int, int)), b: (int, (int, int)), c: (int, (int, int)), d: (int, (int, int)))
    ensures SumHome([a, b, c, d]) == a.1.0 + b.1.0 + c.1.0 + d.1.0
    ensures SumAway([a, b, c, d]) == a.1.1 + b.1.1 + c.1.1 + d.1.1
  {
    assert [a, b, c, d][..3] == [a, b, c];
    assert [a, b, c][..2] == [a, b];
    assert [a, b][..1] == [a];
    assert [a][..0] == [];
    assert SumHome([a]) == a.1.0 && SumAway([a]) == a.1.1;
    assert SumHome([a, b]) == a.1.0 + b.1.0 && SumAway([a, b]) == a.1.1 + b.1.1;
    assert SumHome([a, b, c]) == a.1.0 + b.1.0 + c.1.0 && SumAway([a, b, c]) == a.1.1 + b.1.1 + c.1.1;
  }

  lemma KeysOfFour<V>(s: seq<(int, V)>)
    requires |s| == 4
    ensures Keys(s) == {s[0].0, s[1].0, s[2].0, s[3].0}
  {
  }

  /** Each shipped pot split adds up to the opponents drawn from that pot. */
  lemma ShippedPotSplits()
    ensures PotSplitsOk(Shipped())
  {
    var cfg := Shipped();
    var os, ds := cfg.opponentsPerChapeau, cfg.distributionChapeaux;
    KeysOfFour(os);
    forall i | 0 <= i < |ds|
      ensures PotSplitOk(cfg, i)
    {
      var k := ds[i].0;
      assert k in Keys(os);
      var v := Get(os, k, 0);
      assert (k, v) in os;
      assert v == 2;
      assert ds[i].1.0 + ds[i].1.1 == 2;
    }
  }

  /** The shipped constants pass the coherence check. */
  lemma ShippedIsCoherent()
    ensures Coherent(Shipped())
  {
    var cfg := Shipped();
    var cs, os, ds := cfg.clubsPerChapeau, cfg.opponentsPerChapeau, cfg.distributionChapeaux;
    SumsOfFour(cs[0], cs[1], cs[2], cs[3]);
    SumsOfFour(os[0], os[1], os[2], os[3]);
    SplitSumsOfFour(ds[0], ds[1], ds[2], ds[3]);
    KeysOfFour(cs);
    KeysOfFour(os);
    KeysOfFour(ds);
    assert ClubTotalOk(cfg) && PotKeysOk(cfg) && OpponentTotalOk(cfg) && HomeAwayTotalOk(cfg);
    ShippedPotSplits();
    assert SplitTotalsOk(cfg) && EvenProductOk(cfg);
  }

  /** With the shipped format, 144 matches are expected. */
  lemma ShippedExpectsTotal()
    ensures ExpectedTotalMatches(Shipped()) == 144
  {
  }
}
