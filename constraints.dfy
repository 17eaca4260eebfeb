/** The declarative rule set of the league phase: eight named rules over a
    draw, registered in a fixed order, seven hard and one soft. A rule is a
    tag; `Eval` gives its meaning over the draw's match list, and each check
    method of `UCLConstraints` is proved to compute it. */
module Constraints {
  import opened Wrappers
  import opened Seqs
  import opened Clubs
  import opened Matches
  import opened LeagueConfig
  import opened Draws

  datatype Rule =
    | TotalMatches
    | MatchesPerClub
    | HomeAwayBalance
    | OpponentsPerChapeau
    | ChapeauHomeAwayDistribution
    | NoSameCountryOpponents
    | MaxTwoFromSameForeignCountry
    | NoConsecutiveMatches

  datatype ConstraintType = Unary | Binary | Global | SoftPreference

  /** A registered rule: its name, its kind, what it checks and its
      severity ("hard" or "soft"). */
  datatype Constraint = Constraint(name: string, kind: ConstraintType, rule: Rule, severity: string)

  /** The rules in registration order. */
  function Registry(): seq<Constraint>
  {
    [ Constraint("total_matches", Global, TotalMatches, "hard"),
      Constraint("matches_per_club", Unary, MatchesPerClub, "hard"),
      Constraint("home_away_balance", Unary, HomeAwayBalance, "hard"),
      Constraint("opponents_per_chapeau", Unary, OpponentsPerChapeau, "hard"),
      Constraint("chapeau_home_away_distribution", Unary, ChapeauHomeAwayDistribution, "hard"),
      Constraint("no_same_country_opponents", Binary, NoSameCountryOpponents, "hard"),
      Constraint("max_two_from_same_foreign_country", Unary, MaxTwoFromSameForeignCountry, "hard"),
      Constraint("no_consecutive_matches", Unary, NoConsecutiveMatches, "soft") ]
  }

  // ---------------------------------------------------------------------
  // What each rule asks of one club of the draw

  /** Distinct opponents from pot `k`. */
  function PotCount(os: seq<Club>, k: int): nat
  {
    Count((o: Club) => o.chapeau.Value() == k, os)
  }

  /** Home matches against a club of pot `k`. */
  function HomeVsPot(ms: seq<Match>, c: Club, k: int): nat
  {
    Count((m: Match) => m.away.chapeau.Value() == k, HomeMatches(ms, c))
  }

  /** Away matches against a club of pot `k`. */
  function AwayVsPot(ms: seq<Match>, c: Club, k: int): nat
  {
    Count((m: Match) => m.home.chapeau.Value() == k, AwayMatches(ms, c))
  }

  /** Distinct opponents from country `p`. */
  function CountryCount(os: seq<Club>, p: string): nat
  {
    |SameCountry(os, p)|
  }

  lemma CountryCountSnoc(os: seq<Club>, x: Club, p: string)
    ensures CountryCount(os + [x], p) == CountryCount(os, p) + (if x.pays == p then 1 else 0)
  {
    SameCountrySnoc(os, x, p);
  }

  predicate ClubPotOpponentsOk(cfg: Config, ms: seq<Match>, c: Club)
  {
    var os := Opponents(ms, c);
    forall i :: 0 <= i < |cfg.opponentsPerChapeau| ==>
      PotCount(os, cfg.opponentsPerChapeau[i].0) == cfg.opponentsPerChapeau[i].1
  }

  predicate PotVenuesOk(cfg: Config, ms: seq<Match>, c: Club, i: int)
    requires 0 <= i < |cfg.distributionChapeaux|
  {
    var (k, split) := cfg.distributionChapeaux[i];
    HomeVsPot(ms, c, k) == split.0 && AwayVsPot(ms, c, k) == split.1
  }

  predicate ClubPotVenuesOk(cfg: Config, ms: seq<Match>, c: Club)
  {
    forall i :: 0 <= i < |cfg.distributionChapeaux| ==> PotVenuesOk(cfg, ms, c, i)
  }

  /** No foreign country supplies more than the maximum of distinct opponents;
      the club's own country is not counted here. */
  predicate ClubForeignOk(cfg: Config, ms: seq<Match>, c: Club)
  {
    var os := Opponents(ms, c);
    forall o :: o in os && o.pays != c.pays ==> CountryCount(os, o.pays) <= cfg.maxOpponentsPerForeignCountry
  }

  // ---------------------------------------------------------------------
  // Home/away runs over the club's matches in round order

  /** The length of the run of `v` that ends the sequence. */
  function TrailingRun(vs: seq<Venue>, v: Venue): nat
  {
    if vs == [] || vs[|vs| - 1] != v then 0 else 1 + TrailingRun(vs[..|vs| - 1], v)
  }

  /** Every home run stays within `maxHome` and every away run within
      `maxAway`, at every point of the sequence. */
  predicate RunsOk(vs: seq<Venue>, maxHome: int, maxAway: int)
  {
    forall i :: 0 < i <= |vs| ==>
      TrailingRun(vs[..i], Domicile) <= maxHome && TrailingRun(vs[..i], Exterieur) <= maxAway
  }

  /** `n` consecutive entries equal to `v` somewhere in the sequence. */
  predicate HasRun(vs: seq<Venue>, v: Venue, n: nat)
  {
    exists i :: 0 <= i && i + n <= |vs| && RunAt(vs, v, i, n)
  }

  predicate RunAt(vs: seq<Venue>, v: Venue, i: int, n: nat)
    requires 0 <= i && i + n <= |vs|
  {
    forall k :: i <= k < i + n ==> vs[k] == v
  }

  lemma {:induction false} TrailingRunAtLeast(t: seq<Venue>, v: Venue, n: nat)
    ensures TrailingRun(t, v) >= n <==> n <= |t| && forall k :: |t| - n <= k < |t| ==> t[k] == v
    decreases n
  {
    if n > 0 && t != [] {
      var init := t[..|t| - 1];
      TrailingRunAtLeast(init, v, n - 1);
      if t[|t| - 1] == v && n - 1 <= |init| && forall k :: |init| - (n - 1) <= k < |init| ==> init[k] == v {
        forall k | |t| - n <= k < |t| ensures t[k] == v {
          if k < |t| - 1 { assert init[k] == t[k]; }
        }
      }
      if n <= |t| && forall k :: |t| - n <= k < |t| ==> t[k] == v {
        assert t[|t| - 1] == v;
        forall k | |init| - (n - 1) <= k < |init| ensures init[k] == v {
          assert init[k] == t[k];
        }
      }
    }
  }

  /** For non-negative limits, the running-counter check is the plain rule:
      no more than `maxHome` home matches in a row and no more than `maxAway`
      away matches in a row. */
  lemma RunsAgainstWindows(vs: seq<Venue>, maxHome: nat, maxAway: nat)
    ensures RunsOk(vs, maxHome, maxAway) <==> !HasRun(vs, Domicile, maxHome + 1) && !HasRun(vs, Exterieur, maxAway + 1)
  {
    if RunsOk(vs, maxHome, maxAway) {
      forall v, n | (v == Domicile && n == maxHome + 1) || (v == Exterieur && n == maxAway + 1)
        ensures !HasRun(vs, v, n)
      {
        forall i | 0 <= i && i + n <= |vs| ensures !RunAt(vs, v, i, n) {
          var t := vs[..i + n];
          TrailingRunAtLeast(t, v, n);
          var k :| i <= k < i + n && t[k] != v;
          assert vs[k] == t[k];
        }
      }
    } else {
      var i :| 0 < i <= |vs| && !(TrailingRun(vs[..i], Domicile) <= maxHome && TrailingRun(vs[..i], Exterieur) <= maxAway);
      var t := vs[..i];
      var v := if TrailingRun(t, Domicile) > maxHome then Domicile else Exterieur;
      var n := if v == Domicile then maxHome + 1 else maxAway + 1;
      TrailingRunAtLeast(t, v, n);
      forall k | i - n <= k < i - n + n ensures vs[k] == v {
        assert t[k] == vs[k];
      }
      assert RunAt(vs, v, i - n, n);
    }
  }

  /** Inserts `m` after every match of its round or an earlier one. */
  function InsertByDay(s: seq<Match>, m: Match): (r: seq<Match>)
    ensures multiset(r) == multiset(s) + multiset{m}
  {
    if s == [] || s[|s| - 1].journee <= m.journee then s + [m]
    else
      assert s == s[..|s| - 1] + [s[|s| - 1]];
      InsertByDay(s[..|s| - 1], m) + [s[|s| - 1]]
  }

  /** `sorted(matches, key=lambda m: m.journee)`: a stable insertion sort. */
  function SortByDay(s: seq<Match>): (r: seq<Match>)
    ensures multiset(r) == multiset(s)
  {
    if s == [] then []
    else
      assert s == s[..|s| - 1] + [s[|s| - 1]];
      InsertByDay(SortByDay(s[..|s| - 1]), s[|s| - 1])
  }

  predicate DaySorted(s: seq<Match>)
  {
    forall i, j :: 0 <= i < j < |s| ==> s[i].journee <= s[j].journee
  }

  lemma {:induction false} InsertByDaySorted(s: seq<Match>, m: Match)
    requires DaySorted(s)
    ensures DaySorted(InsertByDay(s, m))
    decreases |s|
  {
    if s == [] || s[|s| - 1].journee <= m.journee {
    } else {
      var init, x := s[..|s| - 1], s[|s| - 1];
      InsertByDaySorted(init, m);
      var r' := InsertByDay(init, m);
      forall y | y in r' ensures y.journee <= x.journee {
        assert y in multiset(r');
        if y != m {
          assert y in multiset(init);
        }
      }
    }
  }

  /** The matches come out in non-decreasing round order. */
  lemma {:induction false} SortByDaySorted(s: seq<Match>)
    ensures DaySorted(SortByDay(s))
  {
    if s != [] {
      SortByDaySorted(s[..|s| - 1]);
      InsertByDaySorted(SortByDay(s[..|s| - 1]), s[|s| - 1]);
    }
  }

  lemma {:induction false} InsertByDayStable(s: seq<Match>, m: Match, d: int)
    ensures DayMatches(InsertByDay(s, m), d) == DayMatches(s, d) + (if m.journee == d then [m] else [])
    decreases |s|
  {
    if s == [] || s[|s| - 1].journee <= m.journee {
      DayMatchesSnoc(s, m, d);
    } else {
      var init, x := s[..|s| - 1], s[|s| - 1];
      assert s == init + [x];
      var r := InsertByDay(init, m);
      var mine := if m.journee == d then [m] else [];
      var last := if x.journee == d then [x] else [];
      calc {
        DayMatches(InsertByDay(s, m), d);
        { assert InsertByDay(s, m) == r + [x]; }
        DayMatches(r + [x], d);
        { DayMatchesSnoc(r, x, d); }
        DayMatches(r, d) + last;
        { InsertByDayStable(init, m, d); }
        (DayMatches(init, d) + mine) + last;
        { assert m.journee < x.journee; }
        (DayMatches(init, d) + last) + mine;
        { DayMatchesSnoc(init, x, d); }
        DayMatches(s, d) + mine;
      }
    }
  }

  /** The sort is stable: within each round the matches keep their order. */
  lemma {:induction false} SortByDayStable(s: seq<Match>, d: int)
    ensures DayMatches(SortByDay(s), d) == DayMatches(s, d)
  {
    if s != [] {
      var init, x := s[..|s| - 1], s[|s| - 1];
      SortByDayStable(init, d);
      InsertByDayStable(SortByDay(init), x, d);
      DayMatchesSnoc(init, x, d);
      assert s == init + [x];
    }
  }

  /** The home ('H') / away ('A') sequence of a list of matches of `c`. */
  function Venues(s: seq<Match>, c: Club): (vs: seq<Venue>)
    ensures |vs| == |s|
    ensures forall i :: 0 <= i < |s| ==> (vs[i] == Domicile <==> SameClub(s[i].home, c))
  {
    seq(|s|, i requires 0 <= i < |s| => if SameClub(s[i].home, c) then Domicile else Exterieur)
  }

  predicate ClubRunsOk(cfg: Config, ms: seq<Match>, c: Club)
  {
    RunsOk(Venues(SortByDay(ClubMatches(ms, c)), c), cfg.maxConsecutiveHome, cfg.maxConsecutiveAway)
  }

  // ---------------------------------------------------------------------
  // The rules

  predicate ClubMatchCountOk(cfg: Config, ms: seq<Match>, c: Club)
  {
    |ClubMatches(ms, c)| == cfg.matchesPerClub
  }

  predicate ClubBalanceOk(cfg: Config, ms: seq<Match>, c: Club)
  {
    |HomeMatches(ms, c)| == cfg.homeMatchesPerClub && |AwayMatches(ms, c)| == cfg.awayMatchesPerClub
  }

  predicate ClubClashesOk(cfg: Config, ms: seq<Match>, c: Club)
  {
    |CountryClashes(ms, c)| <= cfg.maxSameCountryOpponents
  }

  /** `total_matches`: the draw holds exactly the expected number of matches. */
  predicate TotalMatchesHolds(cfg: Config, ms: seq<Match>)
  {
    |ms| == ExpectedTotalMatches(cfg)
  }

  // Each per-club rule asks its demand of every club that plays in some
  // match; a club with no match is never visited.

  predicate MatchesPerClubHolds(cfg: Config, ms: seq<Match>)
  {
    forall x :: x in AllClubs(ms) ==> ClubMatchCountOk(cfg, ms, x)
  }

  predicate HomeAwayBalanceHolds(cfg: Config, ms: seq<Match>)
  {
    forall x :: x in AllClubs(ms) ==> ClubBalanceOk(cfg, ms, x)
  }

  predicate OpponentsPerChapeauHolds(cfg: Config, ms: seq<Match>)
  {
    forall x :: x in AllClubs(ms) ==> ClubPotOpponentsOk(cfg, ms, x)
  }

  predicate ChapeauDistributionHolds(cfg: Config, ms: seq<Match>)
  {
    forall x :: x in AllClubs(ms) ==> ClubPotVenuesOk(cfg, ms, x)
  }

  predicate NoSameCountryHolds(cfg: Config, ms: seq<Match>)
  {
    forall x :: x in AllClubs(ms) ==> ClubClashesOk(cfg, ms, x)
  }

  /** `no_same_country_opponents` holds exactly when no drawn club meets more
      distinct clubs of its own country than the maximum. */
  lemma NoSameCountryMeaning(cfg: Config, ms: seq<Match>)
    ensures NoSameCountryHolds(cfg, ms) <==>
              forall x :: x in AllClubs(ms) ==>
                |IdSet(SameCountry(Opponents(ms, x), x.pays))| <= cfg.maxSameCountryOpponents
    ensures NoSameCountryHolds(cfg, ms) <==>
              forall x :: x in AllClubs(ms) ==> CountryCount(Opponents(ms, x), x.pays) <= cfg.maxSameCountryOpponents
  {
    forall x | x in AllClubs(ms)
      ensures |CountryClashes(ms, x)| == |IdSet(SameCountry(Opponents(ms, x), x.pays))|
      ensures |CountryClashes(ms, x)| == CountryCount(Opponents(ms, x), x.pays)
    {
      ClashesCountSameCountryOpponents(ms, x);
    }
  }

  predicate ForeignCountryHolds(cfg: Config, ms: seq<Match>)
  {
    forall x :: x in AllClubs(ms) ==> ClubForeignOk(cfg, ms, x)
  }

  predicate NoConsecutiveHolds(cfg: Config, ms: seq<Match>)
  {
    forall x :: x in AllClubs(ms) ==> ClubRunsOk(cfg, ms, x)
  }

  /** Whether the rule holds of the draw's match list. */
  predicate Eval(cfg: Config, rule: Rule, ms: seq<Match>)
  {
    match rule
    case TotalMatches => TotalMatchesHolds(cfg, ms)
    case MatchesPerClub => MatchesPerClubHolds(cfg, ms)
    case HomeAwayBalance => HomeAwayBalanceHolds(cfg, ms)
    case OpponentsPerChapeau => OpponentsPerChapeauHolds(cfg, ms)
    case ChapeauHomeAwayDistribution => ChapeauDistributionHolds(cfg, ms)
    case NoSameCountryOpponents => NoSameCountryHolds(cfg, ms)
    case MaxTwoFromSameForeignCountry => ForeignCountryHolds(cfg, ms)
    case NoConsecutiveMatches => NoConsecutiveHolds(cfg, ms)
  }

  /** The names of the constraints of `cs` that fail, in their order. */
  function ViolatedNames(cfg: Config, cs: seq<Constraint>, ms: seq<Match>): (names: seq<string>)
    ensures |names| <= |cs|
    ensures names == [] <==> forall c :: c in cs ==> Eval(cfg, c.rule, ms)
  {
    if cs == [] then []
    else
      var init, c := cs[..|cs| - 1], cs[|cs| - 1];
      assert cs == init + [c];
      ViolatedNames(cfg, init, ms) + (if Eval(cfg, c.rule, ms) then [] else [c.name])
  }

  lemma {:induction false} ViolatedNamesAppend(cfg: Config, a: seq<Constraint>, b: seq<Constraint>, ms: seq<Match>)
    ensures ViolatedNames(cfg, a + b, ms) == ViolatedNames(cfg, a, ms) + ViolatedNames(cfg, b, ms)
    decreases |b|
  {
    if b == [] {
      assert a + b == a;
    } else {
      var b', x := b[..|b| - 1], b[|b| - 1];
      assert a + b == (a + b') + [x] && b == b' + [x];
      ViolatedNamesAppend(cfg, a, b', ms);
    }
  }

  /** The test "has severity `sev`", as one named predicate so that every
      use of it is the same function value. */
  function SeverityIs(sev: string): Constraint -> bool
  {
    (c: Constraint) => c.severity == sev
  }

  /** The constraints of `cs` with severity `sev`, in their order. */
  function BySeverity(cs: seq<Constraint>, sev: string): (r: seq<Constraint>)
    ensures forall c :: c in r <==> c in cs && c.severity == sev
  {
    Filter(SeverityIs(sev), cs)
  }

  /** A list of hard rules followed by one soft rule: its hard rules. */
  lemma HardPartLastSoft(r: seq<Constraint>)
    requires |r| >= 1 && r[|r| - 1].severity == "soft"
    requires forall i :: 0 <= i < |r| - 1 ==> r[i].severity == "hard"
    ensures BySeverity(r, "hard") == r[..|r| - 1]
  {
    var hard := SeverityIs("hard");
    var h, last := r[..|r| - 1], r[|r| - 1];
    assert r == h + [last];
    calc {
      BySeverity(r, "hard");
      Filter(hard, h + [last]);
      { FilterSnoc(hard, h, last); }
      Filter(hard, h);
      { FilterAll(hard, h); }
      h;
    }
  }

  /** A list of hard rules followed by one soft rule: its soft rule. */
  lemma SoftPartLastSoft(r: seq<Constraint>)
    requires |r| >= 1 && r[|r| - 1].severity == "soft"
    requires forall i :: 0 <= i < |r| - 1 ==> r[i].severity == "hard"
    ensures BySeverity(r, "soft") == r[|r| - 1..]
  {
    var soft := SeverityIs("soft");
    var h, last := r[..|r| - 1], r[|r| - 1];
    assert r == h + [last] && r[|r| - 1..] == [last];
    forall x | x in h ensures !soft(x) {
      var i :| 0 <= i < |h| && h[i] == x;
    }
    calc {
      BySeverity(r, "soft");
      Filter(soft, h + [last]);
      { FilterSnoc(soft, h, last); }
      Filter(soft, h) + [last];
      { FilterNone(soft, h); }
      [last];
    }
  }

  /** Eight rules in the registration order, all hard but the last; hard and
      soft rules split the registry into its first seven and its last entry. */
  lemma RegistrySplit()
    ensures |Registry()| == 8
    ensures forall i :: 0 <= i < 7 ==> Registry()[i].severity == "hard"
    ensures Registry()[7].name == "no_consecutive_matches" && Registry()[7].severity == "soft"
    ensures BySeverity(Registry(), "hard") == Registry()[..7]
    ensures BySeverity(Registry(), "soft") == Registry()[7..]
  {
    var r := Registry();
    assert forall i :: 0 <= i < 7 ==> r[i].severity == "hard";
    HardPartLastSoft(r);
    SoftPartLastSoft(r);
  }

  /** The violations of all rules are the hard ones followed by the soft one. */
  lemma RegistryShape(cfg: Config, ms: seq<Match>)
    ensures ViolatedNames(cfg, Registry(), ms)
            == ViolatedNames(cfg, BySeverity(Registry(), "hard"), ms) + ViolatedNames(cfg, BySeverity(Registry(), "soft"), ms)
  {
    var r := Registry();
    RegistrySplit();
    SplitJoin(r, 7);
    ViolatedNamesAppend(cfg, r[..7], r[7..], ms);
  }

  // ---------------------------------------------------------------------
  // Per-club helper loops

  /** `opponents_by_chapeau`: the number of opponents per pot value. */
  method CountByPot(os: seq<Club>) returns (hist: map<int, nat>)
    ensures forall k :: (if k in hist then hist[k] else 0) == PotCount(os, k)
  {
    hist := map[];
    for j := 0 to |os|
      invariant forall k :: (if k in hist then hist[k] else 0) == PotCount(os[..j], k)
    {
      var k := os[j].chapeau.Value();
      assert os[..j + 1] == os[..j] + [os[j]];
      forall k' ensures PotCount(os[..j + 1], k') == PotCount(os[..j], k') + (if k == k' then 1 else 0) {
        FilterSnoc((o: Club) => o.chapeau.Value() == k', os[..j], os[j]);
      }
      hist := hist[k := (if k in hist then hist[k] else 0) + 1];
    }
    assert os[..|os|] == os;
  }

  /** The inner loop of `opponents_per_chapeau` for one club: each
      configured pot against the histogram of the club's opponents. */
  method PotCountsOk(os: seq<Club>, expected: seq<(int, int)>) returns (ok: bool)
    ensures ok <==> forall e :: 0 <= e < |expected| ==> PotCount(os, expected[e].0) == expected[e].1
  {
    var hist := CountByPot(os);
    for e := 0 to |expected|
      invariant forall e' :: 0 <= e' < e ==> PotCount(os, expected[e'].0) == expected[e'].1
    {
      var (k, n) := expected[e];
      if (if k in hist then hist[k] else 0) != n {
        return false;
      }
    }
    return true;
  }

  /** The inner loop of `chapeau_home_away_distribution` for one club. */
  method PotVenueCountsOk(cfg: Config, ms: seq<Match>, c: Club) returns (ok: bool)
    ensures ok == ClubPotVenuesOk(cfg, ms, c)
  {
    var dist := cfg.distributionChapeaux;
    for e := 0 to |dist|
      invariant forall e' :: 0 <= e' < e ==> PotVenuesOk(cfg, ms, c, e')
    {
      var (k, split) := dist[e];
      var homeCount := HomeVsPot(ms, c, k);
      var awayCount := AwayVsPot(ms, c, k);
      if homeCount != split.0 || awayCount != split.1 {
        assert !PotVenuesOk(cfg, ms, c, e);
        return false;
      }
    }
    return true;
  }

  /** The counting loop of `max_two_from_same_foreign_country` for one club:
      it stops as soon as a foreign country's count passes the maximum. */
  method ForeignCountsOk(os: seq<Club>, own: string, max: int) returns (ok: bool)
    ensures ok <==> forall o :: o in os && o.pays != own ==> CountryCount(os, o.pays) <= max
  {
    var counts: map<string, nat> := map[];
    for j := 0 to |os|
      invariant forall p :: p != own ==> (if p in counts then counts[p] else 0) == CountryCount(os[..j], p)
      invariant ForeignPrefixOk(os, j, own, max)
    {
      var o := os[j];
      assert os[..j + 1] == os[..j] + [o];
      forall p ensures CountryCount(os[..j + 1], p) == CountryCount(os[..j], p) + (if o.pays == p then 1 else 0) {
        CountryCountSnoc(os[..j], o, p);
      }
      if o.pays != own {
        counts := counts[o.pays := (if o.pays in counts then counts[o.pays] else 0) + 1];
        if counts[o.pays] > max {
          CountPrefix((x: Club) => x.pays == o.pays, os, j + 1);
          assert o in os;
          return false;
        }
      }
      ForeignPrefixStep(os, j, own, max);
    }
    assert os[..|os|] == os;
    forall o | o in os && o.pays != own ensures CountryCount(os, o.pays) <= max {
      var k :| 0 <= k < |os| && os[k] == o;
    }
    return true;
  }

  /** No foreign country of the first `j` opponents has passed the maximum yet. */
  predicate ForeignPrefixOk(os: seq<Club>, j: int, own: string, max: int)
    requires 0 <= j <= |os|
  {
    forall k :: 0 <= k < j && os[k].pays != own ==> CountryCount(os[..j], os[k].pays) <= max
  }

  lemma ForeignPrefixStep(os: seq<Club>, j: int, own: string, max: int)
    requires 0 <= j < |os| && ForeignPrefixOk(os, j, own, max)
    requires os[j].pays != own ==> CountryCount(os[..j + 1], os[j].pays) <= max
    ensures ForeignPrefixOk(os, j + 1, own, max)
  {
    assert os[..j + 1] == os[..j] + [os[j]];
    forall k | 0 <= k < j + 1 && os[k].pays != own ensures CountryCount(os[..j + 1], os[k].pays) <= max {
      CountryCountSnoc(os[..j], os[j], os[k].pays);
    }
  }

  /** The counter loop of `no_consecutive_matches` for one club. */
  method RunsCheck(vs: seq<Venue>, maxHome: int, maxAway: int) returns (ok: bool)
    ensures ok == RunsOk(vs, maxHome, maxAway)
  {
    var home, away := 0, 0;
    for i := 0 to |vs|
      invariant home == TrailingRun(vs[..i], Domicile) && away == TrailingRun(vs[..i], Exterieur)
      invariant forall j :: 0 < j <= i ==>
                  TrailingRun(vs[..j], Domicile) <= maxHome && TrailingRun(vs[..j], Exterieur) <= maxAway
    {
      assert vs[..i + 1][..i] == vs[..i];
      if vs[i] == Domicile {
        home, away := home + 1, 0;
      } else {
        away, home := away + 1, 0;
      }
      if home > maxHome || away > maxAway {
        return false;
      }
    }
    return true;
  }

  // ---------------------------------------------------------------------
  // The constraint manager

  class UCLConstraints {
    const cfg: Config
    var constraints: seq<Constraint>

    /** `_build_constraints`: the eight rules appended in order. */
    constructor (cfg: Config)
      ensures this.cfg == cfg && constraints == Registry()
    {
      this.cfg := cfg;
      constraints := [];
      constraints := constraints + [Constraint("total_matches", Global, TotalMatches, "hard")];
      constraints := constraints + [Constraint("matches_per_club", Unary, MatchesPerClub, "hard")];
      constraints := constraints + [Constraint("home_away_balance", Unary, HomeAwayBalance, "hard")];
      constraints := constraints + [Constraint("opponents_per_chapeau", Unary, OpponentsPerChapeau, "hard")];
      constraints := constraints + [Constraint("chapeau_home_away_distribution", Unary, ChapeauHomeAwayDistribution, "hard")];
      constraints := constraints + [Constraint("no_same_country_opponents", Binary, NoSameCountryOpponents, "hard")];
      constraints := constraints + [Constraint("max_two_from_same_foreign_country", Unary, MaxTwoFromSameForeignCountry, "hard")];
      constraints := constraints + [Constraint("no_consecutive_matches", Unary, NoConsecutiveMatches, "soft")];
    }

    /** `get_hard_constraints`. */
    function GetHardConstraints(): (r: seq<Constraint>)
      reads this
      ensures forall c :: c in r <==> c in constraints && c.severity == "hard"
    {
      BySeverity(constraints, "hard")
    }

    /** `get_soft_constraints`. */
    function GetSoftConstraints(): (r: seq<Constraint>)
      reads this
      ensures forall c :: c in r <==> c in constraints && c.severity == "soft"
    {
      BySeverity(constraints, "soft")
    }

    /** `_check_total_matches`. */
    method CheckTotalMatches(d: Draw) returns (ok: bool)
      ensures ok == TotalMatchesHolds(cfg, d.matches)
    {
      ok := |d.matches| == ExpectedTotalMatches(cfg);
    }

    /** `_check_matches_per_club`. */
    method CheckMatchesPerClub(d: Draw) returns (ok: bool)
      ensures ok == MatchesPerClubHolds(cfg, d.matches)
    {
      var clubs := d.GetAllClubs();
      var ms := d.matches;
      assert clubs == AllClubs(ms);
      var i := 0;
      while i < |clubs|
        invariant 0 <= i <= |clubs|
        invariant forall j :: 0 <= j < i ==> ClubMatchCountOk(cfg, ms, clubs[j])
      {
        if |ClubMatches(ms, clubs[i])| != cfg.matchesPerClub {
          assert clubs[i] in clubs;
          return false;
        }
        i := i + 1;
      }
      return true;
    }

    /** `_check_home_away_balance`. */
    method CheckHomeAwayBalance(d: Draw) returns (ok: bool)
      ensures ok == HomeAwayBalanceHolds(cfg, d.matches)
    {
      var clubs := d.GetAllClubs();
      var ms := d.matches;
      assert clubs == AllClubs(ms);
      var i := 0;
      while i < |clubs|
        invariant 0 <= i <= |clubs|
        invariant forall j :: 0 <= j < i ==> ClubBalanceOk(cfg, ms, clubs[j])
      {
        var home := |HomeMatches(ms, clubs[i])|;
        var away := |AwayMatches(ms, clubs[i])|;
        if home != cfg.homeMatchesPerClub {
          assert clubs[i] in clubs;
          return false;
        }
        if away != cfg.awayMatchesPerClub {
          assert clubs[i] in clubs;
          return false;
        }
        i := i + 1;
      }
      return true;
    }

    /** `_check_opponents_per_chapeau`: distinct opponents per pot, against
        every configured pot. */
    method CheckOpponentsPerChapeau(d: Draw) returns (ok: bool)
      ensures ok == OpponentsPerChapeauHolds(cfg, d.matches)
    {
      var clubs := d.GetAllClubs();
      var ms := d.matches;
      assert clubs == AllClubs(ms);
      var i := 0;
      while i < |clubs|
        invariant 0 <= i <= |clubs|
        invariant forall j :: 0 <= j < i ==> ClubPotOpponentsOk(cfg, ms, clubs[j])
      {
        var opponents := Opponents(ms, clubs[i]);
        var clubOk := PotCountsOk(opponents, cfg.opponentsPerChapeau);
        if !clubOk {
          assert clubs[i] in clubs;
          return false;
        }
        i := i + 1;
      }
      return true;
    }

    /** `_check_chapeau_home_away_distribution`: home and away match counts
        against each configured pot. */
    method CheckChapeauHomeAwayDistribution(d: Draw) returns (ok: bool)
      ensures ok == ChapeauDistributionHolds(cfg, d.matches)
    {
      var clubs := d.GetAllClubs();
      var ms := d.matches;
      assert clubs == AllClubs(ms);
      var i := 0;
      while i < |clubs|
        invariant 0 <= i <= |clubs|
        invariant forall j :: 0 <= j < i ==> ClubPotVenuesOk(cfg, ms, clubs[j])
      {
        var clubOk := PotVenueCountsOk(cfg, ms, clubs[i]);
        if !clubOk {
          assert clubs[i] in clubs;
          return false;
        }
        i := i + 1;
      }
      return true;
    }

    /** `_check_no_same_country_opponents`. */
    method CheckNoSameCountryOpponents(d: Draw) returns (ok: bool)
      ensures ok == NoSameCountryHolds(cfg, d.matches)
    {
      var clubs := d.GetAllClubs();
      var ms := d.matches;
      assert clubs == AllClubs(ms);
      var i := 0;
      while i < |clubs|
        invariant 0 <= i <= |clubs|
        invariant forall j :: 0 <= j < i ==> ClubClashesOk(cfg, ms, clubs[j])
      {
        var clashes := CountryClashes(ms, clubs[i]);
        if |clashes| > cfg.maxSameCountryOpponents {
          assert clubs[i] in clubs;
          return false;
        }
        i := i + 1;
      }
      return true;
    }

    /** One club's part of `_check_max_two_from_same_foreign_country`. */
    method ClubForeignCheck(ms: seq<Match>, c: Club) returns (ok: bool)
      ensures ok == ClubForeignOk(cfg, ms, c)
    {
      var opponents := Opponents(ms, c);
      ok := ForeignCountsOk(opponents, c.pays, cfg.maxOpponentsPerForeignCountry);
    }

    /** `_check_max_two_from_same_foreign_country`. */
    method CheckMaxTwoFromSameForeignCountry(d: Draw) returns (ok: bool)
      ensures ok == ForeignCountryHolds(cfg, d.matches)
    {
      var clubs := d.GetAllClubs();
      var ms := d.matches;
      assert clubs == AllClubs(ms);
      var i := 0;
      while i < |clubs|
        invariant 0 <= i <= |clubs|
        invariant forall j :: 0 <= j < i ==> ClubForeignOk(cfg, ms, clubs[j])
      {
        var clubOk := ClubForeignCheck(ms, clubs[i]);
        if !clubOk {
          assert clubs[i] in clubs;
          return false;
        }
        i := i + 1;
      }
      return true;
    }

    /** `_check_no_consecutive_matches`. */
    method CheckNoConsecutiveMatches(d: Draw) returns (ok: bool)
      ensures ok == NoConsecutiveHolds(cfg, d.matches)
    {
      var clubs := d.GetAllClubs();
      var ms := d.matches;
      assert clubs == AllClubs(ms);
      var i := 0;
      while i < |clubs|
        invariant 0 <= i <= |clubs|
        invariant forall j :: 0 <= j < i ==> ClubRunsOk(cfg, ms, clubs[j])
      {
        var ordered := SortByDay(ClubMatches(ms, clubs[i]));
        var sequence := Venues(ordered, clubs[i]);
        var clubOk := RunsCheck(sequence, cfg.maxConsecutiveHome, cfg.maxConsecutiveAway);
        if !clubOk {
          assert clubs[i] in clubs;
          return false;
        }
        i := i + 1;
      }
      return true;
    }

    /** `Constraint.is_satisfied`: runs the check the rule names. */
    method IsSatisfied(c: Constraint, d: Draw) returns (ok: bool)
      ensures ok == Eval(cfg, c.rule, d.matches)
    {
      match c.rule
      case TotalMatches => ok := CheckTotalMatches(d);
      case MatchesPerClub => ok := CheckMatchesPerClub(d);
      case HomeAwayBalance => ok := CheckHomeAwayBalance(d);
      case OpponentsPerChapeau => ok := CheckOpponentsPerChapeau(d);
      case ChapeauHomeAwayDistribution => ok := CheckChapeauHomeAwayDistribution(d);
      case NoSameCountryOpponents => ok := CheckNoSameCountryOpponents(d);
      case MaxTwoFromSameForeignCountry => ok := CheckMaxTwoFromSameForeignCountry(d);
      case NoConsecutiveMatches => ok := CheckNoConsecutiveMatches(d);
    }

    /** Evaluates every constraint of `cs`, without stopping at a failure. */
    method VerifyList(cs: seq<Constraint>, d: Draw) returns (ok: bool, violated: seq<string>)
      ensures violated == ViolatedNames(cfg, cs, d.matches)
      ensures ok <==> violated == []
      ensures ok <==> forall c :: c in cs ==> Eval(cfg, c.rule, d.matches)
    {
      violated := [];
      for i := 0 to |cs|
        invariant violated == ViolatedNames(cfg, cs[..i], d.matches)
      {
        assert cs[..i + 1][..i] == cs[..i];
        var sat := IsSatisfied(cs[i], d);
        if !sat {
          violated := violated + [cs[i].name];
        }
      }
      assert cs[..|cs|] == cs;
      ok := |violated| == 0;
    }

    /** `verify_all_constraints`. */
    method VerifyAllConstraints(d: Draw) returns (ok: bool, violated: seq<string>)
      ensures violated == ViolatedNames(cfg, constraints, d.matches)
      ensures ok <==> forall c :: c in constraints ==> Eval(cfg, c.rule, d.matches)
    {
      ok, violated := VerifyList(constraints, d);
    }

    /** `verify_hard_constraints`: the same over the hard constraints only. */
    method VerifyHardConstraints(d: Draw) returns (ok: bool, violated: seq<string>)
      ensures violated == ViolatedNames(cfg, BySeverity(constraints, "hard"), d.matches)
      ensures ok <==> violated == []
      ensures ok <==> forall c :: c in constraints && c.severity == "hard" ==> Eval(cfg, c.rule, d.matches)
    {
      ok, violated := VerifyList(GetHardConstraints(), d);
    }
  }
}
