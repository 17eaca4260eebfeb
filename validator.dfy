/** The certification step of a draw. Three layers: structural checks built
    from per-day, per-pair and home/away counters over the raw match list;
    one combined error entry for every violated hard rule; the violated soft
    rules as a warning only. Messages are tagged values carrying the ids and
    counts the source formats into its strings. */
module Validation {
  import opened Seqs
  import opened Text
  import opened Clubs
  import opened Matches
  import opened LeagueConfig
  import opened Draws
  import opened Constraints

  datatype ValidationError =
    | SelfMatch(clubId: string, journee: int)
    | DayOutOfBounds(journee: int, homeId: string, awayId: string)
    | TotalMismatch(actual: int, expected: int)
    | DayCountMismatch(clubId: string, day: int, count: nat)
    | PairReplayed(a: string, b: string, days: set<int>)
    | HomeCountMismatch(clubId: string, count: nat, expected: int)
    | AwayCountMismatch(clubId: string, count: nat, expected: int)
    | HardViolated(names: seq<string>)

  datatype ValidationWarning = SoftViolated(names: seq<string>)

  // ---------------------------------------------------------------------
  // a) Self-matches and round bounds, one entry per offending match

  predicate SelfPaired(m: Match)
  {
    m.home.id == m.away.id
  }

  predicate OutOfRounds(cfg: Config, m: Match)
  {
    !(1 <= m.journee <= cfg.journees)
  }

  /** The entries of one match: the self-match first, then the round. */
  function MatchEntries(cfg: Config, m: Match): seq<ValidationError>
  {
    (if SelfPaired(m) then [SelfMatch(m.home.id, m.journee)] else [])
    + (if OutOfRounds(cfg, m) then [DayOutOfBounds(m.journee, m.home.id, m.away.id)] else [])
  }

  function MatchErrors(cfg: Config, ms: seq<Match>): seq<ValidationError>
  {
    if ms == [] then [] else MatchErrors(cfg, ms[..|ms| - 1]) + MatchEntries(cfg, ms[|ms| - 1])
  }

  predicate IsSelfMatch(e: ValidationError)
  {
    e.SelfMatch?
  }

  predicate IsDayOutOfBounds(e: ValidationError)
  {
    e.DayOutOfBounds?
  }

  lemma MatchEntriesCounts(cfg: Config, m: Match)
    ensures Count(IsSelfMatch, MatchEntries(cfg, m)) == (if SelfPaired(m) then 1 else 0)
    ensures Count(IsDayOutOfBounds, MatchEntries(cfg, m)) == (if OutOfRounds(cfg, m) then 1 else 0)
  {
    var a := if SelfPaired(m) then [SelfMatch(m.home.id, m.journee)] else [];
    var b := if OutOfRounds(cfg, m) then [DayOutOfBounds(m.journee, m.home.id, m.away.id)] else [];
    assert MatchEntries(cfg, m) == a + b;
    FilterAppend(IsSelfMatch, a, b);
    FilterAppend(IsDayOutOfBounds, a, b);
    assert [] + a == a && [] + b == b;
    if a != [] {
      FilterSnoc(IsSelfMatch, [], a[0]);
      FilterSnoc(IsDayOutOfBounds, [], a[0]);
    }
    if b != [] {
      FilterSnoc(IsSelfMatch, [], b[0]);
      FilterSnoc(IsDayOutOfBounds, [], b[0]);
    }
  }

  /** Exactly one self-match entry per self-paired match and one round
      entry per match outside the configured rounds, and nothing else. */
  lemma {:induction false} MatchErrorsCounts(cfg: Config, ms: seq<Match>)
    ensures Count(IsSelfMatch, MatchErrors(cfg, ms)) == Count(SelfPaired, ms)
    ensures Count(IsDayOutOfBounds, MatchErrors(cfg, ms)) == Count((m: Match) => OutOfRounds(cfg, m), ms)
  {
    if ms != [] {
      var init, m := ms[..|ms| - 1], ms[|ms| - 1];
      assert ms == init + [m];
      MatchErrorsCounts(cfg, init);
      FilterSnoc(SelfPaired, init, m);
      FilterSnoc((m: Match) => OutOfRounds(cfg, m), init, m);
      MatchEntriesCounts(cfg, m);
      var prev, es := MatchErrors(cfg, init), MatchEntries(cfg, m);
      assert MatchErrors(cfg, ms) == prev + es;
      FilterAppend(IsSelfMatch, prev, es);
      FilterAppend(IsDayOutOfBounds, prev, es);
      assert Count(IsSelfMatch, prev + es) == Count(IsSelfMatch, prev) + Count(IsSelfMatch, es);
      assert Count(IsDayOutOfBounds, prev + es) == Count(IsDayOutOfBounds, prev) + Count(IsDayOutOfBounds, es);
    }
  }

  /** Which entries there are: a self-match entry for the id and round of each
      self-paired match, a round entry for each match outside the rounds. */
  lemma {:induction false} MatchErrorsMeaning(cfg: Config, ms: seq<Match>, e: ValidationError)
    ensures e in MatchErrors(cfg, ms) <==>
              exists m :: m in ms &&
                ((SelfPaired(m) && e == SelfMatch(m.home.id, m.journee))
                 || (OutOfRounds(cfg, m) && e == DayOutOfBounds(m.journee, m.home.id, m.away.id)))
  {
    if ms != [] {
      var init, m := ms[..|ms| - 1], ms[|ms| - 1];
      assert ms == init + [m];
      MatchErrorsMeaning(cfg, init, e);
      assert forall x :: x in ms <==> x in init || x == m;
    }
  }

  // ---------------------------------------------------------------------
  // b) The total

  function TotalErrors(cfg: Config, ms: seq<Match>): seq<ValidationError>
  {
    if |ms| != ExpectedTotalMatches(cfg) then [TotalMismatch(|ms|, ExpectedTotalMatches(cfg))] else []
  }

  // ---------------------------------------------------------------------
  // c) One match per round and club

  /** The `per_day_per_club` counter of `(id, d)`: one for each side of a
      match of round `d` the id plays, so a self-match counts twice. */
  function DayCount(ms: seq<Match>, id: string, d: int): nat
  {
    if ms == [] then 0
    else
      var m := ms[|ms| - 1];
      DayCount(ms[..|ms| - 1], id, d)
      + (if m.home.id == id && m.journee == d then 1 else 0)
      + (if m.away.id == id && m.journee == d then 1 else 0)
  }

  /** In a list with no self-match, the counter is the number of the club's
      matches in that round. */
  lemma {:induction false} DayCountIsRoundMatches(ms: seq<Match>, c: Club, d: int)
    requires forall i :: 0 <= i < |ms| ==> !SelfPaired(ms[i])
    ensures DayCount(ms, c.id, d) == |DayMatches(ClubMatches(ms, c), d)|
  {
    if ms != [] {
      var init, m := ms[..|ms| - 1], ms[|ms| - 1];
      assert ms == init + [m];
      forall i | 0 <= i < |init|
        ensures !SelfPaired(init[i])
      {
        assert init[i] == ms[i];
      }
      DayCountIsRoundMatches(init, c, d);
      assert !SelfPaired(m);
      assert DayCount(ms, c.id, d) == DayCount(init, c.id, d) + (if Involves(m, c) && m.journee == d then 1 else 0);
      var cm := ClubMatches(init, c);
      FilterSnoc((m: Match) => Involves(m, c), init, m);
      if Involves(m, c) {
        assert ClubMatches(ms, c) == cm + [m];
        DayMatchesSnoc(cm, m, d);
      } else {
        assert ClubMatches(ms, c) == cm;
      }
    }
  }

  /** The entries of one club, for rounds 1..n. */
  function ClubDayErrors(ms: seq<Match>, id: string, n: int): seq<ValidationError>
    decreases n
  {
    if n <= 0 then []
    else
      ClubDayErrors(ms, id, n - 1)
      + (if DayCount(ms, id, n) != 1 then [DayCountMismatch(id, n, DayCount(ms, id, n))] else [])
  }

  function DayErrors(cfg: Config, ms: seq<Match>, clubs: seq<Club>): seq<ValidationError>
  {
    if clubs == [] then []
    else DayErrors(cfg, ms, clubs[..|clubs| - 1]) + ClubDayErrors(ms, clubs[|clubs| - 1].id, cfg.journees)
  }

  lemma {:induction false} ClubDayErrorsMeaning(ms: seq<Match>, id: string, n: int, e: ValidationError)
    ensures e in ClubDayErrors(ms, id, n) <==>
              exists d :: 1 <= d <= n && DayCount(ms, id, d) != 1 && e == DayCountMismatch(id, d, DayCount(ms, id, d))
    decreases n
  {
    if n > 0 {
      ClubDayErrorsMeaning(ms, id, n - 1, e);
      var last := if DayCount(ms, id, n) != 1 then [DayCountMismatch(id, n, DayCount(ms, id, n))] else [];
      assert ClubDayErrors(ms, id, n) == ClubDayErrors(ms, id, n - 1) + last;
      if e in last {
        assert 1 <= n <= n && DayCount(ms, id, n) != 1 && e == DayCountMismatch(id, n, DayCount(ms, id, n));
      }
      if exists d :: 1 <= d <= n && DayCount(ms, id, d) != 1 && e == DayCountMismatch(id, d, DayCount(ms, id, d)) {
        var d :| 1 <= d <= n && DayCount(ms, id, d) != 1 && e == DayCountMismatch(id, d, DayCount(ms, id, d));
        if d == n {
          assert e in last;
        }
      }
    }
  }

  /** A round entry exists exactly for a drawn club and a configured round
      whose counter is not one. */
  lemma {:induction false} DayErrorsMeaning(cfg: Config, ms: seq<Match>, clubs: seq<Club>, id: string, d: int, k: nat)
    ensures DayCountMismatch(id, d, k) in DayErrors(cfg, ms, clubs) <==>
              HasId(clubs, id) && 1 <= d <= cfg.journees && k == DayCount(ms, id, d) && k != 1
  {
    if clubs != [] {
      var init, c := clubs[..|clubs| - 1], clubs[|clubs| - 1];
      assert clubs == init + [c];
      DayErrorsMeaning(cfg, ms, init, id, d, k);
      ClubDayErrorsMeaning(ms, c.id, cfg.journees, DayCountMismatch(id, d, k));
      assert forall x :: x in clubs <==> x in init || x == c;
    }
  }

  // ---------------------------------------------------------------------
  // c') Unordered pairs played on more than one day

  /** `tuple(sorted((home.id, away.id)))`. */
  function PairKey(m: Match): (string, string)
  {
    if IdLess(m.away.id, m.home.id) then (m.away.id, m.home.id) else (m.home.id, m.away.id)
  }

  /** The key holds both ids, smaller first, and does not depend on which
      side is at home or on the round. */
  lemma PairKeyUnordered(h: Club, a: Club, j: int, j': int)
    ensures PairKey(Match(h, a, j)) == PairKey(Match(a, h, j'))
    ensures var k := PairKey(Match(h, a, j));
            ((k.0 == h.id && k.1 == a.id) || (k.0 == a.id && k.1 == h.id)) && !IdLess(k.1, k.0)
  {
    if h.id == a.id {
      IdLessIrreflexive(h.id);
    } else {
      IdLessTotal(h.id, a.id);
      if IdLess(h.id, a.id) {
        IdLessAsymmetric(h.id, a.id);
      } else {
        IdLessAsymmetric(a.id, h.id);
      }
    }
  }

  /** The keys of `pair_days`, in insertion order. */
  function PairKeys(ms: seq<Match>): seq<(string, string)>
  {
    if ms == [] then []
    else
      var keys := PairKeys(ms[..|ms| - 1]);
      var k := PairKey(ms[|ms| - 1]);
      if k in keys then keys else keys + [k]
  }

  /** The set of rounds on which the pair `k` meets. */
  function PairDays(ms: seq<Match>, k: (string, string)): set<int>
  {
    if ms == [] then {}
    else PairDays(ms[..|ms| - 1], k) + (if PairKey(ms[|ms| - 1]) == k then {ms[|ms| - 1].journee} else {})
  }

  lemma {:induction false} PairKeysMeaning(ms: seq<Match>, k: (string, string))
    ensures k in PairKeys(ms) <==> exists m :: m in ms && PairKey(m) == k
  {
    if ms != [] {
      var init, m := ms[..|ms| - 1], ms[|ms| - 1];
      assert ms == init + [m];
      PairKeysMeaning(init, k);
      assert forall x :: x in ms <==> x in init || x == m;
    }
  }

  /** Each unordered pair is listed once. */
  lemma {:induction false} PairKeysDistinct(ms: seq<Match>)
    ensures forall i, j :: 0 <= i < j < |PairKeys(ms)| ==> PairKeys(ms)[i] != PairKeys(ms)[j]
  {
    if ms != [] {
      PairKeysDistinct(ms[..|ms| - 1]);
    }
  }

  lemma {:induction false} PairDaysMeaning(ms: seq<Match>, k: (string, string), d: int)
    ensures d in PairDays(ms, k) <==> exists m :: m in ms && PairKey(m) == k && m.journee == d
  {
    if ms != [] {
      var init, m := ms[..|ms| - 1], ms[|ms| - 1];
      assert ms == init + [m];
      PairDaysMeaning(init, k, d);
      assert forall x :: x in ms <==> x in init || x == m;
    }
  }

  /** A pair that has not been seen has no rounds yet. */
  lemma PairDaysOfUnseenKey(ms: seq<Match>, k: (string, string))
    requires k !in PairKeys(ms)
    ensures PairDays(ms, k) == {}
  {
    PairKeysMeaning(ms, k);
    forall d | d in PairDays(ms, k) ensures false {
      PairDaysMeaning(ms, k, d);
    }
  }

  function PairErrors(ms: seq<Match>, keys: seq<(string, string)>): seq<ValidationError>
  {
    if keys == [] then []
    else
      var k := keys[|keys| - 1];
      PairErrors(ms, keys[..|keys| - 1])
      + (if |PairDays(ms, k)| > 1 then [PairReplayed(k.0, k.1, PairDays(ms, k))] else [])
  }

  lemma {:induction false} PairErrorsMeaning(ms: seq<Match>, keys: seq<(string, string)>, e: ValidationError)
    ensures e in PairErrors(ms, keys) <==>
              exists k :: k in keys && |PairDays(ms, k)| > 1 && e == PairReplayed(k.0, k.1, PairDays(ms, k))
  {
    if keys != [] {
      var init, k := keys[..|keys| - 1], keys[|keys| - 1];
      assert keys == init + [k];
      PairErrorsMeaning(ms, init, e);
      assert forall x :: x in keys <==> x in init || x == k;
    }
  }

  /** A pair entry exists exactly for a pair of ids that meets on more than
      one distinct round; it carries that set of rounds. */
  lemma PairEntries(ms: seq<Match>, a: string, b: string, days: set<int>)
    ensures PairReplayed(a, b, days) in PairErrors(ms, PairKeys(ms)) <==>
              (exists m :: m in ms && PairKey(m) == (a, b)) && days == PairDays(ms, (a, b)) && |days| > 1
  {
    PairErrorsMeaning(ms, PairKeys(ms), PairReplayed(a, b, days));
    PairKeysMeaning(ms, (a, b));
  }

  /** The same match twice on one round is not a pair entry: the check
      counts distinct rounds, not matches. */
  lemma SameRoundReplayNotFlagged(m: Match)
    ensures PairErrors([m, m], PairKeys([m, m])) == []
  {
    assert [m, m][..1] == [m] && [m][..0] == [];
    assert PairKeys([m]) == [PairKey(m)];
    assert PairKeys([m, m]) == [PairKey(m)];
    assert PairDays([m], PairKey(m)) == {m.journee};
    assert PairDays([m, m], PairKey(m)) == {m.journee};
  }

  // ---------------------------------------------------------------------
  // d) Home and away tallies

  function HomeTally(ms: seq<Match>, id: string): nat
  {
    if ms == [] then 0
    else HomeTally(ms[..|ms| - 1], id) + (if ms[|ms| - 1].home.id == id then 1 else 0)
  }

  function AwayTally(ms: seq<Match>, id: string): nat
  {
    if ms == [] then 0
    else AwayTally(ms[..|ms| - 1], id) + (if ms[|ms| - 1].away.id == id then 1 else 0)
  }

  /** The validator's tallies are the draw's home and away match counts. */
  lemma {:induction false} TalliesAreDrawCounts(ms: seq<Match>, c: Club)
    ensures HomeTally(ms, c.id) == |HomeMatches(ms, c)|
    ensures AwayTally(ms, c.id) == |AwayMatches(ms, c)|
  {
    if ms != [] {
      var init, m := ms[..|ms| - 1], ms[|ms| - 1];
      assert ms == init + [m];
      TalliesAreDrawCounts(init, c);
      FilterSnoc((m: Match) => SameClub(m.home, c), init, m);
      FilterSnoc((m: Match) => SameClub(m.away, c), init, m);
    }
  }

  function TallyErrors(cfg: Config, ms: seq<Match>, clubs: seq<Club>): seq<ValidationError>
  {
    if clubs == [] then []
    else
      var id := clubs[|clubs| - 1].id;
      TallyErrors(cfg, ms, clubs[..|clubs| - 1])
      + (if HomeTally(ms, id) != cfg.homeMatchesPerClub
         then [HomeCountMismatch(id, HomeTally(ms, id), cfg.homeMatchesPerClub)] else [])
      + (if AwayTally(ms, id) != cfg.awayMatchesPerClub
         then [AwayCountMismatch(id, AwayTally(ms, id), cfg.awayMatchesPerClub)] else [])
  }

  /** A home entry exists exactly for a drawn club whose home tally is off,
      and likewise for away. */
  lemma {:induction false} TallyErrorsMeaning(cfg: Config, ms: seq<Match>, clubs: seq<Club>, id: string, k: nat, x: int)
    ensures HomeCountMismatch(id, k, x) in TallyErrors(cfg, ms, clubs) <==>
              HasId(clubs, id) && k == HomeTally(ms, id) && k != cfg.homeMatchesPerClub && x == cfg.homeMatchesPerClub
    ensures AwayCountMismatch(id, k, x) in TallyErrors(cfg, ms, clubs) <==>
              HasId(clubs, id) && k == AwayTally(ms, id) && k != cfg.awayMatchesPerClub && x == cfg.awayMatchesPerClub
  {
    if clubs != [] {
      var init, c := clubs[..|clubs| - 1], clubs[|clubs| - 1];
      assert clubs == init + [c];
      TallyErrorsMeaning(cfg, ms, init, id, k, x);
      assert forall y :: y in clubs <==> y in init || y == c;
    }
  }

  /** On the drawn clubs, no tally entry at all is the `home_away_balance` rule. */
  lemma TallyErrorsAgreeWithBalance(cfg: Config, ms: seq<Match>)
    ensures TallyErrors(cfg, ms, AllClubs(ms)) == [] <==> HomeAwayBalanceHolds(cfg, ms)
  {
    var clubs := AllClubs(ms);
    if TallyErrors(cfg, ms, clubs) == [] {
      forall x | x in clubs ensures ClubBalanceOk(cfg, ms, x) {
        TalliesAreDrawCounts(ms, x);
        TallyErrorsMeaning(cfg, ms, clubs, x.id, HomeTally(ms, x.id), cfg.homeMatchesPerClub);
        TallyErrorsMeaning(cfg, ms, clubs, x.id, AwayTally(ms, x.id), cfg.awayMatchesPerClub);
      }
    } else {
      var e := TallyErrors(cfg, ms, clubs)[0];
      assert e in TallyErrors(cfg, ms, clubs);
      TallyErrorsKinds(cfg, ms, clubs, e);
      var x :| x in clubs && (e == HomeCountMismatch(x.id, HomeTally(ms, x.id), cfg.homeMatchesPerClub)
                              || e == AwayCountMismatch(x.id, AwayTally(ms, x.id), cfg.awayMatchesPerClub));
      TallyErrorsMeaning(cfg, ms, clubs, x.id, e.count, e.expected);
      TalliesAreDrawCounts(ms, x);
      assert !ClubBalanceOk(cfg, ms, x);
    }
  }

  lemma {:induction false} TallyErrorsKinds(cfg: Config, ms: seq<Match>, clubs: seq<Club>, e: ValidationError)
    requires e in TallyErrors(cfg, ms, clubs)
    ensures exists x :: x in clubs && (e == HomeCountMismatch(x.id, HomeTally(ms, x.id), cfg.homeMatchesPerClub)
                                       || e == AwayCountMismatch(x.id, AwayTally(ms, x.id), cfg.awayMatchesPerClub))
  {
    var init, c := clubs[..|clubs| - 1], clubs[|clubs| - 1];
    assert clubs == init + [c];
    if e in TallyErrors(cfg, ms, init) {
      TallyErrorsKinds(cfg, ms, init, e);
      var x :| x in init && (e == HomeCountMismatch(x.id, HomeTally(ms, x.id), cfg.homeMatchesPerClub)
                             || e == AwayCountMismatch(x.id, AwayTally(ms, x.id), cfg.awayMatchesPerClub));
      assert x in clubs;
    } else {
      assert c in clubs;
    }
  }

  // ---------------------------------------------------------------------
  // The whole structural layer and the three layers together

  /** `_check_internal_consistency`, in the order its loops append. */
  function InternalErrors(cfg: Config, ms: seq<Match>): seq<ValidationError>
  {
    MatchErrors(cfg, ms) + TotalErrors(cfg, ms) + DayErrors(cfg, ms, AllClubs(ms))
    + PairErrors(ms, PairKeys(ms)) + TallyErrors(cfg, ms, AllClubs(ms))
  }

  /** The one error entry for the hard rules, present only when some fail. */
  function HardEntry(names: seq<string>): seq<ValidationError>
  {
    if names == [] then [] else [HardViolated(names)]
  }

  function SoftEntry(names: seq<string>): seq<ValidationWarning>
  {
    if names == [] then [] else [SoftViolated(names)]
  }

  predicate IsHardEntry(e: ValidationError)
  {
    e.HardViolated?
  }

  lemma {:induction false} NoHardEntryInMatchErrors(cfg: Config, ms: seq<Match>)
    ensures forall e :: e in MatchErrors(cfg, ms) ==> !e.HardViolated?
  {
    if ms != [] {
      NoHardEntryInMatchErrors(cfg, ms[..|ms| - 1]);
    }
  }

  lemma {:induction false} NoHardEntryInDayErrors(cfg: Config, ms: seq<Match>, clubs: seq<Club>)
    ensures forall e :: e in DayErrors(cfg, ms, clubs) ==> e.DayCountMismatch?
  {
    if clubs != [] {
      NoHardEntryInDayErrors(cfg, ms, clubs[..|clubs| - 1]);
      forall e | e in ClubDayErrors(ms, clubs[|clubs| - 1].id, cfg.journees) ensures e.DayCountMismatch? {
        ClubDayErrorsMeaning(ms, clubs[|clubs| - 1].id, cfg.journees, e);
      }
    }
  }

  lemma {:induction false} NoHardEntryInPairErrors(ms: seq<Match>, keys: seq<(string, string)>)
    ensures forall e :: e in PairErrors(ms, keys) ==> e.PairReplayed?
  {
    if keys != [] {
      NoHardEntryInPairErrors(ms, keys[..|keys| - 1]);
    }
  }

  lemma {:induction false} NoHardEntryInTallyErrors(cfg: Config, ms: seq<Match>, clubs: seq<Club>)
    ensures forall e :: e in TallyErrors(cfg, ms, clubs) ==> e.HomeCountMismatch? || e.AwayCountMismatch?
  {
    if clubs != [] {
      NoHardEntryInTallyErrors(cfg, ms, clubs[..|clubs| - 1]);
    }
  }

  lemma NoHardEntryInParts(m: seq<ValidationError>, t: seq<ValidationError>, d: seq<ValidationError>,
                           p: seq<ValidationError>, y: seq<ValidationError>)
    requires forall e :: e in m ==> !e.HardViolated?
    requires forall e :: e in t ==> e.TotalMismatch?
    requires forall e :: e in d ==> e.DayCountMismatch?
    requires forall e :: e in p ==> e.PairReplayed?
    requires forall e :: e in y ==> e.HomeCountMismatch? || e.AwayCountMismatch?
    ensures forall e :: e in m + t + d + p + y ==> !IsHardEntry(e)
  {
  }

  /** The structural layer never produces a hard-rule entry. */
  lemma InternalHasNoHardEntry(cfg: Config, ms: seq<Match>)
    ensures forall e :: e in InternalErrors(cfg, ms) ==> !IsHardEntry(e)
  {
    var clubs := AllClubs(ms);
    NoHardEntryInMatchErrors(cfg, ms);
    NoHardEntryInDayErrors(cfg, ms, clubs);
    NoHardEntryInPairErrors(ms, PairKeys(ms));
    NoHardEntryInTallyErrors(cfg, ms, clubs);
    NoHardEntryInParts(MatchErrors(cfg, ms), TotalErrors(cfg, ms), DayErrors(cfg, ms, clubs),
      PairErrors(ms, PairKeys(ms)), TallyErrors(cfg, ms, clubs));
  }

  /** The errors of `validate`: the structural ones followed by the hard-rule
      entry. The hard rules give exactly one entry when any of them fails and
      none otherwise. */
  lemma HardRulesOneEntry(cfg: Config, ms: seq<Match>, hardNames: seq<string>)
    ensures Count(IsHardEntry, InternalErrors(cfg, ms) + HardEntry(hardNames)) == (if hardNames == [] then 0 else 1)
  {
    var ie := InternalErrors(cfg, ms);
    InternalHasNoHardEntry(cfg, ms);
    FilterNone(IsHardEntry, ie);
    FilterAppend(IsHardEntry, ie, HardEntry(hardNames));
    if hardNames != [] {
      assert HardEntry(hardNames) == [] + [HardViolated(hardNames)];
      FilterSnoc(IsHardEntry, [], HardViolated(hardNames));
    }
  }

  /** The soft rule only ever adds the one warning naming it. */
  lemma SoftNamesOverRegistry(cfg: Config, ms: seq<Match>)
    ensures SoftEntry(ViolatedNames(cfg, BySeverity(Registry(), "soft"), ms)) ==
              if Eval(cfg, NoConsecutiveMatches, ms) then [] else [SoftViolated(["no_consecutive_matches"])]
  {
    var r := Registry();
    RegistrySplit();
    var c := r[7];
    assert r[7..] == [c];
    OneRuleNames(cfg, c, ms);
    assert c == Constraint("no_consecutive_matches", Unary, NoConsecutiveMatches, "soft");
    var names := ViolatedNames(cfg, BySeverity(r, "soft"), ms);
    assert names == ViolatedNames(cfg, [c], ms);
    var holds := Eval(cfg, NoConsecutiveMatches, ms);
    assert c.rule == NoConsecutiveMatches;
    assert names == if holds then [] else ["no_consecutive_matches"];
  }

  lemma OneRuleNames(cfg: Config, c: Constraint, ms: seq<Match>)
    ensures ViolatedNames(cfg, [c], ms) == if Eval(cfg, c.rule, ms) then [] else [c.name]
  {
    assert [c][..0] == [];
  }

  /** A draw passes exactly when the structural layer is silent and the
      seven hard rules hold; whatever the soft rule says does not enter. */
  lemma VerdictOverRegistry(cfg: Config, ms: seq<Match>, internal: seq<ValidationError>)
    ensures internal + HardEntry(ViolatedNames(cfg, BySeverity(Registry(), "hard"), ms)) == [] <==>
              internal == [] && forall c :: c in Registry()[..7] ==> Eval(cfg, c.rule, ms)
  {
    RegistrySplit();
    var h := HardEntry(ViolatedNames(cfg, BySeverity(Registry(), "hard"), ms));
    assert |internal + h| == |internal| + |h|;
  }

  /** What `validate` reports, once its rule set is the registered one. */
  lemma RegistryVerdict(cfg: Config, cs: seq<Constraint>, ms: seq<Match>, ok: bool, errors: seq<ValidationError>,
                        warnings: seq<ValidationWarning>)
    requires cs == Registry()
    requires errors == InternalErrors(cfg, ms) + HardEntry(ViolatedNames(cfg, BySeverity(cs, "hard"), ms))
    requires warnings == SoftEntry(ViolatedNames(cfg, BySeverity(cs, "soft"), ms))
    requires ok <==> errors == []
    ensures ok <==> InternalErrors(cfg, ms) == [] && forall c :: c in Registry()[..7] ==> Eval(cfg, c.rule, ms)
    ensures warnings == if Eval(cfg, NoConsecutiveMatches, ms) then [] else [SoftViolated(["no_consecutive_matches"])]
  {
    VerdictOverRegistry(cfg, ms, InternalErrors(cfg, ms));
    SoftNamesOverRegistry(cfg, ms);
  }

  /** A silent structural layer already gives the `total_matches` and
      `home_away_balance` rules: those two hard rules are checked twice. */
  lemma StructureGivesTotalAndBalance(cfg: Config, ms: seq<Match>)
    requires InternalErrors(cfg, ms) == []
    ensures TotalMatchesHolds(cfg, ms) && HomeAwayBalanceHolds(cfg, ms)
  {
    TallyErrorsAgreeWithBalance(cfg, ms);
  }

  // ---------------------------------------------------------------------
  // The validator

  class DrawValidator {
    const rules: UCLConstraints

    /** The rule set is the registered one, as the constructor leaves it. */
    ghost predicate Valid()
      reads this, rules
    {
      rules.constraints == Registry()
    }

    constructor (cfg: Config)
      ensures fresh(rules) && rules.cfg == cfg && rules.constraints == Registry()
      ensures Valid()
    {
      rules := new UCLConstraints(cfg);
    }

    /** `_check_internal_consistency`: four counter dicts filled in one pass,
        then the entries appended loop by loop. The clubs are visited in the
        order of `AllClubs`. */
    method CheckInternalConsistency(d: Draw) returns (errors: seq<ValidationError>)
      ensures errors == InternalErrors(rules.cfg, d.matches)
    {
      var cfg := rules.cfg;
      var clubs := d.GetAllClubs();
      var ms := d.matches;
      assert clubs == AllClubs(ms);
      errors := AppendMatchErrors([], cfg, ms);
      assert errors == MatchErrors(cfg, ms);
      var expected := ExpectedTotalMatches(cfg);
      if |ms| != expected {
        errors := errors + [TotalMismatch(|ms|, expected)];
      }
      assert errors == MatchErrors(cfg, ms) + TotalErrors(cfg, ms);
      var perDay, pairDays, pairOrder, homeCount, awayCount := CountSides(ms);
      errors := AppendDayErrors(errors, cfg, ms, clubs, perDay);
      errors := AppendPairErrors(errors, ms, pairOrder, pairDays);
      errors := AppendTallyErrors(errors, cfg, ms, clubs, homeCount, awayCount);
    }

    /** The three layers of `validate`, over whatever rule set the validator
        holds. */
    method RunLayers(d: Draw) returns (ok: bool, errors: seq<ValidationError>, warnings: seq<ValidationWarning>)
      ensures errors == InternalErrors(rules.cfg, d.matches)
                        + HardEntry(ViolatedNames(rules.cfg, BySeverity(rules.constraints, "hard"), d.matches))
      ensures warnings == SoftEntry(ViolatedNames(rules.cfg, BySeverity(rules.constraints, "soft"), d.matches))
      ensures ok <==> errors == []
    {
      errors := CheckInternalConsistency(d);
      var hardOk, hardViolated := rules.VerifyHardConstraints(d);
      if !hardOk {
        errors := errors + [HardViolated(hardViolated)];
      }
      // the comprehension over the soft rules keeps the names of those not satisfied
      var _, softViolated := rules.VerifyList(rules.GetSoftConstraints(), d);
      warnings := if softViolated != [] then [SoftViolated(softViolated)] else [];
      ok := |errors| == 0;
    }

    /** `validate`: `ok` is exactly the absence of errors, that is a silent
        structural layer and all seven hard rules holding; the soft rule only
        ever produces its one warning. */
    method Validate(d: Draw) returns (ok: bool, errors: seq<ValidationError>, warnings: seq<ValidationWarning>)
      requires Valid()
      ensures errors == InternalErrors(rules.cfg, d.matches)
                        + HardEntry(ViolatedNames(rules.cfg, BySeverity(rules.constraints, "hard"), d.matches))
      ensures warnings == SoftEntry(ViolatedNames(rules.cfg, BySeverity(rules.constraints, "soft"), d.matches))
      ensures ok <==> errors == []
      ensures ok <==> InternalErrors(rules.cfg, d.matches) == []
                      && forall c :: c in Registry()[..7] ==> Eval(rules.cfg, c.rule, d.matches)
      ensures warnings == if Eval(rules.cfg, NoConsecutiveMatches, d.matches) then []
                          else [SoftViolated(["no_consecutive_matches"])]
    {
      ok, errors, warnings := RunLayers(d);
      RegistryVerdict(rules.cfg, rules.constraints, d.matches, ok, errors, warnings);
    }
  }

  /** Check a): one pass over the matches. */
  method AppendMatchErrors(errors: seq<ValidationError>, cfg: Config, ms: seq<Match>)
    returns (r: seq<ValidationError>)
    ensures r == errors + MatchErrors(cfg, ms)
  {
    r := errors;
    for i := 0 to |ms|
      invariant r == errors + MatchErrors(cfg, ms[..i])
    {
      var m := ms[i];
      assert ms[..i + 1][..i] == ms[..i];
      if m.home.id == m.away.id {
        r := r + [SelfMatch(m.home.id, m.journee)];
      }
      if !(1 <= m.journee <= cfg.journees) {
        r := r + [DayOutOfBounds(m.journee, m.home.id, m.away.id)];
      }
    }
    assert ms[..|ms|] == ms;
  }

  /** The entries of one club, rounds 1..n, read from the counters. */
  method AppendClubDayErrors(errors: seq<ValidationError>, ms: seq<Match>, id: string, n: int,
                             perDay: map<(string, int), nat>)
    returns (r: seq<ValidationError>)
    requires DayCounters(perDay, ms)
    ensures r == errors + ClubDayErrors(ms, id, n)
  {
    r := errors;
    var day := 1;
    while day <= n
      invariant 1 <= day && (day <= n + 1 || day == 1)
      invariant r == errors + ClubDayErrors(ms, id, day - 1)
    {
      var count := Lookup(perDay, (id, day), 0);
      if count != 1 {
        r := r + [DayCountMismatch(id, day, count)];
      }
      day := day + 1;
    }
  }

  /** Check c): every drawn club and every configured round. */
  method AppendDayErrors(errors: seq<ValidationError>, cfg: Config, ms: seq<Match>, clubs: seq<Club>,
                         perDay: map<(string, int), nat>)
    returns (r: seq<ValidationError>)
    requires DayCounters(perDay, ms)
    ensures r == errors + DayErrors(cfg, ms, clubs)
  {
    r := errors;
    for ci := 0 to |clubs|
      invariant r == errors + DayErrors(cfg, ms, clubs[..ci])
    {
      assert clubs[..ci + 1][..ci] == clubs[..ci];
      r := AppendClubDayErrors(r, ms, clubs[ci].id, cfg.journees, perDay);
    }
    assert clubs[..|clubs|] == clubs;
  }

  /** The pair part of check c), in `pair_days` insertion order. */
  method AppendPairErrors(errors: seq<ValidationError>, ms: seq<Match>, pairOrder: seq<(string, string)>,
                          pairDays: map<(string, string), set<int>>)
    returns (r: seq<ValidationError>)
    requires forall k :: k in pairOrder ==> k in pairDays && pairDays[k] == PairDays(ms, k)
    ensures r == errors + PairErrors(ms, pairOrder)
  {
    r := errors;
    for pi := 0 to |pairOrder|
      invariant r == errors + PairErrors(ms, pairOrder[..pi])
    {
      assert pairOrder[..pi + 1][..pi] == pairOrder[..pi];
      var k := pairOrder[pi];
      var days := pairDays[k];
      if |days| > 1 {
        r := r + [PairReplayed(k.0, k.1, days)];
      }
    }
    assert pairOrder[..|pairOrder|] == pairOrder;
  }

  /** The home and away entries of one club, read from the counters. */
  method AppendClubTallyErrors(errors: seq<ValidationError>, cfg: Config, ms: seq<Match>, id: string,
                               homeCount: map<string, nat>, awayCount: map<string, nat>)
    returns (r: seq<ValidationError>)
    requires VenueCounters(homeCount, awayCount, ms)
    ensures r == errors
                 + (if HomeTally(ms, id) != cfg.homeMatchesPerClub
                    then [HomeCountMismatch(id, HomeTally(ms, id), cfg.homeMatchesPerClub)] else [])
                 + (if AwayTally(ms, id) != cfg.awayMatchesPerClub
                    then [AwayCountMismatch(id, AwayTally(ms, id), cfg.awayMatchesPerClub)] else [])
  {
    r := errors;
    var home := Lookup(homeCount, id, 0);
    if home != cfg.homeMatchesPerClub {
      r := r + [HomeCountMismatch(id, home, cfg.homeMatchesPerClub)];
    }
    var away := Lookup(awayCount, id, 0);
    if away != cfg.awayMatchesPerClub {
      r := r + [AwayCountMismatch(id, away, cfg.awayMatchesPerClub)];
    }
  }

  /** Check d): the home and away tallies of every drawn club. */
  method AppendTallyErrors(errors: seq<ValidationError>, cfg: Config, ms: seq<Match>, clubs: seq<Club>,
                           homeCount: map<string, nat>, awayCount: map<string, nat>)
    returns (r: seq<ValidationError>)
    requires VenueCounters(homeCount, awayCount, ms)
    ensures r == errors + TallyErrors(cfg, ms, clubs)
  {
    r := errors;
    for ci := 0 to |clubs|
      invariant r == errors + TallyErrors(cfg, ms, clubs[..ci])
    {
      assert clubs[..ci + 1][..ci] == clubs[..ci];
      r := AppendClubTallyErrors(r, cfg, ms, clubs[ci].id, homeCount, awayCount);
    }
    assert clubs[..|clubs|] == clubs;
  }

  /** `per_day_per_club` after the matches `ms`. */
  ghost predicate DayCounters(perDay: map<(string, int), nat>, ms: seq<Match>)
  {
    forall id, d :: Lookup(perDay, (id, d), 0) == DayCount(ms, id, d)
  }

  /** `pair_days` after the matches `ms`, with its keys in insertion order. */
  ghost predicate PairCounters(pairDays: map<(string, string), set<int>>, pairOrder: seq<(string, string)>, ms: seq<Match>)
  {
    pairOrder == PairKeys(ms)
    && (forall k :: k in pairDays <==> k in pairOrder)
    && (forall k :: k in pairDays ==> pairDays[k] == PairDays(ms, k))
  }

  /** `home_count` and `away_count` after the matches `ms`. */
  ghost predicate VenueCounters(homeCount: map<string, nat>, awayCount: map<string, nat>, ms: seq<Match>)
  {
    (forall id :: Lookup(homeCount, id, 0) == HomeTally(ms, id))
    && (forall id :: Lookup(awayCount, id, 0) == AwayTally(ms, id))
  }

  lemma DayCountersStep(perDay: map<(string, int), nat>, ms: seq<Match>, m: Match)
    requires DayCounters(perDay, ms)
    ensures var p1 := perDay[(m.home.id, m.journee) := Lookup(perDay, (m.home.id, m.journee), 0) + 1];
            DayCounters(p1[(m.away.id, m.journee) := Lookup(p1, (m.away.id, m.journee), 0) + 1], ms + [m])
  {
    assert (ms + [m])[..|ms|] == ms;
  }

  lemma PairCountersStep(pairDays: map<(string, string), set<int>>, pairOrder: seq<(string, string)>,
                         ms: seq<Match>, m: Match)
    requires PairCounters(pairDays, pairOrder, ms)
    ensures var k := PairKey(m);
            var pd := if k in pairDays then pairDays else pairDays[k := {}];
            var po := if k in pairDays then pairOrder else pairOrder + [k];
            PairCounters(pd[k := pd[k] + {m.journee}], po, ms + [m])
  {
    var ms' := ms + [m];
    assert ms'[..|ms|] == ms && ms'[|ms|] == m;
    var k0 := PairKey(m);
    var pd := if k0 in pairDays then pairDays else pairDays[k0 := {}];
    var po := if k0 in pairDays then pairOrder else pairOrder + [k0];
    var fin := pd[k0 := pd[k0] + {m.journee}];
    assert PairKeys(ms') == po;
    forall k ensures k in fin <==> k in po {
      assert k in po <==> k in pairOrder || k == k0;
    }
    if k0 !in pairDays {
      PairDaysOfUnseenKey(ms, k0);
    }
    forall k | k in fin ensures fin[k] == PairDays(ms', k) {
      assert PairDays(ms', k) == PairDays(ms, k) + (if k0 == k then {m.journee} else {});
    }
  }

  lemma VenueCountersStep(homeCount: map<string, nat>, awayCount: map<string, nat>, ms: seq<Match>, m: Match)
    requires VenueCounters(homeCount, awayCount, ms)
    ensures VenueCounters(homeCount[m.home.id := Lookup(homeCount, m.home.id, 0) + 1],
                          awayCount[m.away.id := Lookup(awayCount, m.away.id, 0) + 1], ms + [m])
  {
    var ms' := ms + [m];
    assert ms'[..|ms|] == ms && ms'[|ms|] == m;
    var h := homeCount[m.home.id := Lookup(homeCount, m.home.id, 0) + 1];
    var a := awayCount[m.away.id := Lookup(awayCount, m.away.id, 0) + 1];
    forall id ensures Lookup(h, id, 0) == HomeTally(ms', id) && Lookup(a, id, 0) == AwayTally(ms', id) {
      assert HomeTally(ms', id) == HomeTally(ms, id) + (if m.home.id == id then 1 else 0);
      assert AwayTally(ms', id) == AwayTally(ms, id) + (if m.away.id == id then 1 else 0);
    }
  }

  /** The one loop of `_check_internal_consistency` that fills the
      `per_day_per_club`, `pair_days`, `home_count` and `away_count` dicts;
      `pairOrder` is the insertion order of `pair_days`. */
  method CountSides(ms: seq<Match>)
    returns (perDay: map<(string, int), nat>, pairDays: map<(string, string), set<int>>,
             pairOrder: seq<(string, string)>, homeCount: map<string, nat>, awayCount: map<string, nat>)
    ensures DayCounters(perDay, ms)
    ensures PairCounters(pairDays, pairOrder, ms)
    ensures VenueCounters(homeCount, awayCount, ms)
  {
    perDay, pairDays, pairOrder, homeCount, awayCount := map[], map[], [], map[], map[];
    var i := 0;
    while i < |ms|
      invariant 0 <= i <= |ms|
      invariant DayCounters(perDay, ms[..i])
      invariant PairCounters(pairDays, pairOrder, ms[..i])
      invariant VenueCounters(homeCount, awayCount, ms[..i])
    {
      var m := ms[i];
      assert ms[..i + 1] == ms[..i] + [m];
      DayCountersStep(perDay, ms[..i], m);
      PairCountersStep(pairDays, pairOrder, ms[..i], m);
      VenueCountersStep(homeCount, awayCount, ms[..i], m);
      perDay := perDay[(m.home.id, m.journee) := Lookup(perDay, (m.home.id, m.journee), 0) + 1];
      perDay := perDay[(m.away.id, m.journee) := Lookup(perDay, (m.away.id, m.journee), 0) + 1];
      var key := PairKey(m);
      if key !in pairDays {
        pairDays := pairDays[key := {}];
        pairOrder := pairOrder + [key];
      }
      pairDays := pairDays[key := pairDays[key] + {m.journee}];
      homeCount := homeCount[m.home.id := Lookup(homeCount, m.home.id, 0) + 1];
      awayCount := awayCount[m.away.id := Lookup(awayCount, m.away.id, 0) + 1];
      i := i + 1;
    }
    assert ms[..|ms|] == ms;
  }
}
