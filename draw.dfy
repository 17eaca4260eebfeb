/** The draw of the league phase: the list of its matches, the duplicate-
    rejecting insertion, and the queries every rule and check is built from.
    The list-comprehension queries are functions of the match list; the
    operations that fill a set, a dict or the list itself in a loop are
    methods of the `Draw` class. */
module Draws {
  import opened Wrappers
  import opened Seqs
  import opened Text
  import opened JsonValues
  import opened Clubs
  import opened Matches

  datatype DrawError = DuplicateMatch(m: Match) | DayOutOfRange(journee: int)

  // ---------------------------------------------------------------------
  // Order-preserving filters of the match list

  /** `get_matches_for_club`. */
  function ClubMatches(ms: seq<Match>, c: Club): (r: seq<Match>)
    ensures forall m :: m in r <==> m in ms && Involves(m, c)
  {
    Filter((m: Match) => Involves(m, c), ms)
  }

  /** `get_home_matches_for_club`: the home side equals the club by id. */
  function HomeMatches(ms: seq<Match>, c: Club): (r: seq<Match>)
    ensures forall m :: m in r <==> m in ms && SameClub(m.home, c)
  {
    Filter((m: Match) => SameClub(m.home, c), ms)
  }

  /** `get_away_matches_for_club`. */
  function AwayMatches(ms: seq<Match>, c: Club): (r: seq<Match>)
    ensures forall m :: m in r <==> m in ms && SameClub(m.away, c)
  {
    Filter((m: Match) => SameClub(m.away, c), ms)
  }

  /** The matches of round `j`, whatever `j` is. */
  function DayMatches(ms: seq<Match>, j: int): (r: seq<Match>)
    ensures forall m :: m in r <==> m in ms && m.journee == j
  {
    Filter((m: Match) => m.journee == j, ms)
  }

  /** One more match at the end of the list. */
  lemma DayMatchesSnoc(ms: seq<Match>, m: Match, j: int)
    ensures DayMatches(ms + [m], j) == DayMatches(ms, j) + (if m.journee == j then [m] else [])
  {
    FilterSnoc((m: Match) => m.journee == j, ms, m);
  }

  /** `get_matches_by_journee`: rounds outside 1..8 are refused. */
  function MatchesOnDay(ms: seq<Match>, j: int): (r: Result<seq<Match>, DrawError>)
    ensures r.Err? <==> !(FirstJournee <= j <= LastJournee)
    ensures r.Err? ==> r.error == DayOutOfRange(j)
    ensures r.Ok? ==> forall m :: m in r.value <==> m in ms && m.journee == j
  {
    if !(FirstJournee <= j <= LastJournee) then Err(DayOutOfRange(j))
    else Ok(DayMatches(ms, j))
  }

  /** The four queries keep the relative order of the list: the answer for a
      concatenation is the concatenation of the answers. */
  lemma QueriesDistribute(a: seq<Match>, b: seq<Match>, c: Club, j: int)
    ensures ClubMatches(a + b, c) == ClubMatches(a, c) + ClubMatches(b, c)
    ensures HomeMatches(a + b, c) == HomeMatches(a, c) + HomeMatches(b, c)
    ensures AwayMatches(a + b, c) == AwayMatches(a, c) + AwayMatches(b, c)
    ensures DayMatches(a + b, j) == DayMatches(a, j) + DayMatches(b, j)
  {
    FilterAppend((m: Match) => Involves(m, c), a, b);
    FilterAppend((m: Match) => SameClub(m.home, c), a, b);
    FilterAppend((m: Match) => SameClub(m.away, c), a, b);
    FilterAppend((m: Match) => m.journee == j, a, b);
  }

  /** In a list of matches none of which pairs a club with itself, every
      match of a club is either a home or an away match of it, never both:
      `get_number_of_home_matches_for_club` plus
      `get_number_of_away_matches_for_club` is
      `get_number_of_matches_for_club`. */
  lemma {:induction false} HomeAwaySplit(ms: seq<Match>, c: Club)
    requires forall m :: m in ms ==> !SameClub(m.home, m.away)
    ensures |HomeMatches(ms, c)| + |AwayMatches(ms, c)| == |ClubMatches(ms, c)|
  {
    if ms != [] {
      var init := ms[..|ms| - 1];
      assert forall m :: m in init ==> m in ms;
      HomeAwaySplit(init, c);
    }
  }

  // ---------------------------------------------------------------------
  // Sets of clubs: a Python set of clubs keeps, for each id, the first
  // club object added with that id.

  predicate HasId(cs: seq<Club>, id: string)
  {
    exists x :: x in cs && x.id == id
  }

  predicate DistinctIds(cs: seq<Club>)
  {
    forall i, j :: 0 <= i < j < |cs| ==> cs[i].id != cs[j].id
  }

  /** `set.add` on clubs: a club whose id is already present changes nothing. */
  function AddClub(cs: seq<Club>, c: Club): (r: seq<Club>)
    ensures DistinctIds(cs) ==> DistinctIds(r)
    ensures forall k :: HasId(r, k) <==> HasId(cs, k) || k == c.id
    ensures forall x :: x in r ==> x in cs || x == c
  {
    if HasId(cs, c.id) then cs else cs + [c]
  }

  /** The two `clubs.add` calls of `get_all_clubs` for one match. */
  function AddMatchClubs(cs: seq<Club>, m: Match): (r: seq<Club>)
    ensures DistinctIds(cs) ==> DistinctIds(r)
    ensures forall k :: HasId(r, k) <==> HasId(cs, k) || k == m.home.id || k == m.away.id
    ensures forall x :: x in r ==> x in cs || x == m.home || x == m.away
  {
    AddClub(AddClub(cs, m.home), m.away)
  }

  /** The clubs of `get_all_clubs`: each club playing in some match, once. */
  function AllClubs(ms: seq<Match>): (r: seq<Club>)
    ensures DistinctIds(r)
    ensures forall m :: m in ms ==> HasId(r, m.home.id) && HasId(r, m.away.id)
  {
    if ms == [] then []
    else
      var init := ms[..|ms| - 1];
      var m := ms[|ms| - 1];
      var prev := AllClubs(init);
      assert forall m' :: m' in ms ==> m' in init || m' == m;
      assert forall m' :: m' in init ==> m' in ms;
      AddMatchClubs(prev, m)
  }

  /** Conversely, every club of `get_all_clubs` is the home or away club of some match. */
  lemma {:induction false} AllClubsDrawn(ms: seq<Match>)
    ensures forall x :: x in AllClubs(ms) ==> exists m :: m in ms && (x == m.home || x == m.away)
  {
    if ms != [] {
      var init, m := ms[..|ms| - 1], ms[|ms| - 1];
      AllClubsDrawn(init);
      forall x | x in AllClubs(ms) ensures exists m' :: m' in ms && (x == m'.home || x == m'.away) {
        if x in AllClubs(init) {
          var m' :| m' in init && (x == m'.home || x == m'.away);
          assert m' in ms;
        } else {
          assert m in ms;
        }
      }
    }
  }

  // ---------------------------------------------------------------------
  // Opponents, deduplicated and sorted by id

  /** Strictly increasing ids: sorted, and no id twice. */
  predicate SortedById(s: seq<Club>)
  {
    forall i, j :: 0 <= i < j < |s| ==> IdLess(s[i].id, s[j].id)
  }

  lemma SortedCons(x: Club, s: seq<Club>)
    requires SortedById(s)
    requires forall y :: y in s ==> IdLess(x.id, y.id)
    ensures SortedById([x] + s)
  {
    forall i, j | 0 <= i < j < |[x] + s| ensures IdLess(([x] + s)[i].id, ([x] + s)[j].id) {
      if i > 0 {
        assert ([x] + s)[i] == s[i - 1] && ([x] + s)[j] == s[j - 1];
      } else {
        assert ([x] + s)[j] in s;
      }
    }
  }

  /** Inserts `x` before the first club whose id is greater. */
  function InsertById(s: seq<Club>, x: Club): (r: seq<Club>)
    ensures multiset(r) == multiset(s) + multiset{x}
  {
    if s == [] then [x]
    else if IdLess(x.id, s[0].id) then [x] + s
    else
      assert s == [s[0]] + s[1..];
      [s[0]] + InsertById(s[1..], x)
  }

  /** Inserting a club whose id is absent keeps a list sorted by id. */
  lemma {:induction false} InsertByIdSorted(s: seq<Club>, x: Club)
    requires SortedById(s) && !HasId(s, x.id)
    ensures SortedById(InsertById(s, x))
    decreases |s|
  {
    if s == [] {
    } else if IdLess(x.id, s[0].id) {
      forall y | y in s ensures IdLess(x.id, y.id) {
        var k :| 0 <= k < |s| && s[k] == y;
        if k > 0 { IdLessTransitive(x.id, s[0].id, y.id); }
      }
      SortedCons(x, s);
    } else {
      assert s[0].id != x.id;
      IdLessTotal(x.id, s[0].id);
      forall y | y in s[1..] ensures y.id != x.id {
        assert y in s;
      }
      assert SortedById(s[1..]) by {
        forall i, j | 0 <= i < j < |s| - 1 ensures IdLess(s[1..][i].id, s[1..][j].id) {
          assert s[1..][i] == s[i + 1] && s[1..][j] == s[j + 1];
        }
      }
      InsertByIdSorted(s[1..], x);
      var rest := InsertById(s[1..], x);
      forall y | y in rest ensures IdLess(s[0].id, y.id) {
        assert y in multiset(rest);
        if y != x {
          assert y in multiset(s[1..]);
          var k :| 0 <= k < |s[1..]| && s[1..][k] == y;
          assert s[k + 1] == y;
        }
      }
      SortedCons(s[0], rest);
    }
  }

  /** `sorted(..., key=lambda c: c.id)` of a set of clubs. */
  function SortById(s: seq<Club>): (r: seq<Club>)
    requires DistinctIds(s)
    ensures SortedById(r)
    ensures multiset(r) == multiset(s)
  {
    if s == [] then []
    else
      var init := s[..|s| - 1];
      var x := s[|s| - 1];
      var sorted := SortById(init);
      assert !HasId(sorted, x.id) by {
        forall y | y in sorted ensures y.id != x.id {
          assert y in multiset(init);
          var i :| 0 <= i < |init| && init[i] == y;
          assert s[i] == y;
        }
      }
      assert s == init + [x];
      InsertByIdSorted(sorted, x);
      InsertById(sorted, x)
  }

  /** The tail of a sorted list is sorted, and the head and the tail make up its elements. */
  lemma ConsParts(s: seq<Club>)
    requires SortedById(s) && s != []
    ensures SortedById(s[1..])
    ensures multiset(s[1..]) == multiset(s) - multiset{s[0]}
  {
    forall i, j | 0 <= i < j < |s| - 1 ensures IdLess(s[1..][i].id, s[1..][j].id) {
      assert s[1..][i] == s[i + 1] && s[1..][j] == s[j + 1];
    }
    assert s == [s[0]] + s[1..];
  }

  /** Two lists sorted by id with the same elements are the same list: any
      sorting of a set of clubs gives the order `SortById` gives. */
  lemma {:induction false} SortedUnique(a: seq<Club>, b: seq<Club>)
    requires SortedById(a) && SortedById(b) && multiset(a) == multiset(b)
    ensures a == b
  {
    if a != [] {
      assert b != [] by { assert a[0] in multiset(b); }
      assert a[0] in multiset(b) && b[0] in multiset(a);
      var j :| 0 <= j < |b| && b[j] == a[0];
      var i :| 0 <= i < |a| && a[i] == b[0];
      assert a[0] == b[0] by {
        if i > 0 && j > 0 {
          IdLessAsymmetric(a[0].id, b[0].id);
          assert false;
        }
      }
      ConsParts(a);
      ConsParts(b);
      assert multiset(a[1..]) == multiset(b[1..]);
      SortedUnique(a[1..], b[1..]);
    }
  }

  /** The set `get_opponents_for_club` fills, in the order clubs are first
      added: the opponent in each of `cms`, a `None` skipped. */
  function CollectOpponents(cms: seq<Match>, c: Club): (r: seq<Club>)
    ensures DistinctIds(r)
    ensures forall m :: m in cms && Involves(m, c) ==> HasId(r, OpponentOf(m, c).value.id)
  {
    if cms == [] then []
    else
      var init := cms[..|cms| - 1];
      assert forall m :: m in init ==> m in cms;
      var acc := CollectOpponents(init, c);
      match OpponentOf(cms[|cms| - 1], c)
      case None => acc
      case Some(o) => AddClub(acc, o)
  }

  lemma {:induction false} CollectOpponentsDrawn(cms: seq<Match>, c: Club)
    ensures forall x :: x in CollectOpponents(cms, c) ==> exists m :: m in cms && OpponentOf(m, c) == Some(x)
  {
    if cms != [] {
      var init, m := cms[..|cms| - 1], cms[|cms| - 1];
      CollectOpponentsDrawn(init, c);
      forall x | x in CollectOpponents(cms, c) ensures exists m' :: m' in cms && OpponentOf(m', c) == Some(x) {
        if x in CollectOpponents(init, c) {
          var m' :| m' in init && OpponentOf(m', c) == Some(x);
          assert m' in cms;
        } else {
          assert m in cms;
        }
      }
    }
  }

  /** `get_opponents_for_club`: every opponent the club meets, once, sorted by id. */
  function Opponents(ms: seq<Match>, c: Club): (r: seq<Club>)
    ensures SortedById(r)
    ensures forall m :: m in ms && Involves(m, c) ==> HasId(r, OpponentOf(m, c).value.id)
  {
    var set_ := CollectOpponents(ClubMatches(ms, c), c);
    var r := SortById(set_);
    assert forall x :: x in r <==> x in set_ by {
      forall x ensures x in r <==> x in set_ {
        assert x in r <==> x in multiset(r);
      }
    }
    r
  }

  /** Every listed opponent is the opponent of the club in some match. */
  lemma OpponentsDrawn(ms: seq<Match>, c: Club)
    ensures forall x :: x in Opponents(ms, c) ==> exists m :: m in ms && OpponentOf(m, c) == Some(x)
  {
    var set_ := CollectOpponents(ClubMatches(ms, c), c);
    CollectOpponentsDrawn(ClubMatches(ms, c), c);
    forall x | x in Opponents(ms, c) ensures exists m :: m in ms && OpponentOf(m, c) == Some(x) {
      assert x in multiset(SortById(set_));
      assert x in set_;
      var m :| m in ClubMatches(ms, c) && OpponentOf(m, c) == Some(x);
    }
  }
  /** An id is among the opponents of `c` exactly when some match of `c`
      puts a club with that id on the other side. */
  lemma OpponentIds(ms: seq<Match>, c: Club, id: string)
    ensures HasId(Opponents(ms, c), id) <==>
            exists m :: m in ms && Involves(m, c) && OpponentOf(m, c).value.id == id
  {
    if HasId(Opponents(ms, c), id) {
      var x :| x in Opponents(ms, c) && x.id == id;
      OpponentsDrawn(ms, c);
      var m :| m in ms && OpponentOf(m, c) == Some(x);
      assert Involves(m, c);
    }
  }


  // ---------------------------------------------------------------------
  // Same-country clashes

  /** The matches in which `c` meets `o` (`m.opponent_of(club) == opponent`). */
  function MatchesAgainst(ms: seq<Match>, c: Club, o: Club): (r: seq<Match>)
    ensures forall m :: m in r <==> m in ms && Involves(m, c) && SameClub(OpponentOf(m, c).value, o)
  {
    Filter((m: Match) => Involves(m, c) && SameClub(OpponentOf(m, c).value, o), ms)
  }

  /** The clubs of `os` from country `p`, in their order. */
  function SameCountry(os: seq<Club>, p: string): (r: seq<Club>)
    ensures forall x :: x in r <==> x in os && x.pays == p
  {
    Filter((o: Club) => o.pays == p, os)
  }

  lemma SameCountrySnoc(os: seq<Club>, x: Club, p: string)
    ensures SameCountry(os + [x], p) == SameCountry(os, p) + (if x.pays == p then [x] else [])
  {
    FilterSnoc((o: Club) => o.pays == p, os, x);
  }

  /** A list sorted by id repeats no id. */
  lemma SortedDistinct(s: seq<Club>)
    requires SortedById(s)
    ensures DistinctIds(s)
  {
    forall i, j | 0 <= i < j < |s| ensures s[i].id != s[j].id {
      IdLessIrreflexive(s[i].id);
    }
  }

  /** Keeping the clubs of one country keeps the ids distinct. */
  lemma {:induction false} SameCountryDistinct(os: seq<Club>, p: string)
    requires DistinctIds(os)
    ensures DistinctIds(SameCountry(os, p))
  {
    if os != [] {
      var init, x := os[..|os| - 1], os[|os| - 1];
      assert os == init + [x];
      assert DistinctIds(init) by {
        forall i, j | 0 <= i < j < |init| ensures init[i].id != init[j].id {
          assert init[i] == os[i] && init[j] == os[j];
        }
      }
      SameCountryDistinct(init, p);
      SameCountrySnoc(init, x, p);
      var f := SameCountry(init, p);
      forall y | y in f ensures y.id != x.id {
        var k :| 0 <= k < |init| && init[k] == y;
        assert os[k] == y;
      }
      if x.pays == p {
        var g := f + [x];
        forall i, j | 0 <= i < j < |g| ensures g[i].id != g[j].id {
          if j == |f| {
            assert g[i] in f;
          } else {
            assert g[i] == f[i] && g[j] == f[j];
          }
        }
      }
    }
  }

  /** The clashes listed for the opponents `os`: one pair for each opponent of
      `c`'s country, in the order of `os`, with its number of matches. */
  function ClashesAmong(os: seq<Club>, ms: seq<Match>, c: Club): (r: seq<(Club, nat)>)
    ensures |r| == |SameCountry(os, c.pays)|
    ensures forall i :: 0 <= i < |r| ==>
              r[i] == (SameCountry(os, c.pays)[i], |MatchesAgainst(ms, c, SameCountry(os, c.pays)[i])|)
    ensures forall p :: p in r ==> p.0 in os && p.0.pays == c.pays && p.1 == |MatchesAgainst(ms, c, p.0)|
    ensures forall o :: o in os && o.pays == c.pays ==> (o, |MatchesAgainst(ms, c, o)|) in r
  {
    if os == [] then []
    else
      var init := os[..|os| - 1];
      var o := os[|os| - 1];
      assert os == init + [o];
      SameCountrySnoc(init, o, c.pays);
      ClashesAmong(init, ms, c) + (if o.pays == c.pays then [(o, |MatchesAgainst(ms, c, o)|)] else [])
  }

  /** One more opponent: its clash, if any, comes last. */
  lemma ClashesAmongStep(os: seq<Club>, i: nat, ms: seq<Match>, c: Club)
    requires i < |os|
    ensures ClashesAmong(os[..i + 1], ms, c)
            == ClashesAmong(os[..i], ms, c) + (if os[i].pays == c.pays then [(os[i], |MatchesAgainst(ms, c, os[i])|)] else [])
  {
    assert os[..i + 1][..i] == os[..i];
  }

  /** `get_country_clashes_for_club`: each same-country opponent, with the
      number of matches against it. */
  function CountryClashes(ms: seq<Match>, c: Club): (r: seq<(Club, nat)>)
    ensures forall p :: p in r ==> p.0 in Opponents(ms, c) && p.0.pays == c.pays
    ensures forall p :: p in r ==> p.1 == |MatchesAgainst(ms, c, p.0)| && p.1 >= 1
    ensures forall o :: o in Opponents(ms, c) && o.pays == c.pays ==> (o, |MatchesAgainst(ms, c, o)|) in r
    ensures |r| == |SameCountry(Opponents(ms, c), c.pays)|
    ensures forall i :: 0 <= i < |r| ==> r[i].0 == SameCountry(Opponents(ms, c), c.pays)[i]
    ensures forall i, j :: 0 <= i < j < |r| ==> r[i].0.id != r[j].0.id
  {
    ClashesPlayed(ms, c);
    ClashesDistinct(ms, c);
    ClashesAmong(Opponents(ms, c), ms, c)
  }

  lemma ClashesPlayed(ms: seq<Match>, c: Club)
    ensures forall p :: p in ClashesAmong(Opponents(ms, c), ms, c) ==> |MatchesAgainst(ms, c, p.0)| >= 1
  {
    OpponentsDrawn(ms, c);
    forall p | p in ClashesAmong(Opponents(ms, c), ms, c) ensures |MatchesAgainst(ms, c, p.0)| >= 1 {
      var m :| m in ms && OpponentOf(m, c) == Some(p.0);
      assert m in MatchesAgainst(ms, c, p.0);
    }
  }

  lemma ClashesDistinct(ms: seq<Match>, c: Club)
    ensures forall i, j :: 0 <= i < j < |ClashesAmong(Opponents(ms, c), ms, c)| ==>
              ClashesAmong(Opponents(ms, c), ms, c)[i].0.id != ClashesAmong(Opponents(ms, c), ms, c)[j].0.id
  {
    var os := Opponents(ms, c);
    var r := ClashesAmong(os, ms, c);
    var sc := SameCountry(os, c.pays);
    SortedDistinct(os);
    SameCountryDistinct(os, c.pays);
    forall i, j | 0 <= i < j < |r| ensures r[i].0.id != r[j].0.id {
      assert r[i].0 == sc[i] && r[j].0 == sc[j];
    }
  }

  /** Dropping the last club of a list with distinct ids: the rest keeps
      distinct ids, none of them the last club's. */
  lemma DistinctIdsInit(s: seq<Club>)
    requires DistinctIds(s) && s != []
    ensures DistinctIds(s[..|s| - 1])
    ensures forall y :: y in s[..|s| - 1] ==> y.id != s[|s| - 1].id
  {
    var init := s[..|s| - 1];
    forall i, j | 0 <= i < j < |init| ensures init[i].id != init[j].id {
      assert init[i] == s[i] && init[j] == s[j];
    }
    forall y | y in init ensures y.id != s[|s| - 1].id {
      var k :| 0 <= k < |init| && init[k] == y;
      assert s[k] == y;
    }
  }

  /** The ids of the clubs of `s`. */
  function IdSet(s: seq<Club>): set<string>
  {
    set x | x in s :: x.id
  }

  lemma IdSetLast(s: seq<Club>)
    requires s != []
    ensures IdSet(s) == IdSet(s[..|s| - 1]) + {s[|s| - 1].id}
  {
    assert s == s[..|s| - 1] + [s[|s| - 1]];
  }

  /** A list with distinct ids has as many distinct ids as elements. */
  lemma {:induction false} DistinctIdCount(s: seq<Club>)
    requires DistinctIds(s)
    ensures |IdSet(s)| == |s|
  {
    if s != [] {
      var init, x := s[..|s| - 1], s[|s| - 1];
      var before := IdSet(init);
      DistinctIdsInit(s);
      DistinctIdCount(init);
      IdSetLast(s);
      assert x.id !in before;
      assert |before + {x.id}| == |before| + 1;
    }
  }

  /** The length `_check_no_same_country_opponents` compares is the number of
      distinct opponents of `c`'s own country. */
  lemma ClashesCountSameCountryOpponents(ms: seq<Match>, c: Club)
    ensures |CountryClashes(ms, c)| == |IdSet(SameCountry(Opponents(ms, c), c.pays))|
  {
    var os := Opponents(ms, c);
    var sc := SameCountry(os, c.pays);
    SortedDistinct(os);
    SameCountryDistinct(os, c.pays);
    DistinctIdCount(sc);
  }

  /** `has_country_clash` as a relation: same country, and `c1` meets `c2`. */
  predicate CountryClash(ms: seq<Match>, c1: Club, c2: Club)
  {
    c1.pays == c2.pays
    && exists m :: m in ms && Involves(m, c1) && OpponentOf(m, c1).value.id == c2.id
  }

  // ---------------------------------------------------------------------
  // Insertion

  /** `match in matches`: some entry equals `m` as a directed match. */
  predicate Contains(ms: seq<Match>, m: Match)
  {
    exists k :: 0 <= k < |ms| && MatchEq(ms[k], m)
  }

  /** No two entries of the list are equal matches. */
  predicate NoDuplicates(ms: seq<Match>)
  {
    forall i, j :: 0 <= i < j < |ms| ==> !MatchEq(ms[i], ms[j])
  }

  /** `add_matches` from the list `cur`: the list reached and the outcome.
      Each match is checked against everything added so far, and the first
      duplicate stops the run with the earlier additions kept. */
  function AppendUnique(cur: seq<Match>, ms: seq<Match>): (r: (seq<Match>, Outcome<DrawError>))
    ensures r.1.Pass? ==> r.0 == cur + ms
    ensures r.1.Fail? ==>
              exists k :: 0 <= k < |ms| && r.0 == cur + ms[..k] && Contains(cur + ms[..k], ms[k])
                          && r.1.error == DuplicateMatch(ms[k])
    ensures NoDuplicates(cur) ==> NoDuplicates(r.0)
    ensures r.1.Pass? <==> forall k :: 0 <= k < |ms| ==> !Contains(cur + ms[..k], ms[k])
    decreases |ms|
  {
    if ms == [] then (cur, Pass)
    else if Contains(cur, ms[0]) then
      assert ms[..0] == [] && cur + ms[..0] == cur;
      (cur, Fail(DuplicateMatch(ms[0])))
    else
      var cur' := cur + [ms[0]];
      assert NoDuplicates(cur) ==> NoDuplicates(cur') by {
        if NoDuplicates(cur) {
          forall i, j | 0 <= i < j < |cur'| ensures !MatchEq(cur'[i], cur'[j]) {
            if j == |cur| {
              assert !MatchEq(cur[i], ms[0]);
            }
          }
        }
      }
      var r := AppendUnique(cur', ms[1..]);
      assert forall k :: 0 <= k < |ms| - 1 ==> cur' + ms[1..][..k] == cur + ms[..k + 1] && ms[1..][k] == ms[k + 1] by {
        forall k | 0 <= k < |ms| - 1 ensures cur' + ms[1..][..k] == cur + ms[..k + 1] && ms[1..][k] == ms[k + 1] {
          assert ms[..k + 1] == [ms[0]] + ms[1..][..k];
        }
      }
      ShiftHead(cur, ms);
      assert ms[..0] == [] && cur + ms[..0] == cur;
      if r.1.Fail? then
        var k :| 0 <= k < |ms| - 1 && r.0 == cur' + ms[1..][..k] && Contains(cur' + ms[1..][..k], ms[1..][k])
                 && r.1.error == DuplicateMatch(ms[1..][k]);
        assert r.0 == cur + ms[..k + 1] && Contains(cur + ms[..k + 1], ms[k + 1]);
        r
      else
        assert forall k :: 0 <= k < |ms| ==> !Contains(cur + ms[..k], ms[k]) by {
          forall k | 0 <= k < |ms| ensures !Contains(cur + ms[..k], ms[k]) {
            if k > 0 {
              assert !Contains(cur' + ms[1..][..k - 1], ms[1..][k - 1]);
            }
          }
        }
        r
  }

  // ---------------------------------------------------------------------
  // The draw object

  class Draw {
    var matches: seq<Match>
    var season: Json

    /** `Draw()`: no matches yet, season "2025-26". */
    constructor ()
      ensures matches == [] && season == JStr("2025-26")
    {
      matches := [];
      season := JStr("2025-26");
    }

    /** `Draw(matches=..., season=...)`: the list is taken as given, with no
        duplicate check. */
    constructor FromMatches(ms: seq<Match>, s: Json)
      ensures matches == ms && season == s
    {
      matches := ms;
      season := s;
    }

    /** `add_match`: a match equal to one already present is refused and the
        list is left unchanged; otherwise it is appended at the end. */
    method AddMatch(m: Match) returns (r: Outcome<DrawError>)
      modifies this
      ensures r.Fail? <==> Contains(old(matches), m)
      ensures r.Fail? ==> r.error == DuplicateMatch(m) && matches == old(matches)
      ensures r.Pass? ==> matches == old(matches) + [m]
      ensures NoDuplicates(old(matches)) ==> NoDuplicates(matches)
      ensures season == old(season)
    {
      if Contains(matches, m) {
        return Fail(DuplicateMatch(m));
      }
      ghost var before := matches;
      matches := matches + [m];
      assert (matches, Pass) == AppendUnique(before, [m]) by {
        assert [m][..0] == [] && before + [m][..0] == before;
      }
      r := Pass;
    }

    /** `add_matches`: adds one by one; the first duplicate stops the run and
        the matches added before it stay. */
    method AddMatches(ms: seq<Match>) returns (r: Outcome<DrawError>)
      modifies this
      ensures (matches, r) == AppendUnique(old(matches), ms)
      ensures season == old(season)
    {
      var i := 0;
      while i < |ms|
        invariant 0 <= i <= |ms|
        invariant AppendUnique(matches, ms[i..]) == AppendUnique(old(matches), ms)
        invariant season == old(season)
      {
        assert ms[i..][0] == ms[i] && ms[i..][1..] == ms[i + 1..];
        r := AddMatch(ms[i]);
        if r.Fail? {
          return;
        }
        i := i + 1;
      }
      r := Pass;
    }

    /** `get_all_clubs`, filled one match at a time: home club, then away club. */
    method GetAllClubs() returns (clubs: seq<Club>)
      ensures clubs == AllClubs(matches)
    {
      clubs := [];
      for i := 0 to |matches|
        invariant clubs == AllClubs(matches[..i])
      {
        assert matches[..i + 1][..i] == matches[..i];
        var m := matches[i];
        clubs := AddClub(clubs, m.home);
        clubs := AddClub(clubs, m.away);
      }
      assert matches[..|matches|] == matches;
    }

    /** `get_opponents_for_club`: the opponents are collected in a set over
        the club's matches and then sorted by id. */
    method GetOpponentsForClub(c: Club) returns (opponents: seq<Club>)
      ensures opponents == Opponents(matches, c)
    {
      var cms := ClubMatches(matches, c);
      var found: seq<Club> := [];
      for i := 0 to |cms|
        invariant found == CollectOpponents(cms[..i], c)
      {
        assert cms[..i + 1][..i] == cms[..i];
        var opponent := OpponentOf(cms[i], c);
        if opponent.Some? {
          found := AddClub(found, opponent.value);
        }
      }
      assert cms[..|cms|] == cms;
      opponents := SortById(found);
    }

    /** `get_country_clashes_for_club`. */
    method GetCountryClashesForClub(c: Club) returns (clashes: seq<(Club, nat)>)
      ensures clashes == CountryClashes(matches, c)
    {
      var opponents := GetOpponentsForClub(c);
      clashes := [];
      for i := 0 to |opponents|
        invariant clashes == ClashesAmong(opponents[..i], matches, c)
      {
        ClashesAmongStep(opponents, i, matches, c);
        var o := opponents[i];
        if o.pays == c.pays {
          clashes := clashes + [(o, |MatchesAgainst(matches, c, o)|)];
        }
      }
      assert opponents[..|opponents|] == opponents;
    }

    /** `has_country_clash`: false across countries; otherwise whether
        `c2` is among the opponents of `c1`. */
    method HasCountryClash(c1: Club, c2: Club) returns (b: bool)
      ensures b <==> CountryClash(matches, c1, c2)
    {
      if c1.pays != c2.pays {
        return false;
      }
      var opponents := GetOpponentsForClub(c1);
      b := HasId(opponents, c2.id);
      OpponentIds(matches, c1, c2.id);
    }

    /** `get_clubs_by_country`: each country of the draw with its clubs. */
    method GetClubsByCountry() returns (groups: map<string, seq<Club>>)
      ensures forall k :: k in groups <==> exists x :: x in AllClubs(matches) && Country(x) == k
      ensures forall k :: k in groups ==> groups[k] == KeyGroup(Country, k, AllClubs(matches))
    {
      var clubs := GetAllClubs();
      groups := GroupClubs(clubs, Country);
    }

    /** `get_clubs_by_chapeau`: each pot of the draw, by value, with its clubs. */
    method GetClubsByChapeau() returns (groups: map<int, seq<Club>>)
      ensures forall k :: k in groups <==> exists x :: x in AllClubs(matches) && PotValue(x) == k
      ensures forall k :: k in groups ==> groups[k] == KeyGroup(PotValue, k, AllClubs(matches))
      ensures forall k :: k in groups ==> 1 <= k <= 4
    {
      var clubs := GetAllClubs();
      groups := GroupClubs(clubs, PotValue);
    }
  }

  function Country(x: Club): string { x.pays }

  function PotValue(x: Club): int { x.chapeau.Value() }

  /** The clubs of `cs` whose key is `k`, in order. */
  function KeyGroup<K(==)>(key: Club -> K, k: K, cs: seq<Club>): (r: seq<Club>)
    ensures forall x :: x in r <==> x in cs && key(x) == k
  {
    Filter((y: Club) => key(y) == k, cs)
  }

  /** One more club: only the group of its key grows, by that club. */
  lemma KeyGroupStep<K>(key: Club -> K, clubs: seq<Club>, i: nat)
    requires i < |clubs|
    ensures clubs[..i + 1] == clubs[..i] + [clubs[i]]
    ensures forall k :: KeyGroup(key, k, clubs[..i + 1])
                        == KeyGroup(key, k, clubs[..i]) + (if key(clubs[i]) == k then [clubs[i]] else [])
  {
    assert clubs[..i + 1] == clubs[..i] + [clubs[i]];
    forall k
      ensures KeyGroup(key, k, clubs[..i + 1])
              == KeyGroup(key, k, clubs[..i]) + (if key(clubs[i]) == k then [clubs[i]] else [])
    {
      FilterSnoc((y: Club) => key(y) == k, clubs[..i], clubs[i]);
    }
  }

  /** The `defaultdict(list)` grouping loop: each club appended to the list of its key. */
  method GroupClubs<K(==)>(clubs: seq<Club>, key: Club -> K) returns (groups: map<K, seq<Club>>)
    ensures forall k :: k in groups <==> exists x :: x in clubs && key(x) == k
    ensures forall k :: k in groups ==> groups[k] == KeyGroup(key, k, clubs)
  {
    groups := map[];
    for i := 0 to |clubs|
      invariant forall x :: x in clubs[..i] ==> key(x) in groups
      invariant forall k :: k in groups ==> exists x :: x in clubs[..i] && key(x) == k
      invariant forall k :: k in groups ==> groups[k] == KeyGroup(key, k, clubs[..i])
    {
      var x := clubs[i];
      var k := key(x);
      KeyGroupStep(key, clubs, i);
      var before := groups;
      if k in groups {
        groups := groups[k := groups[k] + [x]];
      } else {
        assert forall y :: y in clubs[..i] ==> key(y) != k;
        FilterNone((y: Club) => key(y) == k, clubs[..i]);
        groups := groups[k := [x]];
      }
      forall k' | k' in groups
        ensures groups[k'] == KeyGroup(key, k', clubs[..i + 1])
      {
        if k' != k {
          assert groups[k'] == before[k'];
        }
      }
      forall k' | k' in groups
        ensures exists y :: y in clubs[..i + 1] && key(y) == k'
      {
        if k' != k {
          var y :| y in clubs[..i] && key(y) == k';
          assert y in clubs[..i + 1];
        } else {
          assert x in clubs[..i + 1];
        }
      }
    }
    assert clubs[..|clubs|] == clubs;
  }
}
