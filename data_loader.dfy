/** Loading the club base from an already-decoded JSON document: choosing
    the club list, normalising and checking each record, and the summary
    checks on a club list (empty list, repeated ids, pot distribution). */
module ClubLoading {
  import opened Wrappers
  import opened Seqs
  import opened Text
  import opened JsonValues
  import opened Clubs
  import opened Draws

  datatype LoadError =
    | NotAnObject                        // an item with no `keys()`; not caught, so never tagged
    | NotAString(field: string)          // a field with no `strip()`; not caught either
    | MissingFields(fields: set<string>)
    | ChapeauNotInteger(value: Json)
    | ChapeauOutOfRange(pot: int)
    | InvalidClub(clubError: ClubError)
    | AtIndex(index: nat, cause: LoadError)
    | NoClubsKey
    | NotListOrObject
    | NoClubs
    | NotIterable

  const RequiredFields: set<string> := {"id", "nom", "pays", "chapeau"}

  /** Python's `int(v)`, with the `isinstance(v, int)` shortcut, which booleans
      pass as 0 and 1. Any other value goes through `toInt`, the coercion,
      which may fail. */
  function PyInt(v: Json, toInt: Json -> Option<int>): Option<int>
  {
    match v
    case JInt(i) => Some(i)
    case JBool(b) => Some(if b then 1 else 0)
    case _ => toInt(v)
  }

  /** A club as its loader leaves it: id, name and country stripped, the
      country in upper case. */
  predicate Normalised(c: Club)
  {
    Stripped(c.id) && Stripped(c.nom) && Stripped(c.pays) && Upper(c.pays) == c.pays
  }

  /** `_parse_club`: required fields first, then `strip()` of id and name,
      `strip().upper()` of the country, the pot through `int()` and
      `Chapeau.from_int`, and last the checks of the `Club` constructor. */
  function ParseClub(item: Json, toInt: Json -> Option<int>): (r: Result<Club, LoadError>)
    ensures r.Ok? ==> ValidClub(r.value)
    ensures !item.JObj? ==> r == Err(NotAnObject)
    ensures item.JObj? && !(RequiredFields <= item.fields.Keys) ==>
              r == Err(MissingFields(RequiredFields - item.fields.Keys))
    ensures r.Ok? ==> item.JObj? && RequiredFields <= item.fields.Keys
                      && PyInt(item.fields["chapeau"], toInt) == Some(r.value.chapeau.Value())
  {
    match item
    case JObj(f) =>
      if !(RequiredFields <= f.Keys) then Err(MissingFields(RequiredFields - f.Keys))
      else if !f["id"].JStr? then Err(NotAString("id"))
      else if !f["nom"].JStr? then Err(NotAString("nom"))
      else if !f["pays"].JStr? then Err(NotAString("pays"))
      else
        var id, nom, pays := Strip(f["id"].s), Strip(f["nom"].s), Upper(Strip(f["pays"].s));
        var n := PyInt(f["chapeau"], toInt);
        if n.None? then Err(ChapeauNotInteger(f["chapeau"]))
        else if ChapeauFromInt(n.value).None? then Err(ChapeauOutOfRange(n.value))
        else
          var club := NewClub(id, nom, pays, ChapeauFromInt(n.value).value);
          if club.Err? then Err(InvalidClub(club.error)) else Ok(club.value)
    case _ => Err(NotAnObject)
  }

  /** A parsed club is valid and normalised, and is made of the stripped
      id and name, the stripped upper-cased country and the given pot. */
  lemma ParsedClubIsNormalised(item: Json, toInt: Json -> Option<int>)
    requires ParseClub(item, toInt).Ok?
    ensures var c := ParseClub(item, toInt).value;
            ValidClub(c) && Normalised(c)
            && c.id == Strip(item.fields["id"].s) && c.nom == Strip(item.fields["nom"].s)
            && c.pays == Upper(Strip(item.fields["pays"].s))
  {
    var f := item.fields;
    StrippedIsFixed(f["id"].s);
    StrippedIsFixed(f["nom"].s);
    StrippedIsFixed(f["pays"].s);
    UpperKeepsStripped(Strip(f["pays"].s));
    UpperIdempotent(Strip(f["pays"].s));
  }

  /** The record `save_clubs_to_file` writes for a club. */
  function ClubRecord(c: Club): Json
  {
    JObj(map["id" := JStr(c.id), "nom" := JStr(c.nom), "pays" := JStr(c.pays),
             "chapeau" := JInt(c.chapeau.Value())])
  }

  /** Saving then loading gives back every valid, normalised club, whatever
      the coercion; so does loading a record written from a loaded club. */
  lemma RecordRoundTrip(c: Club, toInt: Json -> Option<int>)
    requires ValidClub(c) && Normalised(c)
    ensures ParseClub(ClubRecord(c), toInt) == Ok(c)
  {
    var f := ClubRecord(c).fields;
    assert f.Keys == RequiredFields;
    assert f["id"] == JStr(c.id) && f["nom"] == JStr(c.nom) && f["pays"] == JStr(c.pays);
    assert f["chapeau"] == JInt(c.chapeau.Value());
    StrippedIsFixed(c.id);
    StrippedIsFixed(c.nom);
    StrippedIsFixed(c.pays);
    assert Strip(c.id) == c.id && Strip(c.nom) == c.nom && Upper(Strip(c.pays)) == c.pays;
    ChapeauRoundTrip(c.chapeau);
    assert NewClub(c.id, c.nom, c.pays, c.chapeau) == Ok(c);
  }

  /** The list of club records in a document: the document itself when it is
      a list, its `"clubs"` entry when it is an object; the selected value
      must be non-empty. A non-empty string or object is iterated, and its
      first item, having no `keys()`, fails; a number cannot be iterated. */
  function ClubItems(data: Json): (r: Result<seq<Json>, LoadError>)
    ensures r.Ok? ==> r.value != []
    ensures data.JArr? ==> r == (if data.items == [] then Err(NoClubs) else Ok(data.items))
    ensures data.JObj? && "clubs" !in data.fields ==> r == Err(NoClubsKey)
    ensures data.JObj? && "clubs" in data.fields && data.fields["clubs"].JArr? ==>
              r == (if data.fields["clubs"].items == [] then Err(NoClubs) else Ok(data.fields["clubs"].items))
    ensures r.Ok? ==> (data.JArr? && r.value == data.items)
                      || (data.JObj? && "clubs" in data.fields && data.fields["clubs"] == JArr(r.value))
    ensures !data.JArr? && !data.JObj? ==> r == Err(NotListOrObject)
  {
    match data
    case JArr(_) => ItemsOf(data)
    case JObj(f) => if "clubs" in f then ItemsOf(f["clubs"]) else Err(NoClubsKey)
    case _ => Err(NotListOrObject)
  }

  /** `if not clubs_data` then `enumerate(clubs_data)`. */
  function ItemsOf(v: Json): Result<seq<Json>, LoadError>
  {
    if !Truthy(v) then Err(NoClubs)
    else
      match v
      case JArr(items) => Ok(items)
      case JStr(_) => Err(NotAnObject)
      case JObj(_) => Err(NotAnObject)
      case _ => Err(NotIterable)
  }

  /** The loop re-raises `KeyError`, `ValueError` and `TypeError` with the
      item's index; the `AttributeError`s pass through unchanged. */
  function Tagged(i: nat, e: LoadError): LoadError
  {
    if e.NotAnObject? || e.NotAString? then e else AtIndex(i, e)
  }

  /** `load_clubs_from_file` on the decoded document: every item parsed, in
      order, or the first failure, tagged with its index. */
  method LoadClubs(data: Json, toInt: Json -> Option<int>) returns (r: Result<seq<Club>, LoadError>)
    ensures ClubItems(data).Err? ==> r == Err(ClubItems(data).error)
    ensures ClubItems(data).Ok? ==> ParsedInOrder(ClubItems(data).value, toInt, r)
  {
    var selected := ClubItems(data);
    if selected.Err? {
      return Err(selected.error);
    }
    r := ParseItems(selected.value, toInt);
  }

  /** What the parsing loop returns for `items`: all clubs in item order when
      every item parses, else the tagged error of the first item that fails. */
  predicate ParsedInOrder(items: seq<Json>, toInt: Json -> Option<int>, r: Result<seq<Club>, LoadError>)
  {
    (r.Ok? <==> forall i :: 0 <= i < |items| ==> ParseClub(items[i], toInt).Ok?)
    && (r.Ok? ==> |r.value| == |items|
                  && forall i :: 0 <= i < |items| ==> ParseClub(items[i], toInt) == Ok(r.value[i]))
    && (r.Err? ==> exists i :: 0 <= i < |items|
                     && (forall j :: 0 <= j < i ==> ParseClub(items[j], toInt).Ok?)
                     && ParseClub(items[i], toInt).Err?
                     && r.error == Tagged(i, ParseClub(items[i], toInt).error))
  }

  /** The `for idx, club_data in enumerate(clubs_data)` loop. */
  method ParseItems(items: seq<Json>, toInt: Json -> Option<int>) returns (r: Result<seq<Club>, LoadError>)
    ensures ParsedInOrder(items, toInt, r)
  {
    var clubs: seq<Club> := [];
    var i := 0;
    while i < |items|
      invariant 0 <= i <= |items| && |clubs| == i
      invariant forall j :: 0 <= j < i ==> ParseClub(items[j], toInt) == Ok(clubs[j])
    {
      var parsed := ParseClub(items[i], toInt);
      if parsed.Err? {
        return Err(Tagged(i, parsed.error));
      }
      var before := clubs;
      clubs := clubs + [parsed.value];
      forall j | 0 <= j <= i
        ensures ParseClub(items[j], toInt) == Ok(clubs[j])
      {
        if j < i {
          assert clubs[j] == before[j];
        }
      }
      i := i + 1;
    }
    return Ok(clubs);
  }

  // ---------------------------------------------------------------------
  // validate_clubs_list

  /** The outcome of `validate_clubs_list`: the `"valide": False` cases, or
      the statistics with the set of absent pots behind the warning. */
  datatype ClubListReport =
    | EmptyList
    | DuplicateIds(ids: set<string>)
    | Valid(count: nat, distribution: map<int, nat>, uniqueCountries: nat, missingPots: set<int>)

  /** Number of clubs in pot `k`. */
  function PotTally(clubs: seq<Club>, k: int): nat
  {
    if clubs == [] then 0
    else PotTally(clubs[..|clubs| - 1], k) + (if clubs[|clubs| - 1].chapeau.Value() == k then 1 else 0)
  }

  /** Every club is in exactly one of the four pots. */
  lemma {:induction false} PotTallySum(clubs: seq<Club>)
    ensures PotTally(clubs, 1) + PotTally(clubs, 2) + PotTally(clubs, 3) + PotTally(clubs, 4) == |clubs|
    ensures forall k :: !(1 <= k <= 4) ==> PotTally(clubs, k) == 0
  {
    if clubs != [] {
      PotTallySum(clubs[..|clubs| - 1]);
    }
  }

  lemma {:induction false} PotTallyPositive(clubs: seq<Club>, k: int)
    ensures PotTally(clubs, k) > 0 <==> exists c :: c in clubs && c.chapeau.Value() == k
  {
    if clubs != [] {
      var init, last := clubs[..|clubs| - 1], clubs[|clubs| - 1];
      assert clubs == init + [last];
      PotTallyPositive(init, k);
      assert forall x :: x in clubs <==> x in init || x == last;
    }
  }

  /** A list has as many distinct values as elements exactly when no value
      repeats. */
  lemma {:induction false} DistinctBySize(s: seq<string>)
    ensures |set x | x in s| <= |s|
    ensures |set x | x in s| == |s| <==> forall i, j :: 0 <= i < j < |s| ==> s[i] != s[j]
  {
    if s != [] {
      var init, last := s[..|s| - 1], s[|s| - 1];
      assert s == init + [last];
      DistinctBySize(init);
      assert (set x | x in s) == (set x | x in init) + {last};
      if last in init {
        var i :| 0 <= i < |init| && init[i] == last;
        assert s[i] == s[|s| - 1];
      } else {
        forall i | 0 <= i < |s| - 1 ensures s[i] != last {
          assert s[i] == init[i];
        }
      }
    }
  }

  /** `ids.count(id) > 1`: the value sits at two different positions. */
  lemma {:induction false} RepeatedMeaning(s: seq<string>, x: string)
    ensures multiset(s)[x] > 1 <==> exists i, j :: 0 <= i < j < |s| && s[i] == x && s[j] == x
  {
    if s != [] {
      var init, last := s[..|s| - 1], s[|s| - 1];
      assert s == init + [last];
      RepeatedMeaning(init, x);
      assert multiset(s)[x] == multiset(init)[x] + (if last == x then 1 else 0);
      if multiset(s)[x] > 1 && multiset(init)[x] <= 1 {
        assert last == x && x in multiset(init);
        var i :| 0 <= i < |init| && init[i] == x;
        assert s[i] == x && s[|s| - 1] == x;
      }
      if exists i, j :: 0 <= i < j < |s| && s[i] == x && s[j] == x {
        var i, j :| 0 <= i < j < |s| && s[i] == x && s[j] == x;
        if j < |s| - 1 {
          assert init[i] == x && init[j] == x;
        } else {
          assert init[i] == x;
          assert x in multiset(init);
        }
      }
    }
  }

  /** The ids of `ids.count(id) > 1`. */
  function Repeated(ids: seq<string>): set<string>
  {
    set x | x in ids && multiset(ids)[x] > 1
  }

  function Ids(clubs: seq<Club>): (ids: seq<string>)
    ensures |ids| == |clubs| && forall i :: 0 <= i < |clubs| ==> ids[i] == clubs[i].id
  {
    seq(|clubs|, i requires 0 <= i < |clubs| => clubs[i].id)
  }

  /** The duplicate-id test and the list it reports: the set of ids is
      smaller than the list exactly when two clubs share an id, and the
      reported ids are exactly the shared ones. */
  lemma DuplicateReport(clubs: seq<Club>)
    ensures |Ids(clubs)| != |set x | x in Ids(clubs)| <==> !DistinctIds(clubs)
    ensures forall id :: id in Repeated(Ids(clubs)) <==>
              exists i, j :: 0 <= i < j < |clubs| && clubs[i].id == id && clubs[j].id == id
    ensures !DistinctIds(clubs) ==> Repeated(Ids(clubs)) != {}
  {
    var ids := Ids(clubs);
    DistinctBySize(ids);
    forall id ensures id in Repeated(ids) <==>
                        exists i, j :: 0 <= i < j < |clubs| && clubs[i].id == id && clubs[j].id == id {
      RepeatedMeaning(ids, id);
      if multiset(ids)[id] > 1 {
        assert id in multiset(ids);
      }
    }
    if !DistinctIds(clubs) {
      var i, j :| 0 <= i < j < |clubs| && clubs[i].id == clubs[j].id;
      assert clubs[i].id in Repeated(ids);
    }
  }

  /** The `chapeaux_count` loop. */
  method CountPots(clubs: seq<Club>) returns (count: map<int, nat>)
    ensures forall k :: Lookup(count, k, 0) == PotTally(clubs, k)
    ensures forall k :: k in count ==> PotTally(clubs, k) > 0
  {
    count := map[];
    for i := 0 to |clubs|
      invariant forall k :: Lookup(count, k, 0) == PotTally(clubs[..i], k)
      invariant forall k :: k in count ==> PotTally(clubs[..i], k) > 0
    {
      assert clubs[..i + 1][..i] == clubs[..i];
      var pot := clubs[i].chapeau.Value();
      count := count[pot := Lookup(count, pot, 0) + 1];
    }
    assert clubs[..|clubs|] == clubs;
  }

  /** `validate_clubs_list`: an empty list and repeated ids are refused;
      otherwise the pot histogram (keys among 1..4, summing to the number of
      clubs), the number of distinct countries, and the pots with no club,
      which raise the warning. */
  method ValidateClubsList(clubs: seq<Club>) returns (r: ClubListReport)
    ensures r == EmptyList <==> clubs == []
    ensures r.DuplicateIds? <==> clubs != [] && !DistinctIds(clubs)
    ensures r.DuplicateIds? ==>
              r.ids != {}
              && forall id :: id in r.ids <==>
                   exists i, j :: 0 <= i < j < |clubs| && clubs[i].id == id && clubs[j].id == id
    ensures r.Valid? ==>
              r.count == |clubs|
              && (forall k :: Lookup(r.distribution, k, 0) == PotTally(clubs, k))
              && r.distribution.Keys <= {1, 2, 3, 4}
              && Lookup(r.distribution, 1, 0) + Lookup(r.distribution, 2, 0)
                 + Lookup(r.distribution, 3, 0) + Lookup(r.distribution, 4, 0) == |clubs|
              && r.uniqueCountries == |set c | c in clubs :: c.pays|
              && (forall k :: k in r.missingPots <==> 1 <= k <= 4 && !(exists c :: c in clubs && c.chapeau.Value() == k))
  {
    if |clubs| == 0 {
      return EmptyList;
    }
    var ids := Ids(clubs);
    DuplicateReport(clubs);
    if |ids| != |set x | x in ids| {
      return DuplicateIds(Repeated(ids));
    }
    var count := CountPots(clubs);
    PotTallySum(clubs);
    forall k | k in count.Keys
      ensures k in {1, 2, 3, 4}
    {
      assert PotTally(clubs, k) > 0;
    }
    assert Lookup(count, 1, 0) + Lookup(count, 2, 0) + Lookup(count, 3, 0) + Lookup(count, 4, 0) == |clubs|;
    var missing := {1, 2, 3, 4} - count.Keys;
    forall k ensures k in missing <==> 1 <= k <= 4 && !(exists c :: c in clubs && c.chapeau.Value() == k) {
      PotTallyPositive(clubs, k);
      assert k in count <==> PotTally(clubs, k) > 0 by {
        if k !in count {
          assert Lookup(count, k, 0) == 0;
        }
      }
    }
    r := Valid(|clubs|, count, |set c | c in clubs :: c.pays|, missing);
  }
}
