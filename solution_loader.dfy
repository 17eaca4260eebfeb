/** Importing a draw from an already-decoded JSON document: the minimal
    schema check, the club base (a given list or a club document), the
    id-to-club index, and the resolution of each row into a `Match`. */
module DrawImport {
  import opened Wrappers
  import opened Text
  import opened JsonValues
  import opened Clubs
  import opened Matches
  import opened Draws
  import opened ClubLoading

  datatype ImportError =
    | PayloadNotObject
    | MatchesMissingOrEmpty
    | RowKeyMissing(key: string)
    | RowNotContainer                    // `k in matches[0]` on a number or null: a `TypeError`, not wrapped
    | EmptyClubList
    | ClubsLoadFailed(loadError: LoadError)
    | DuplicateClubId(id: string)
    | RowInvalid(row: nat)
    | UnknownClubs(row: nat, missing: seq<string>)
    | InvalidMatch(row: nat, home: string, away: string, journee: int, matchError: MatchError)

  const DefaultSeason: Json := JStr("2025-26")

  /** The keys the first row must hold, in the order they are checked. */
  const RowKeys: seq<string> := ["club_home_id", "club_away_id", "journee"]

  /** Python's `k in v`: a key of an object, an element of a list, a
      substring of a string; `None` where `in` raises. */
  function KeyIn(k: string, v: Json): Option<bool>
  {
    match v
    case JObj(f) => Some(k in f)
    case JArr(items) => Some(JStr(k) in items)
    case JStr(s) => Some(IsSubstring(k, s))
    case _ => None
  }

  /** The first of `keys` that `row` lacks, checked in order. */
  function RowKeysCheck(row: Json, keys: seq<string>): (r: Outcome<ImportError>)
    ensures r.Pass? <==> forall i :: 0 <= i < |keys| ==> KeyIn(keys[i], row) == Some(true)
  {
    if keys == [] then Pass
    else
      match KeyIn(keys[0], row)
      case None => Fail(RowNotContainer)
      case Some(false) => Fail(RowKeyMissing(keys[0]))
      case Some(true) =>
        var rest := RowKeysCheck(row, keys[1..]);
        assert forall i :: 1 <= i < |keys| ==> keys[i] == keys[1..][i - 1];
        rest
  }

  /** `_validate_draw_schema`: an object whose `matches` is a non-empty list
      whose first row holds the three keys; the season defaults to
      "2025-26" and is otherwise taken as it is. */
  function ValidateDrawSchema(payload: Json): (r: Result<(Json, seq<Json>), ImportError>)
    ensures !payload.JObj? ==> r == Err(PayloadNotObject)
    ensures payload.JObj? && !("matches" in payload.fields && payload.fields["matches"].JArr?
                               && payload.fields["matches"].items != []) ==>
              r == Err(MatchesMissingOrEmpty)
    ensures r.Ok? <==>
              payload.JObj? && "matches" in payload.fields && payload.fields["matches"].JArr?
              && payload.fields["matches"].items != []
              && forall i :: 0 <= i < |RowKeys| ==> KeyIn(RowKeys[i], payload.fields["matches"].items[0]) == Some(true)
    ensures r.Ok? ==> r.value.1 == payload.fields["matches"].items
                      && r.value.0 == (if "season" in payload.fields then payload.fields["season"] else DefaultSeason)
  {
    if !payload.JObj? then Err(PayloadNotObject)
    else
      var f := payload.fields;
      if !("matches" in f && f["matches"].JArr? && f["matches"].items != []) then Err(MatchesMissingOrEmpty)
      else
        var rows := f["matches"].items;
        var season := if "season" in f then f["season"] else DefaultSeason;
        var check := RowKeysCheck(rows[0], RowKeys);
        if check.Fail? then Err(check.error) else Ok((season, rows))
  }

  /** Only the first row is looked at: what follows it never changes the
      outcome of the schema check. */
  lemma SchemaIgnoresLaterRows(f: map<string, Json>, first: Json, rest: seq<Json>, other: seq<Json>)
    ensures ValidateDrawSchema(JObj(f["matches" := JArr([first] + rest)])).Ok?
            == ValidateDrawSchema(JObj(f["matches" := JArr([first] + other)])).Ok?
  {
    assert ([first] + rest)[0] == first && ([first] + other)[0] == first;
  }

  /** Where the club base comes from: a list of clubs, or a decoded club
      document. */
  datatype ClubSource = ClubList(clubs: seq<Club>) | ClubDocument(data: Json)

  /** `_ensure_clubs`: a given list must be non-empty and is returned as it
      is; a club document is loaded, any failure being wrapped. */
  method EnsureClubs(source: ClubSource, toInt: Json -> Option<int>) returns (r: Result<seq<Club>, ImportError>)
    ensures source.ClubList? ==> r == (if source.clubs == [] then Err(EmptyClubList) else Ok(source.clubs))
    ensures source.ClubDocument? && ClubItems(source.data).Err? ==> r == Err(ClubsLoadFailed(ClubItems(source.data).error))
    ensures source.ClubDocument? ==> (r.Err? ==> r.error.ClubsLoadFailed?)
                                     && (r.Ok? ==> r.value != [] && forall c :: c in r.value ==> ValidClub(c))
    ensures source.ClubDocument? && r.Ok? ==>
              ClubItems(source.data).Ok? && ParsedInOrder(ClubItems(source.data).value, toInt, Ok(r.value))
    ensures source.ClubDocument? && ClubItems(source.data).Ok? && r.Err? ==>
              ParsedInOrder(ClubItems(source.data).value, toInt, Err(r.error.loadError))
  {
    match source
    case ClubList(clubs) =>
      if |clubs| == 0 {
        return Err(EmptyClubList);
      }
      return Ok(clubs);
    case ClubDocument(data) =>
      var loaded := LoadClubs(data, toInt);
      if loaded.Err? {
        return Err(ClubsLoadFailed(loaded.error));
      }
      forall c | c in loaded.value ensures ValidClub(c) {
        var i :| 0 <= i < |loaded.value| && loaded.value[i] == c;
      }
      return Ok(loaded.value);
  }

  /** The index `{c.id: c for c in clubs}`: every id of the list, mapped to
      the last club holding it. */
  function ClubIndex(clubs: seq<Club>): (r: map<string, Club>)
    ensures r.Keys == IdSet(clubs)
    ensures forall k :: k in r ==> r[k] in clubs && r[k].id == k
  {
    if clubs == [] then map[]
    else
      var init, last := clubs[..|clubs| - 1], clubs[|clubs| - 1];
      IdSetLast(clubs);
      assert forall c :: c in init ==> c in clubs;
      ClubIndex(init)[last.id := last]
  }

  /** With distinct ids, the index maps each club's id to that club. */
  lemma {:induction false} ClubIndexOfDistinct(clubs: seq<Club>)
    requires DistinctIds(clubs)
    ensures forall i :: 0 <= i < |clubs| ==> ClubIndex(clubs)[clubs[i].id] == clubs[i]
  {
    if clubs != [] {
      var init, last := clubs[..|clubs| - 1], clubs[|clubs| - 1];
      var before := ClubIndex(init);
      assert ClubIndex(clubs) == before[last.id := last];
      DistinctIdsInit(clubs);
      ClubIndexOfDistinct(init);
      forall i | 0 <= i < |clubs| - 1 ensures ClubIndex(clubs)[clubs[i].id] == clubs[i] {
        assert init[i] == clubs[i];
        assert clubs[i].id != last.id;
        assert before[clubs[i].id] == clubs[i];
      }
    }
  }

  /** `idx` indexes the first `j` clubs, which have distinct ids. */
  predicate IndexesPrefix(idx: map<string, Club>, clubs: seq<Club>, j: nat)
    requires j <= |clubs|
  {
    DistinctIds(clubs[..j]) && idx == ClubIndex(clubs[..j])
  }

  /** A club whose id is new keeps the ids distinct. */
  lemma DistinctIdsSnoc(s: seq<Club>, x: Club)
    requires DistinctIds(s) && x.id !in IdSet(s)
    ensures DistinctIds(s + [x])
  {
    var next := s + [x];
    forall i, k | 0 <= i < k < |next|
      ensures next[i].id != next[k].id
    {
      if k == |s| {
        assert next[i] == s[i] && next[i].id in IdSet(s);
      } else {
        assert next[i] == s[i] && next[k] == s[k];
      }
    }
  }

  /** Indexing one more club whose id is new keeps `IndexesPrefix`. */
  lemma IndexesPrefixStep(idx: map<string, Club>, clubs: seq<Club>, j: nat)
    requires j < |clubs| && IndexesPrefix(idx, clubs, j) && clubs[j].id !in idx
    ensures IndexesPrefix(idx[clubs[j].id := clubs[j]], clubs, j + 1)
  {
    var next := clubs[..j + 1];
    assert next == clubs[..j] + [clubs[j]];
    DistinctIdsSnoc(clubs[..j], clubs[j]);
    assert next[..|next| - 1] == clubs[..j] && next[|next| - 1] == clubs[j];
  }

  /** `_build_club_index`: the map from id to club, or the first id met a
      second time. */
  method BuildClubIndex(clubs: seq<Club>) returns (r: Result<map<string, Club>, ImportError>)
    ensures r.Ok? <==> DistinctIds(clubs)
    ensures r.Ok? ==> r.value == ClubIndex(clubs)
    ensures r.Ok? ==> r.value.Keys == IdSet(clubs)
                      && forall i :: 0 <= i < |clubs| ==> r.value[clubs[i].id] == clubs[i]
    ensures r.Ok? ==> forall k :: k in r.value ==> r.value[k] in clubs
    ensures r.Err? ==> exists j :: 0 <= j < |clubs| && DistinctIds(clubs[..j]) && HasId(clubs[..j], clubs[j].id)
                                   && r.error == DuplicateClubId(clubs[j].id)
  {
    var idx: map<string, Club> := map[];
    for j := 0 to |clubs|
      invariant IndexesPrefix(idx, clubs, j)
    {
      if clubs[j].id in idx {
        assert clubs[j].id in IdSet(clubs[..j]);
        var c :| c in clubs[..j] && c.id == clubs[j].id;
        var i :| 0 <= i < j && clubs[..j][i] == c;
        assert clubs[i].id == clubs[j].id;
        assert HasId(clubs[..j], clubs[j].id);
        return Err(DuplicateClubId(clubs[j].id));
      }
      IndexesPrefixStep(idx, clubs, j);
      idx := idx[clubs[j].id := clubs[j]];
    }
    assert clubs[..|clubs|] == clubs;
    ClubIndexOfDistinct(clubs);
    return Ok(idx);
  }

  /** `str(v)`: the string itself, or the rendering `toStr` gives. */
  function PyStr(v: Json, toStr: Json -> string): string
  {
    if v.JStr? then v.s else toStr(v)
  }

  /** `row[k]`, which only an object holding `k` answers. */
  function Field(row: Json, k: string): Option<Json>
  {
    if row.JObj? && k in row.fields then Some(row.fields[k]) else None
  }

  /** `[x for x in (h, a) if x not in club_by_id]`. */
  function MissingIds(h: string, a: string, index: map<string, Club>): (r: seq<string>)
    ensures forall x :: x in r <==> (x == h || x == a) && x !in index
    ensures |r| <= 2 && (r == [] <==> h in index && a in index)
  {
    (if h !in index then [h] else []) + (if a !in index then [a] else [])
  }

  /** The `try` block of one row: both ids through `str()` and `strip()`,
      the round through `int()`; `None` where a lookup or `int()` raises. */
  function RowFields(row: Json, toInt: Json -> Option<int>, toStr: Json -> string): (r: Option<(string, string, int)>)
    ensures r.Some? <==> Field(row, "club_home_id").Some? && Field(row, "club_away_id").Some?
                         && Field(row, "journee").Some? && PyInt(Field(row, "journee").value, toInt).Some?
    ensures r.Some? ==> Stripped(r.value.0) && Stripped(r.value.1)
  {
    var hv, av, dv := Field(row, "club_home_id"), Field(row, "club_away_id"), Field(row, "journee");
    if hv.None? || av.None? || dv.None? then None
    else
      var d := PyInt(dv.value, toInt);
      if d.None? then None
      else
        StrippedIsFixed(PyStr(hv.value, toStr));
        StrippedIsFixed(PyStr(av.value, toStr));
        Some((Strip(PyStr(hv.value, toStr)), Strip(PyStr(av.value, toStr)), d.value))
  }

  /** After the `try` block: both ids must be in the index, then the `Match`
      constructor's checks apply. */
  function ResolveIds(i: nat, h: string, a: string, d: int, index: map<string, Club>): (r: Result<Match, ImportError>)
    ensures r.Ok? <==> h in index && a in index && WellFormed(Match(index[h], index[a], d))
    ensures r.Ok? ==> r.value == Match(index[h], index[a], d)
    ensures (h !in index || a !in index) <==> r == Err(UnknownClubs(i, MissingIds(h, a, index)))
    ensures h in index && a in index && !r.Ok? ==>
              r == Err(InvalidMatch(i, h, a, d, NewMatch(index[h], index[a], d).error))
  {
    if h !in index || a !in index then Err(UnknownClubs(i, MissingIds(h, a, index)))
    else
      var m := NewMatch(index[h], index[a], d);
      if m.Err? then Err(InvalidMatch(i, h, a, d, m.error)) else Ok(m.value)
  }

  /** One row of the import loop; every failure names the row. */
  function ResolveRow(i: nat, row: Json, index: map<string, Club>, toInt: Json -> Option<int>, toStr: Json -> string)
    : (r: Result<Match, ImportError>)
    ensures RowFields(row, toInt, toStr).None? ==> r == Err(RowInvalid(i))
    ensures r.Ok? ==> RowFields(row, toInt, toStr).Some? && WellFormed(r.value)
    ensures r.Err? ==> (r.error.RowInvalid? || r.error.UnknownClubs? || r.error.InvalidMatch?) && r.error.row == i
  {
    match RowFields(row, toInt, toStr)
    case None => Err(RowInvalid(i))
    case Some((h, a, d)) => ResolveIds(i, h, a, d, index)
  }

  /** Both clubs of a resolved row are clubs of the index: the ids it
      names, looked up. */
  lemma ResolvedRowFromIndex(i: nat, row: Json, index: map<string, Club>,
                             toInt: Json -> Option<int>, toStr: Json -> string)
    requires ResolveRow(i, row, index, toInt, toStr).Ok?
    ensures var (h, a, d) := RowFields(row, toInt, toStr).value;
            h in index && a in index
            && ResolveRow(i, row, index, toInt, toStr).value == Match(index[h], index[a], d)
  {
  }

  /** A successful row does not depend on its position: its match is built
      from the fields alone. */
  lemma ResolvedRowIgnoresPosition(i: nat, j: nat, row: Json, index: map<string, Club>,
                                   toInt: Json -> Option<int>, toStr: Json -> string)
    requires ResolveRow(i, row, index, toInt, toStr).Ok?
    ensures ResolveRow(j, row, index, toInt, toStr) == ResolveRow(i, row, index, toInt, toStr)
  {
  }

  /** What the row loop returns: one match per row, in row order, when every
      row resolves; else the error of the first row that fails. */
  predicate ResolvedInOrder(rows: seq<Json>, index: map<string, Club>, toInt: Json -> Option<int>,
                            toStr: Json -> string, r: Result<seq<Match>, ImportError>)
  {
    (r.Ok? <==> forall i :: 0 <= i < |rows| ==> ResolveRow(i, rows[i], index, toInt, toStr).Ok?)
    && (r.Ok? ==> |r.value| == |rows|
                  && forall i :: 0 <= i < |rows| ==> ResolveRow(i, rows[i], index, toInt, toStr) == Ok(r.value[i]))
    && (r.Err? ==> exists i :: 0 <= i < |rows|
                     && (forall j :: 0 <= j < i ==> ResolveRow(j, rows[j], index, toInt, toStr).Ok?)
                     && ResolveRow(i, rows[i], index, toInt, toStr) == Err(r.error))
  }

  /** The `for i, row in enumerate(matches_payload)` loop. Matches are
      appended to a plain list, so rows repeating a match are all kept. */
  method ResolveRows(rows: seq<Json>, index: map<string, Club>, toInt: Json -> Option<int>, toStr: Json -> string)
    returns (r: Result<seq<Match>, ImportError>)
    ensures ResolvedInOrder(rows, index, toInt, toStr, r)
  {
    var matches: seq<Match> := [];
    var i := 0;
    while i < |rows|
      invariant 0 <= i <= |rows| && |matches| == i
      invariant forall j :: 0 <= j < i ==> ResolveRow(j, rows[j], index, toInt, toStr) == Ok(matches[j])
    {
      var m := ResolveRow(i, rows[i], index, toInt, toStr);
      if m.Err? {
        r := Err(m.error);
        assert forall j :: 0 <= j < i ==> ResolveRow(j, rows[j], index, toInt, toStr).Ok?;
        assert !(forall j :: 0 <= j < |rows| ==> ResolveRow(j, rows[j], index, toInt, toStr).Ok?);
        return;
      }
      ghost var before := matches;
      matches := matches + [m.value];
      forall j | 0 <= j < i + 1 ensures ResolveRow(j, rows[j], index, toInt, toStr) == Ok(matches[j]) {
        if j < i {
          assert matches[j] == before[j];
        }
      }
      i := i + 1;
    }
    r := Ok(matches);
  }

  /** Every match the loop returns passed the `Match` constructor's checks. */
  lemma ResolvedAreWellFormed(rows: seq<Json>, index: map<string, Club>, toInt: Json -> Option<int>,
                              toStr: Json -> string, r: Result<seq<Match>, ImportError>)
    requires ResolvedInOrder(rows, index, toInt, toStr, r) && r.Ok?
    ensures |r.value| == |rows| && forall m :: m in r.value ==> WellFormed(m)
  {
    forall m | m in r.value ensures WellFormed(m) {
      var i :| 0 <= i < |r.value| && r.value[i] == m;
      assert ResolveRow(i, rows[i], index, toInt, toStr) == Ok(m);
    }
  }

  /** A failed import reports one of the row errors. */
  lemma RowErrorKinds(rows: seq<Json>, index: map<string, Club>, toInt: Json -> Option<int>,
                      toStr: Json -> string, r: Result<seq<Match>, ImportError>)
    requires ResolvedInOrder(rows, index, toInt, toStr, r) && r.Err?
    ensures r.error.RowInvalid? || r.error.UnknownClubs? || r.error.InvalidMatch?
  {
    var i :| 0 <= i < |rows| && ResolveRow(i, rows[i], index, toInt, toStr) == Err(r.error);
  }

  /** Both clubs of every returned match are values of the index. */
  lemma ResolvedFromIndex(rows: seq<Json>, index: map<string, Club>, toInt: Json -> Option<int>,
                          toStr: Json -> string, r: Result<seq<Match>, ImportError>)
    requires ResolvedInOrder(rows, index, toInt, toStr, r) && r.Ok?
    ensures forall m :: m in r.value ==> m.home in index.Values && m.away in index.Values
  {
    forall m | m in r.value ensures m.home in index.Values && m.away in index.Values {
      var i :| 0 <= i < |r.value| && r.value[i] == m;
      assert ResolveRow(i, rows[i], index, toInt, toStr) == Ok(m);
      ResolvedRowFromIndex(i, rows[i], index, toInt, toStr);
    }
  }

  /** A resolved row does not depend on its position, so the same row twice
      gives the same match twice: the import keeps what `add_match` would
      refuse. */
  lemma RepeatedRowKept(row: Json, index: map<string, Club>, toInt: Json -> Option<int>, toStr: Json -> string,
                        r: Result<seq<Match>, ImportError>)
    requires ResolveRow(0, row, index, toInt, toStr).Ok?
    requires ResolvedInOrder([row, row], index, toInt, toStr, r)
    ensures r.Ok? && r.value[0] == r.value[1] && !NoDuplicates(r.value)
  {
    var rows := [row, row];
    ResolvedRowIgnoresPosition(0, 1, row, index, toInt, toStr);
    assert rows[0] == row && rows[1] == row;
    forall i | 0 <= i < |rows| ensures ResolveRow(i, rows[i], index, toInt, toStr).Ok? {
      assert i == 0 || i == 1;
    }
    assert r.Ok?;
    assert ResolveRow(0, rows[0], index, toInt, toStr) == Ok(r.value[0]);
    assert ResolveRow(1, rows[1], index, toInt, toStr) == Ok(r.value[1]);
    assert MatchEq(r.value[0], r.value[1]);
  }

  /** The body of `load_draw_from_file` after the schema: the club base, its
      index, and one match per row. */
  method ImportMatches(rows: seq<Json>, source: ClubSource, toInt: Json -> Option<int>, toStr: Json -> string)
    returns (r: Result<seq<Match>, ImportError>)
    ensures r.Ok? ==> |r.value| == |rows| && forall m :: m in r.value ==> WellFormed(m)
    ensures source.ClubList? ==>
              (source.clubs == [] ==> r == Err(EmptyClubList))
              && (source.clubs != [] && !DistinctIds(source.clubs) ==> r.Err? && r.error.DuplicateClubId?)
    ensures r.Ok? && source.ClubList? ==>
              forall m :: m in r.value ==> m.home in source.clubs && m.away in source.clubs
    ensures source.ClubList? && source.clubs != [] && DistinctIds(source.clubs) ==>
              ResolvedInOrder(rows, ClubIndex(source.clubs), toInt, toStr, r)
    ensures source.ClubDocument? && ClubItems(source.data).Err? ==> r == Err(ClubsLoadFailed(ClubItems(source.data).error))
    ensures source.ClubDocument? && (r.Ok? || r.error.RowInvalid? || r.error.UnknownClubs? || r.error.InvalidMatch?) ==>
              exists cs :: cs != [] && DistinctIds(cs) && (forall c :: c in cs ==> ValidClub(c))
                           && ClubItems(source.data).Ok? && ParsedInOrder(ClubItems(source.data).value, toInt, Ok(cs))
                           && ResolvedInOrder(rows, ClubIndex(cs), toInt, toStr, r)
  {
    var clubs := EnsureClubs(source, toInt);
    if clubs.Err? {
      return Err(clubs.error);
    }
    var index := BuildClubIndex(clubs.value);
    if index.Err? {
      return Err(index.error);
    }
    r := ResolveRows(rows, index.value, toInt, toStr);
    if r.Err? {
      RowErrorKinds(rows, index.value, toInt, toStr, r);
    } else {
      ResolvedAreWellFormed(rows, index.value, toInt, toStr, r);
      ResolvedFromIndex(rows, index.value, toInt, toStr, r);
    }
  }

  /** `load_draw_from_file` on the decoded documents: the schema first, then
      the club base, the index, and the rows; the draw keeps the rows'
      matches as given and the season as found. */
  method LoadDraw(payload: Json, source: ClubSource, toInt: Json -> Option<int>, toStr: Json -> string)
    returns (r: Result<Draw, ImportError>)
    ensures ValidateDrawSchema(payload).Err? ==> r == Err(ValidateDrawSchema(payload).error)
    ensures r.Ok? ==> fresh(r.value) && ValidateDrawSchema(payload).Ok?
                      && r.value.season == ValidateDrawSchema(payload).value.0
                      && |r.value.matches| == |ValidateDrawSchema(payload).value.1|
                      && forall m :: m in r.value.matches ==> WellFormed(m)
    ensures source.ClubList? && ValidateDrawSchema(payload).Ok? ==>
              (source.clubs == [] ==> r == Err(EmptyClubList))
              && (source.clubs != [] && !DistinctIds(source.clubs) ==> r.Err? && r.error.DuplicateClubId?)
    ensures r.Ok? && source.ClubList? ==>
              forall m :: m in r.value.matches ==> m.home in source.clubs && m.away in source.clubs
    ensures source.ClubList? && ValidateDrawSchema(payload).Ok? && source.clubs != [] && DistinctIds(source.clubs) ==>
              ResolvedInOrder(ValidateDrawSchema(payload).value.1, ClubIndex(source.clubs), toInt, toStr,
                              if r.Ok? then Ok(r.value.matches) else Err(r.error))
    ensures source.ClubDocument? && ValidateDrawSchema(payload).Ok? && ClubItems(source.data).Err? ==>
              r == Err(ClubsLoadFailed(ClubItems(source.data).error))
    ensures source.ClubDocument? && ValidateDrawSchema(payload).Ok?
            && (r.Ok? || r.error.RowInvalid? || r.error.UnknownClubs? || r.error.InvalidMatch?) ==>
              exists cs :: cs != [] && DistinctIds(cs) && (forall c :: c in cs ==> ValidClub(c))
                           && ClubItems(source.data).Ok? && ParsedInOrder(ClubItems(source.data).value, toInt, Ok(cs))
                           && ResolvedInOrder(ValidateDrawSchema(payload).value.1, ClubIndex(cs), toInt, toStr,
                                              if r.Ok? then Ok(r.value.matches) else Err(r.error))
  {
    var schema := ValidateDrawSchema(payload);
    if schema.Err? {
      return Err(schema.error);
    }
    var (season, rows) := schema.value;
    var imported := ImportMatches(rows, source, toInt, toStr);
    if imported.Err? {
      return Err(imported.error);
    }
    var d := new Draw.FromMatches(imported.value, season);
    r := Ok(d);
    assert Ok(r.value.matches) == imported;
  }
}
