/** A match: a directed (home, away, round) triple. Construction rejects a
    club playing itself and a round (journée) outside 1..8. */
module Matches {
  import opened Wrappers
  import opened Clubs

  datatype Venue = Domicile | Exterieur
  {
    function Other(): Venue
    {
      if this == Domicile then Exterieur else Domicile
    }
  }

  datatype Match = Match(home: Club, away: Club, journee: int)

  datatype MatchError =
    | SelfPairing(clubId: string)
    | JourneeOutOfRange(journee: int)
    | ClubNotInMatch(clubId: string)

  /** The rounds a match may be played in, fixed by the match itself. */
  const FirstJournee := 1
  const LastJournee := 8

  /** What construction guarantees of every match object. */
  predicate WellFormed(m: Match)
  {
    !SameClub(m.home, m.away) && FirstJournee <= m.journee <= LastJournee
  }

  /** Building a `Match`: the self-pairing check runs before the round check. */
  function NewMatch(home: Club, away: Club, journee: int): (r: Result<Match, MatchError>)
    ensures r.Ok? <==> WellFormed(Match(home, away, journee))
    ensures r.Ok? ==> r.value == Match(home, away, journee)
    ensures SameClub(home, away) ==> r == Err(SelfPairing(home.id))
    ensures !SameClub(home, away) && !(FirstJournee <= journee <= LastJournee) ==>
              r == Err(JourneeOutOfRange(journee))
  {
    if SameClub(home, away) then Err(SelfPairing(home.id))
    else if !(FirstJournee <= journee <= LastJournee) then Err(JourneeOutOfRange(journee))
    else Ok(Match(home, away, journee))
  }

  /** `Match.__eq__`: directed, clubs compared by id. */
  predicate MatchEq(a: Match, b: Match)
  {
    SameClub(a.home, b.home) && SameClub(a.away, b.away) && a.journee == b.journee
  }

  /** `implies_reverse_match`: a new match with the venues swapped, same round. */
  function ReverseMatch(m: Match): (r: Result<Match, MatchError>)
    ensures WellFormed(m) ==> r == Ok(Match(m.away, m.home, m.journee))
  {
    NewMatch(m.away, m.home, m.journee)
  }

  /** Reversing twice gives back the match; a reverse is never equal to the
      match it came from. */
  lemma ReverseTwice(m: Match)
    requires WellFormed(m)
    ensures ReverseMatch(m).Ok? && WellFormed(ReverseMatch(m).value)
    ensures ReverseMatch(ReverseMatch(m).value) == Ok(m)
    ensures !MatchEq(m, ReverseMatch(m).value)
  {
  }

  predicate Involves(m: Match, c: Club)
  {
    SameClub(c, m.home) || SameClub(c, m.away)
  }

  /** `__eq__` is an equivalence, and equal matches involve the same clubs. */
  lemma MatchEqEquivalence(a: Match, b: Match, c: Match)
    ensures MatchEq(a, a)
    ensures MatchEq(a, b) ==> MatchEq(b, a)
    ensures MatchEq(a, b) && MatchEq(b, c) ==> MatchEq(a, c)
    ensures MatchEq(a, b) ==> forall x :: Involves(a, x) <==> Involves(b, x)
  {
  }

  /** `involves_club` looks at ids only and not at the direction: swapping
      the venues, or replacing the club by any club with its id, keeps it. */
  lemma InvolvesIgnoresDirection(m: Match, c: Club, d: Club)
    ensures Involves(Match(m.away, m.home, m.journee), c) <==> Involves(m, c)
    ensures SameClub(c, d) ==> (Involves(m, c) <==> Involves(m, d))
    ensures Involves(m, m.home) && Involves(m, m.away)
  {
  }

  /** `opponent_of`: the other side of the match, or `None` when `c` does not play in it. */
  function OpponentOf(m: Match, c: Club): (r: Option<Club>)
    ensures r.None? <==> !Involves(m, c)
    ensures SameClub(c, m.home) ==> r == Some(m.away)
    ensures !SameClub(c, m.home) && SameClub(c, m.away) ==> r == Some(m.home)
  {
    if SameClub(c, m.home) then Some(m.away)
    else if SameClub(c, m.away) then Some(m.home)
    else None
  }

  /** `get_venue_for_club`: home side plays at home; a club not in the match is an error. */
  function VenueFor(m: Match, c: Club): (r: Result<Venue, MatchError>)
    ensures r.Err? <==> !Involves(m, c)
    ensures r.Err? ==> r.error == ClubNotInMatch(c.id)
    ensures SameClub(c, m.home) ==> r == Ok(Domicile)
    ensures !SameClub(c, m.home) && SameClub(c, m.away) ==> r == Ok(Exterieur)
  {
    if SameClub(c, m.home) then Ok(Domicile)
    else if SameClub(c, m.away) then Ok(Exterieur)
    else Err(ClubNotInMatch(c.id))
  }

  /** In a well-formed match the opponent relation is an involution between
      two different clubs. */
  lemma OpponentInvolution(m: Match, c: Club)
    requires WellFormed(m) && Involves(m, c)
    ensures var o := OpponentOf(m, c).value;
            Involves(m, o) && !SameClub(o, c) && SameClub(OpponentOf(m, o).value, c)
  {
  }

  /** Reversing a well-formed match swaps the venue of each of its clubs and
      keeps each club's opponent. */
  lemma ReverseSwapsVenue(m: Match, c: Club)
    requires WellFormed(m) && Involves(m, c)
    ensures var r := ReverseMatch(m).value;
            Involves(r, c)
            && VenueFor(r, c) == Ok(VenueFor(m, c).value.Other())
            && OpponentOf(r, c) == OpponentOf(m, c)
  {
  }
}
