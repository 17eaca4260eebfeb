/** Clubs and their seeding pots (chapeaux). A club is checked when it is
    built and is identified by its id alone. */
module Clubs {
  import opened Wrappers
  import opened Text

  /** The four seeding pots. */
  datatype Chapeau = Chapeau1 | Chapeau2 | Chapeau3 | Chapeau4
  {
    function Value(): (v: int)
      ensures 1 <= v <= 4
    {
      match this
      case Chapeau1 => 1
      case Chapeau2 => 2
      case Chapeau3 => 3
      case Chapeau4 => 4
    }
  }

  /** `Chapeau.from_int`: the pot whose value is `v`, or `None` where the source raises. */
  function ChapeauFromInt(v: int): (r: Option<Chapeau>)
    ensures r.Some? <==> 1 <= v <= 4
    ensures r.Some? ==> r.value.Value() == v
  {
    if v == 1 then Some(Chapeau1)
    else if v == 2 then Some(Chapeau2)
    else if v == 3 then Some(Chapeau3)
    else if v == 4 then Some(Chapeau4)
    else None
  }

  /** Every pot is recovered from its value. */
  lemma ChapeauRoundTrip(p: Chapeau)
    ensures ChapeauFromInt(p.Value()) == Some(p)
  {
  }

  datatype Club = Club(id: string, nom: string, pays: string, chapeau: Chapeau)

  datatype ClubError = EmptyId | EmptyNom | BadCountryCode(pays: string)

  /** An ISO-3 style country code: three characters, upper case. */
  predicate ValidCountryCode(pays: string)
  {
    |pays| == 3 && IsUpper(pays)
  }

  predicate ValidClub(c: Club)
  {
    c.id != [] && c.nom != [] && ValidCountryCode(c.pays)
  }

  /** Building a `Club`: the checks run in order id, name, country code. */
  function NewClub(id: string, nom: string, pays: string, chapeau: Chapeau): (r: Result<Club, ClubError>)
    ensures r.Ok? <==> ValidClub(Club(id, nom, pays, chapeau))
    ensures r.Ok? ==> r.value == Club(id, nom, pays, chapeau)
    ensures id == [] ==> r == Err(EmptyId)
    ensures id != [] && nom == [] ==> r == Err(EmptyNom)
    ensures id != [] && nom != [] && !ValidCountryCode(pays) ==> r == Err(BadCountryCode(pays))
  {
    if id == [] then Err(EmptyId)
    else if nom == [] then Err(EmptyNom)
    else if !ValidCountryCode(pays) then Err(BadCountryCode(pays))
    else Ok(Club(id, nom, pays, chapeau))
  }

  /** `Club.__eq__`: two clubs are the same club when their ids agree. */
  predicate SameClub(a: Club, b: Club)
  {
    a.id == b.id
  }

  /** Club equality is an equivalence that ignores name, country and pot. */
  lemma SameClubIgnoresAttributes(a: Club, nom: string, pays: string, chapeau: Chapeau)
    ensures SameClub(a, Club(a.id, nom, pays, chapeau))
    ensures SameClub(a, a)
    ensures forall b, c :: SameClub(a, b) && SameClub(b, c) ==> SameClub(c, a)
  {
  }
}
