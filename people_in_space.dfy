/**
 * The "people in space" microservice: the upstream list of astronauts is
 * regrouped by spacecraft, in the order in which each craft first appears,
 * and every craft gets a cosmetic icon drawn from a fixed list of four URLs.
 *
 * Math.random is not modelled as such: the caller supplies the draws, one
 * real number in [0, 1) per person; the draw of person i is used exactly when
 * person i is the first one aboard a craft not seen before, which is the
 * moment the service asks for a random icon.
 */
module PeopleInSpace {

  datatype Option<T> = None | Some(value: T)

  datatype Result<T, E> = Success(value: T) | Failure(error: E)

  // ---------------------------------------------------------------------
  // Data model
  // ---------------------------------------------------------------------

  /** One person currently in space, as the upstream API lists them. */
  datatype Person = Person(name: string, craft: string)

  /** The upstream payload. `number` is not checked against |people|. */
  datatype AstroData = AstroData(number: int, people: seq<Person>, message: string)

  /** One group of the response: a craft, the names aboard it and its icon. */
  datatype Spacecraft = Spacecraft(craft: string, crew: seq<string>, icon: string)

  /** The regrouped payload returned to the client. */
  datatype SpaceReport = SpaceReport(numberOfPeople: int, spacecrafts: seq<Spacecraft>, message: string)

  /** What the `/astronauts` route answers. */
  datatype Response = Json(report: SpaceReport) | ServerError(status: int, error: string)

  /** The fixed, read-only list of shuttle icon URLs. */
  const ShuttleIcons: seq<string> := [
    "https://cdn-icons-png.flaticon.com/512/6989/6989388.png",
    "https://cdn-icons-png.flaticon.com/512/2909/2909710.png",
    "https://cdn-icons-png.flaticon.com/512/4657/4657691.png",
    "https://cdn-icons-png.flaticon.com/512/3594/3594735.png"
  ]

  const FetchErrorMessage: string := "Failed to retrieve space data"

  // ---------------------------------------------------------------------
  // Icon selection
  // ---------------------------------------------------------------------

  /** `Math.floor(random * n)` for a draw `random` of Math.random, which lies in [0, 1). */
  function RandomIndex(random: real, n: nat): (i: nat)
    requires 0.0 <= random < 1.0
    requires n > 0
    ensures i < n
    ensures i as real <= random * n as real < i as real + 1.0
  {
    assert 0.0 <= random * n as real < n as real;
    (random * n as real).Floor
  }

  /** getRandomShuttleIcon, given the draw of Math.random it uses. */
  function GetRandomShuttleIcon(random: real): (icon: string)
    requires 0.0 <= random < 1.0
    ensures icon in ShuttleIcons
  {
    ShuttleIcons[RandomIndex(random, |ShuttleIcons|)]
  }

  /** Each icon is chosen for a quarter of [0, 1): the choice is uniform. */
  lemma IconIntervals(random: real, k: nat)
    requires 0.0 <= random < 1.0
    requires k < |ShuttleIcons|
    ensures RandomIndex(random, |ShuttleIcons|) == k
        <==> k as real / 4.0 <= random < (k + 1) as real / 4.0
  {
  }

  /** Every draw is a possible outcome of Math.random. */
  predicate ValidDraws(draws: seq<real>)
  {
    forall i :: 0 <= i < |draws| ==> 0.0 <= draws[i] < 1.0
  }

  // ---------------------------------------------------------------------
  // Specification of the grouping
  // ---------------------------------------------------------------------

  predicate HasCraft(ps: seq<Person>, c: string)
  {
    exists j :: 0 <= j < |ps| && ps[j].craft == c
  }

  predicate Distinct(cs: seq<string>)
  {
    forall i, j :: 0 <= i < j < |cs| ==> cs[i] != cs[j]
  }

  /** The crafts of ps, each once, in the order in which each first appears. */
  function Crafts(ps: seq<Person>): seq<string>
  {
    if ps == [] then []
    else
      var cs := Crafts(ps[..|ps| - 1]);
      if ps[|ps| - 1].craft in cs then cs else cs + [ps[|ps| - 1].craft]
  }

  /** The names of the people of ps aboard craft c, in input order, duplicates kept. */
  function Crew(ps: seq<Person>, c: string): seq<string>
  {
    if ps == [] then []
    else Crew(ps[..|ps| - 1], c) + (if ps[|ps| - 1].craft == c then [ps[|ps| - 1].name] else [])
  }

  /** The position of the first person aboard c, or |ps| when nobody is. */
  function FirstIndex(ps: seq<Person>, c: string): (i: nat)
    ensures i <= |ps|
    ensures i < |ps| <==> HasCraft(ps, c)
    ensures i < |ps| ==> ps[i].craft == c
    ensures forall j :: 0 <= j < i ==> ps[j].craft != c
  {
    if ps == [] then 0
    else
      var k := FirstIndex(ps[..|ps| - 1], c);
      if k < |ps| - 1 then k
      else if ps[|ps| - 1].craft == c then |ps| - 1
      else |ps|
  }

  /** g is the group for craft c: its crew is Crew(ps, c) and its icon comes
      from the draw made when c first appeared. */
  predicate IsGroupOf(ps: seq<Person>, draws: seq<real>, c: string, g: Spacecraft)
    requires |draws| == |ps| && ValidDraws(draws)
  {
    var k := FirstIndex(ps, c);
    k < |ps| && g == Spacecraft(c, Crew(ps, c), GetRandomShuttleIcon(draws[k]))
  }

  /** gs holds one group per craft of ps, in first-seen order. */
  predicate IsGrouping(ps: seq<Person>, draws: seq<real>, gs: seq<Spacecraft>)
    requires |draws| == |ps| && ValidDraws(draws)
  {
    var cs := Crafts(ps);
    |gs| == |cs| && forall i :: 0 <= i < |gs| ==> IsGroupOf(ps, draws, cs[i], gs[i])
  }

  /** The people a group stands for. */
  function Roster(craft: string, crew: seq<string>): (r: seq<Person>)
    ensures |r| == |crew|
    ensures forall k :: 0 <= k < |crew| ==> r[k] == Person(crew[k], craft)
  {
    seq(|crew|, k requires 0 <= k < |crew| => Person(crew[k], craft))
  }

  /** The people of a list of groups, group after group. */
  function Flatten(gs: seq<Spacecraft>): seq<Person>
  {
    if gs == [] then []
    else Flatten(gs[..|gs| - 1]) + Roster(gs[|gs| - 1].craft, gs[|gs| - 1].crew)
  }

  /** The people of the groups Crew(ps, c) for c in cs, group after group. */
  function GroupedPeople(ps: seq<Person>, cs: seq<string>): seq<Person>
  {
    if cs == [] then []
    else GroupedPeople(ps, cs[..|cs| - 1]) + Roster(cs[|cs| - 1], Crew(ps, cs[|cs| - 1]))
  }

  /** The sum of the crew sizes. */
  function TotalCrew(gs: seq<Spacecraft>): nat
  {
    if gs == [] then 0 else TotalCrew(gs[..|gs| - 1]) + |gs[|gs| - 1].crew|
  }

  // ---------------------------------------------------------------------
  // One more person: how the specification functions extend
  // ---------------------------------------------------------------------

  lemma CraftsSnoc(ps: seq<Person>, p: Person)
    ensures Crafts(ps + [p]) == if p.craft in Crafts(ps) then Crafts(ps) else Crafts(ps) + [p.craft]
  {
  }

  lemma CrewSnoc(ps: seq<Person>, p: Person, c: string)
    ensures Crew(ps + [p], c) == Crew(ps, c) + (if p.craft == c then [p.name] else [])
  {
  }

  lemma FirstIndexSnoc(ps: seq<Person>, p: Person, c: string)
    ensures FirstIndex(ps + [p], c)
         == if HasCraft(ps, c) then FirstIndex(ps, c) else if p.craft == c then |ps| else |ps| + 1
  {
  }

  lemma HasCraftSnoc(ps: seq<Person>, p: Person, c: string)
    ensures HasCraft(ps + [p], c) <==> HasCraft(ps, c) || p.craft == c
  {
    if HasCraft(ps + [p], c) {
      var j :| 0 <= j < |ps| + 1 && (ps + [p])[j].craft == c;
      if j < |ps| {
        assert ps[j].craft == c;
      }
    }
    if HasCraft(ps, c) {
      var j :| 0 <= j < |ps| && ps[j].craft == c;
      assert (ps + [p])[j].craft == c;
    }
    if p.craft == c {
      assert (ps + [p])[|ps|].craft == c;
    }
  }

  // ---------------------------------------------------------------------
  // Properties of the specification functions
  // ---------------------------------------------------------------------

  /** A craft is listed exactly when somebody is aboard it. */
  lemma {:induction false} CraftsComplete(ps: seq<Person>)
    ensures forall c :: c in Crafts(ps) <==> HasCraft(ps, c)
  {
    if ps != [] {
      var q, p := ps[..|ps| - 1], ps[|ps| - 1];
      assert ps == q + [p];
      CraftsComplete(q);
      CraftsSnoc(q, p);
      forall c ensures c in Crafts(ps) <==> HasCraft(ps, c) {
        HasCraftSnoc(q, p, c);
      }
    }
  }

  /** No craft is listed twice. */
  lemma {:induction false} CraftsDistinct(ps: seq<Person>)
    ensures Distinct(Crafts(ps))
  {
    if ps != [] {
      var q, p := ps[..|ps| - 1], ps[|ps| - 1];
      assert ps == q + [p];
      CraftsDistinct(q);
      CraftsSnoc(q, p);
    }
  }

  /** Crafts are listed in the order of their first appearance. */
  lemma {:induction false} CraftsFirstSeen(ps: seq<Person>)
    ensures forall i :: 0 <= i < |Crafts(ps)| ==> FirstIndex(ps, Crafts(ps)[i]) < |ps|
    ensures forall i, j :: 0 <= i < j < |Crafts(ps)| ==>
              FirstIndex(ps, Crafts(ps)[i]) < FirstIndex(ps, Crafts(ps)[j])
  {
    CraftsComplete(ps);
    if ps != [] {
      var q, p := ps[..|ps| - 1], ps[|ps| - 1];
      assert ps == q + [p];
      CraftsFirstSeen(q);
      CraftsComplete(q);
      CraftsSnoc(q, p);
      var cs := Crafts(q);
      forall i | 0 <= i < |cs| ensures FirstIndex(ps, cs[i]) == FirstIndex(q, cs[i]) < |q| {
        assert cs[i] in cs;
        FirstIndexSnoc(q, p, cs[i]);
      }
      if p.craft !in cs {
        FirstIndexSnoc(q, p, p.craft);
        assert Crafts(ps)[|cs|] == p.craft;
      }
    }
  }

  /** Somebody is aboard c exactly when the crew of c is not empty. */
  lemma {:induction false} CrewNonEmpty(ps: seq<Person>, c: string)
    ensures |Crew(ps, c)| > 0 <==> HasCraft(ps, c)
  {
    if ps != [] {
      var q, p := ps[..|ps| - 1], ps[|ps| - 1];
      assert ps == q + [p];
      CrewNonEmpty(q, c);
      CrewSnoc(q, p, c);
      HasCraftSnoc(q, p, c);
    }
  }

  lemma RosterSnoc(craft: string, crew: seq<string>, name: string)
    ensures Roster(craft, crew + [name]) == Roster(craft, crew) + [Person(name, craft)]
  {
  }

  /** Adding p to the input adds p to the groups of cs exactly when its craft is among them. */
  lemma {:induction false} GroupedPeopleSnoc(ps: seq<Person>, p: Person, cs: seq<string>)
    requires Distinct(cs)
    ensures multiset(GroupedPeople(ps + [p], cs))
         == multiset(GroupedPeople(ps, cs)) + if p.craft in cs then multiset{p} else multiset{}
  {
    if cs != [] {
      var ds, c := cs[..|cs| - 1], cs[|cs| - 1];
      assert cs == ds + [c];
      assert Distinct(ds);
      GroupedPeopleSnoc(ps, p, ds);
      var before, after := Roster(c, Crew(ps, c)), Roster(c, Crew(ps + [p], c));
      assert GroupedPeople(ps + [p], cs) == GroupedPeople(ps + [p], ds) + after;
      assert GroupedPeople(ps, cs) == GroupedPeople(ps, ds) + before;
      CrewSnoc(ps, p, c);
      if p.craft == c {
        RosterSnoc(c, Crew(ps, c), p.name);
        assert after == before + [p];
        assert p.craft !in ds;
      } else {
        assert after == before;
        assert p.craft in cs <==> p.craft in ds;
      }
    }
  }

  /** Grouping loses and duplicates nobody. */
  lemma {:induction false} GroupedPeopleLossless(ps: seq<Person>)
    ensures multiset(GroupedPeople(ps, Crafts(ps))) == multiset(ps)
  {
    if ps != [] {
      var q, p := ps[..|ps| - 1], ps[|ps| - 1];
      assert ps == q + [p];
      GroupedPeopleLossless(q);
      CraftsSnoc(q, p);
      CraftsDistinct(q);
      var cs := Crafts(q);
      GroupedPeopleSnoc(q, p, cs);
      if p.craft !in cs {
        var cs' := cs + [p.craft];
        assert cs'[..|cs|] == cs;
        CraftsComplete(q);
        CrewNonEmpty(q, p.craft);
        CrewSnoc(q, p, p.craft);
        assert Roster(p.craft, Crew(ps, p.craft)) == [p];
      }
    }
  }

  // ---------------------------------------------------------------------
  // Properties of every grouping
  // ---------------------------------------------------------------------

  lemma {:induction false} FlattenPrefix(ps: seq<Person>, draws: seq<real>, gs: seq<Spacecraft>, k: nat)
    requires |draws| == |ps| && ValidDraws(draws)
    requires IsGrouping(ps, draws, gs)
    requires k <= |gs|
    ensures Flatten(gs[..k]) == GroupedPeople(ps, Crafts(ps)[..k])
  {
    if k > 0 {
      FlattenPrefix(ps, draws, gs, k - 1);
      assert gs[..k][..k - 1] == gs[..k - 1];
      assert Crafts(ps)[..k][..k - 1] == Crafts(ps)[..k - 1];
      assert IsGroupOf(ps, draws, Crafts(ps)[k - 1], gs[k - 1]);
    }
  }

  lemma {:induction false} FlattenLength(gs: seq<Spacecraft>)
    ensures |Flatten(gs)| == TotalCrew(gs)
  {
    if gs != [] {
      FlattenLength(gs[..|gs| - 1]);
    }
  }

  /** The groups hold exactly the input people, so their crews sum to |ps|. */
  lemma GroupingLossless(ps: seq<Person>, draws: seq<real>, gs: seq<Spacecraft>)
    requires |draws| == |ps| && ValidDraws(draws)
    requires IsGrouping(ps, draws, gs)
    ensures multiset(Flatten(gs)) == multiset(ps)
    ensures TotalCrew(gs) == |ps|
  {
    FlattenPrefix(ps, draws, gs, |gs|);
    assert gs[..|gs|] == gs;
    assert Crafts(ps)[..|gs|] == Crafts(ps);
    GroupedPeopleLossless(ps);
    FlattenLength(gs);
    assert |multiset(Flatten(gs))| == |Flatten(gs)|;
  }

  /** Group crafts are pairwise distinct and are exactly the crafts of the input. */
  lemma GroupingKeys(ps: seq<Person>, draws: seq<real>, gs: seq<Spacecraft>)
    requires |draws| == |ps| && ValidDraws(draws)
    requires IsGrouping(ps, draws, gs)
    ensures forall i, j :: 0 <= i < j < |gs| ==> gs[i].craft != gs[j].craft
    ensures forall i :: 0 <= i < |gs| ==> HasCraft(ps, gs[i].craft)
    ensures forall j :: 0 <= j < |ps| ==> exists i :: 0 <= i < |gs| && gs[i].craft == ps[j].craft
  {
    var cs := Crafts(ps);
    assert forall i :: 0 <= i < |gs| ==> gs[i].craft == cs[i];
    CraftsDistinct(ps);
    CraftsComplete(ps);
    forall j | 0 <= j < |ps| ensures exists i :: 0 <= i < |gs| && gs[i].craft == ps[j].craft {
      assert HasCraft(ps, ps[j].craft);
      var i :| 0 <= i < |cs| && cs[i] == ps[j].craft;
      assert gs[i].craft == ps[j].craft;
    }
  }

  /** Groups come in the order in which their crafts first appear. */
  lemma GroupingOrder(ps: seq<Person>, draws: seq<real>, gs: seq<Spacecraft>)
    requires |draws| == |ps| && ValidDraws(draws)
    requires IsGrouping(ps, draws, gs)
    ensures forall i, j :: 0 <= i < j < |gs| ==> FirstIndex(ps, gs[i].craft) < FirstIndex(ps, gs[j].craft)
  {
    assert forall i :: 0 <= i < |gs| ==> gs[i].craft == Crafts(ps)[i];
    CraftsFirstSeen(ps);
  }

  /** Every crew is the non-empty list of names aboard, in input order; every icon is a listed one. */
  lemma GroupingCrews(ps: seq<Person>, draws: seq<real>, gs: seq<Spacecraft>)
    requires |draws| == |ps| && ValidDraws(draws)
    requires IsGrouping(ps, draws, gs)
    ensures forall i :: 0 <= i < |gs| ==> gs[i].crew == Crew(ps, gs[i].craft) && gs[i].crew != []
    ensures forall i :: 0 <= i < |gs| ==> gs[i].icon in ShuttleIcons
  {
    forall i | 0 <= i < |gs| ensures gs[i].crew == Crew(ps, gs[i].craft) && gs[i].crew != [] {
      assert IsGroupOf(ps, draws, Crafts(ps)[i], gs[i]);
      CrewNonEmpty(ps, gs[i].craft);
    }
  }

  // ---------------------------------------------------------------------
  // Keeping the grouping up to date, one person at a time
  // ---------------------------------------------------------------------

  lemma ValidDrawsSnoc(draws: seq<real>, d: real)
    requires ValidDraws(draws) && 0.0 <= d < 1.0
    ensures ValidDraws(draws + [d])
  {
  }

  /** The next person's craft already has a group k: their name joins its crew. */
  lemma ExtendExisting(ps: seq<Person>, draws: seq<real>, gs: seq<Spacecraft>, p: Person, d: real, k: nat)
    requires |draws| == |ps| && ValidDraws(draws) && 0.0 <= d < 1.0
    requires IsGrouping(ps, draws, gs)
    requires k < |gs| && gs[k].craft == p.craft
    ensures ValidDraws(draws + [d])
    ensures IsGrouping(ps + [p], draws + [d], gs[k := gs[k].(crew := gs[k].crew + [p.name])])
  {
    ValidDrawsSnoc(draws, d);
    var cs := Crafts(ps);
    var gs' := gs[k := gs[k].(crew := gs[k].crew + [p.name])];
    assert IsGroupOf(ps, draws, cs[k], gs[k]);
    CraftsSnoc(ps, p);
    CraftsDistinct(ps);
    CraftsComplete(ps);
    forall i | 0 <= i < |gs'| ensures IsGroupOf(ps + [p], draws + [d], cs[i], gs'[i]) {
      assert IsGroupOf(ps, draws, cs[i], gs[i]);
      assert cs[i] in cs;
      FirstIndexSnoc(ps, p, cs[i]);
      CrewSnoc(ps, p, cs[i]);
    }
  }

  /** The next person's craft has no group yet: a new one is appended holding just them. */
  lemma ExtendNew(ps: seq<Person>, draws: seq<real>, gs: seq<Spacecraft>, p: Person, d: real)
    requires |draws| == |ps| && ValidDraws(draws) && 0.0 <= d < 1.0
    requires IsGrouping(ps, draws, gs)
    requires forall j :: 0 <= j < |gs| ==> gs[j].craft != p.craft
    ensures ValidDraws(draws + [d])
    ensures IsGrouping(ps + [p], draws + [d], gs + [Spacecraft(p.craft, [p.name], GetRandomShuttleIcon(d))])
  {
    ValidDrawsSnoc(draws, d);
    var cs := Crafts(ps);
    var gs' := gs + [Spacecraft(p.craft, [p.name], GetRandomShuttleIcon(d))];
    assert p.craft !in cs by {
      forall j | 0 <= j < |cs| ensures cs[j] != p.craft {
        assert IsGroupOf(ps, draws, cs[j], gs[j]);
      }
    }
    CraftsSnoc(ps, p);
    CraftsComplete(ps);
    var cs' := cs + [p.craft];
    forall i | 0 <= i < |gs'| ensures IsGroupOf(ps + [p], draws + [d], cs'[i], gs'[i]) {
      FirstIndexSnoc(ps, p, cs'[i]);
      CrewSnoc(ps, p, cs'[i]);
      if i < |gs| {
        assert IsGroupOf(ps, draws, cs[i], gs[i]);
        assert cs[i] in cs;
      } else {
        CrewNonEmpty(ps, p.craft);
      }
    }
  }

  // ---------------------------------------------------------------------
  // The operations
  // ---------------------------------------------------------------------

  /** `acc.find(sc => sc.craft === craft)`: the position of the first group aboard craft, if any. */
  method Find(groups: seq<Spacecraft>, craft: string) returns (found: Option<nat>)
    ensures found.Some? ==> found.value < |groups| && groups[found.value].craft == craft
    ensures found.Some? ==> forall j :: 0 <= j < found.value ==> groups[j].craft != craft
    ensures found.None? <==> forall j :: 0 <= j < |groups| ==> groups[j].craft != craft
  {
    var j := 0;
    while j < |groups|
      invariant 0 <= j <= |groups|
      invariant forall l :: 0 <= l < j ==> groups[l].craft != craft
    {
      if groups[j].craft == craft {
        return Some(j);
      }
      j := j + 1;
    }
    return None;
  }

  /** The `reduce` of rearrangeData: one pass over the people, appending a group
      for each craft not seen before and pushing each name onto its craft's crew. */
  method GroupByCraft(people: seq<Person>, draws: seq<real>) returns (groups: seq<Spacecraft>)
    requires |draws| == |people| && ValidDraws(draws)
    ensures IsGrouping(people, draws, groups)
  {
    groups := [];
    var i := 0;
    while i < |people|
      invariant 0 <= i <= |people|
      invariant ValidDraws(draws[..i])
      invariant IsGrouping(people[..i], draws[..i], groups)
    {
      var person := people[i];
      ghost var before := groups;
      var found := Find(groups, person.craft);
      var k: nat;
      if found.None? {
        groups := groups + [Spacecraft(person.craft, [], GetRandomShuttleIcon(draws[i]))];
        k := |groups| - 1;
      } else {
        k := found.value;
      }
      groups := groups[k := groups[k].(crew := groups[k].crew + [person.name])];
      if found.None? {
        assert [] + [person.name] == [person.name];
        assert groups == before + [Spacecraft(person.craft, [person.name], GetRandomShuttleIcon(draws[i]))];
        ExtendNew(people[..i], draws[..i], before, person, draws[i]);
      } else {
        ExtendExisting(people[..i], draws[..i], before, person, draws[i], k);
      }
      assert people[..i + 1] == people[..i] + [person];
      assert draws[..i + 1] == draws[..i] + [draws[i]];
      i := i + 1;
    }
    assert people[..i] == people;
    assert draws[..i] == draws;
  }

  /** rearrangeData: group the people by craft, drawing an icon for each new craft;
      `number` and `message` pass through unchanged. */
  method RearrangeData(astroData: AstroData, draws: seq<real>) returns (report: SpaceReport)
    requires |draws| == |astroData.people| && ValidDraws(draws)
    ensures report.numberOfPeople == astroData.number
    ensures report.message == astroData.message
    ensures IsGrouping(astroData.people, draws, report.spacecrafts)
    ensures forall i, j :: 0 <= i < j < |report.spacecrafts| ==>
              report.spacecrafts[i].craft != report.spacecrafts[j].craft
    ensures forall i, j :: 0 <= i < j < |report.spacecrafts| ==>
              FirstIndex(astroData.people, report.spacecrafts[i].craft)
              < FirstIndex(astroData.people, report.spacecrafts[j].craft)
    ensures forall i :: 0 <= i < |report.spacecrafts| ==>
              report.spacecrafts[i].crew == Crew(astroData.people, report.spacecrafts[i].craft)
              && report.spacecrafts[i].crew != []
              && report.spacecrafts[i].icon in ShuttleIcons
    ensures multiset(Flatten(report.spacecrafts)) == multiset(astroData.people)
    ensures TotalCrew(report.spacecrafts) == |astroData.people|
    ensures astroData.people == [] ==> report.spacecrafts == []
  {
    var groupedData := GroupByCraft(astroData.people, draws);
    GroupingKeys(astroData.people, draws, groupedData);
    GroupingOrder(astroData.people, draws, groupedData);
    GroupingCrews(astroData.people, draws, groupedData);
    GroupingLossless(astroData.people, draws, groupedData);
    report := SpaceReport(astroData.number, groupedData, astroData.message);
  }

  /** The `/astronauts` route, given the outcome of the upstream fetch. */
  method HandleAstronauts(fetched: Result<AstroData, string>, draws: seq<real>) returns (response: Response)
    requires fetched.Success? ==> |draws| == |fetched.value.people| && ValidDraws(draws)
    ensures fetched.Failure? ==> response == ServerError(500, FetchErrorMessage)
    ensures fetched.Success? ==>
              && response.Json?
              && response.report.numberOfPeople == fetched.value.number
              && response.report.message == fetched.value.message
              && IsGrouping(fetched.value.people, draws, response.report.spacecrafts)
  {
    match fetched
    case Failure(_) =>
      response := ServerError(500, FetchErrorMessage);
    case Success(astroData) =>
      var report := RearrangeData(astroData, draws);
      response := Json(report);
  }

  /** Two people aboard the same station end up in one group, in input order. */
  lemma TwoAboardOneStation(draws: seq<real>, gs: seq<Spacecraft>)
    requires |draws| == 2 && ValidDraws(draws)
    requires IsGrouping([Person("A", "ISS"), Person("B", "ISS")], draws, gs)
    ensures gs == [Spacecraft("ISS", ["A", "B"], GetRandomShuttleIcon(draws[0]))]
  {
    var ps := [Person("A", "ISS"), Person("B", "ISS")];
    assert ps[..1] == [Person("A", "ISS")];
    assert [Person("A", "ISS")][..0] == [];
    assert Crafts(ps) == ["ISS"];
    assert Crew(ps, "ISS") == ["A", "B"];
    assert FirstIndex(ps, "ISS") == 0;
    assert IsGroupOf(ps, draws, "ISS", gs[0]);
  }
}
