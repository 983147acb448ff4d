/** The public stadium catalogue page (index.js): filtering the loaded
    stadiums, the rating stars and availability badge of a stadium card,
    the favourites list kept in storage, the time-slot selection and booking
    form, and the night-mode toggle. */
module Catalog {
  import opened Base
  import opened Text

  /** A stadium card's data. `rating` is in tenths of a star (4.7 is 47);
      prices and deposits are whole currency units. */
  datatype Stadium = Stadium(
    id: int,
    name: string,
    location: string,
    area: string,
    price: int,
    deposit: int,
    rating: nat,
    availabilityPercentage: int)

  // ---------------------------------------------------------------------
  // getAvailabilityClass / getAvailabilityText
  // ---------------------------------------------------------------------

  /** The three availability levels a card can show. */
  datatype Band = Limited | Moderate | Available

  function BandOf(percentage: int): Band
  {
    if percentage < 30 then Limited else if percentage < 60 then Moderate else Available
  }

  /** `getAvailabilityClass(percentage)`. */
  function AvailabilityClass(percentage: int): (c: string)
    ensures c == "availability-low" <==> percentage < 30
    ensures c == "availability-medium" <==> 30 <= percentage < 60
    ensures c == "availability-high" <==> 60 <= percentage
  {
    if percentage < 30 then "availability-low"
    else if percentage < 60 then "availability-medium"
    else "availability-high"
  }

  /** `getAvailabilityText(percentage)`. */
  function AvailabilityText(percentage: int): (t: string)
    ensures t == "محدود" <==> percentage < 30
    ensures t == "متوسط" <==> 30 <= percentage < 60
    ensures t == "متاح" <==> 60 <= percentage
  {
    if percentage < 30 then "محدود"
    else if percentage < 60 then "متوسط"
    else "متاح"
  }

  /** The badge's class and its text always describe the same level: two
      percentages share a class exactly when they share a text, and both
      are determined by the level. */
  lemma AvailabilityClassMatchesText(p: int, q: int)
    ensures AvailabilityClass(p) == AvailabilityClass(q) <==> BandOf(p) == BandOf(q)
    ensures AvailabilityText(p) == AvailabilityText(q) <==> BandOf(p) == BandOf(q)
  {
  }

  /** More availability never shows a lower level. */
  lemma AvailabilityMonotone(p: int, q: int)
    requires p <= q
    ensures BandOf(p) == Available ==> BandOf(q) == Available
    ensures BandOf(q) == Limited ==> BandOf(p) == Limited
  {
  }

  // ---------------------------------------------------------------------
  // generateStarRating
  // ---------------------------------------------------------------------

  /** The icon drawn in one of the five star positions. */
  datatype Star = FullStar | HalfStar | EmptyStar

  /** `generateStarRating(rating)`: five icons; position `i` (from 0) is full
      below the whole part of the rating, half right after it when the
      fraction is at least one half, and empty otherwise. */
  method GenerateStarRating(rating: nat) returns (stars: seq<Star>)
    ensures |stars| == 5
    ensures forall i :: 0 <= i < 5 ==> (stars[i] == FullStar <==> i < rating / 10)
    ensures forall i :: 0 <= i < 5 ==>
      (stars[i] == HalfStar <==> i == rating / 10 && rating % 10 >= 5)
  {
    var fullStars := rating / 10;
    var hasHalfStar := rating % 10 >= 5;
    stars := [];
    var i := 1;
    while i <= 5
      invariant 1 <= i <= 6
      invariant |stars| == i - 1
      invariant forall k :: 0 <= k < i - 1 ==> (stars[k] == FullStar <==> k < fullStars)
      invariant forall k :: 0 <= k < i - 1 ==> (stars[k] == HalfStar <==> k == fullStars && hasHalfStar)
    {
      if i <= fullStars {
        stars := stars + [FullStar];
      } else if i == fullStars + 1 && hasHalfStar {
        stars := stars + [HalfStar];
      } else {
        stars := stars + [EmptyStar];
      }
      i := i + 1;
    }
  }

  /** The number of full stars among the icons. */
  function CountFull(stars: seq<Star>): nat
    decreases |stars|
  {
    if stars == [] then 0 else (if stars[0] == FullStar then 1 else 0) + CountFull(stars[1..])
  }

  /** Icons laid out by the star rule show the whole part of the rating as
      full stars, capped at five. */
  lemma {:induction false} FullStarsAreWholePart(stars: seq<Star>, whole: nat, n: nat)
    requires |stars| == n
    requires forall i :: 0 <= i < n ==> (stars[i] == FullStar <==> i < whole)
    ensures CountFull(stars) == if whole < n then whole else n
    decreases n
  {
    if n > 0 {
      var front := stars[..n - 1];
      FullStarsAreWholePart(front, whole, n - 1);
      CountFullSnoc(front, stars[n - 1]);
      assert stars == front + [stars[n - 1]];
    }
  }

  lemma {:induction false} CountFullSnoc(stars: seq<Star>, s: Star)
    ensures CountFull(stars + [s]) == CountFull(stars) + (if s == FullStar then 1 else 0)
    decreases |stars|
  {
    if stars == [] {
      assert stars + [s] == [s];
    } else {
      assert (stars + [s])[1..] == stars[1..] + [s];
      CountFullSnoc(stars[1..], s);
    }
  }

  // ---------------------------------------------------------------------
  // filterStadiums
  // ---------------------------------------------------------------------

  /** A price band chosen in the price filter; an upper bound of 999 means
      "and above". */
  datatype PriceBand = PriceBand(min: int, max: int)

  /** One filter pass of `filterStadiums`. */
  datatype Stage =
    | Search(term: string)
    | InArea(area: string)
    | InPriceBand(band: PriceBand)
    | MinRating(tenths: int)

  /** The predicate a filter pass keeps a stadium by. */
  predicate Keeps(st: Stage, s: Stadium)
  {
    match st
    case Search(term) => Contains(Lower(s.name), term) || Contains(Lower(s.location), term)
    case InArea(area) => s.area == area
    case InPriceBand(band) =>
      if band.max == 999 then s.price >= band.min else band.min <= s.price <= band.max
    case MinRating(tenths) => s.rating >= tenths
  }

  /** `list.filter(...)` for one pass. */
  function ApplyStage(list: seq<Stadium>, st: Stage): (r: seq<Stadium>)
    ensures IsSubsequence(r, list)
    ensures forall s :: s in r ==> Keeps(st, s)
    ensures forall s :: s in list && Keeps(st, s) ==> s in r
    decreases |list|
  {
    if list == [] then []
    else if Keeps(st, list[0]) then [list[0]] + ApplyStage(list[1..], st)
    else ApplyStage(list[1..], st)
  }

  /** A stadium passes every one of the given passes. */
  predicate KeepsAll(stages: seq<Stage>, s: Stadium)
  {
    forall k :: 0 <= k < |stages| ==> Keeps(stages[k], s)
  }

  /** The single-pass reference: keep, in order, the stadiums that pass every stage. */
  function Matching(list: seq<Stadium>, stages: seq<Stage>): seq<Stadium>
    decreases |list|
  {
    if list == [] then []
    else if KeepsAll(stages, list[0]) then [list[0]] + Matching(list[1..], stages)
    else Matching(list[1..], stages)
  }

  /** With no pass at all, every stadium is kept. */
  lemma {:induction false} MatchingNone(list: seq<Stadium>)
    ensures Matching(list, []) == list
    decreases |list|
  {
    if list != [] {
      MatchingNone(list[1..]);
    }
  }

  /** Filtering the survivors of some passes by one more pass is filtering by
      all of them at once. */
  lemma {:induction false} MatchingThenStage(list: seq<Stadium>, stages: seq<Stage>, st: Stage)
    ensures ApplyStage(Matching(list, stages), st) == Matching(list, stages + [st])
    decreases |list|
  {
    if list != [] {
      MatchingThenStage(list[1..], stages, st);
      var s := list[0];
      assert KeepsAll(stages + [st], s) <==> KeepsAll(stages, s) && Keeps(st, s) by {
        if KeepsAll(stages, s) && Keeps(st, s) {
          forall k | 0 <= k < |stages + [st]|
            ensures Keeps((stages + [st])[k], s)
          {
            if k < |stages| {
              assert (stages + [st])[k] == stages[k];
            }
          }
        }
        if KeepsAll(stages + [st], s) {
          assert Keeps((stages + [st])[|stages|], s);
          forall k | 0 <= k < |stages|
            ensures Keeps(stages[k], s)
          {
            assert (stages + [st])[k] == stages[k];
          }
        }
      }
    }
  }

  /** The reference keeps exactly the stadiums passing every stage, in their
      original order. */
  lemma {:induction false} MatchingIsExact(list: seq<Stadium>, stages: seq<Stage>)
    ensures IsSubsequence(Matching(list, stages), list)
    ensures forall s :: s in Matching(list, stages) ==> KeepsAll(stages, s)
    ensures forall s :: s in list && KeepsAll(stages, s) ==> s in Matching(list, stages)
    decreases |list|
  {
    if list != [] {
      MatchingIsExact(list[1..], stages);
      var rest := Matching(list[1..], stages);
      if KeepsAll(stages, list[0]) {
        SubsequenceConsBoth(list[0], rest, list[1..]);
        assert [list[0]] + list[1..] == list;
      } else {
        SubsequenceCons(rest, list[0], list[1..]);
        assert [list[0]] + list[1..] == list;
      }
    } else {
      SubsequenceReflexive(list);
    }
  }

  /** The values read from the four filter controls: an empty text or a
      missing choice leaves that filter off. The search text and the rating
      are used as typed; the price choice is already split into its band. */
  datatype Criteria = Criteria(
    search: string,
    area: string,
    price: Option<PriceBand>,
    minRating: Option<int>)

  /** The passes `filterStadiums` runs for the given controls, in order. */
  function ActiveStages(c: Criteria): (stages: seq<Stage>)
    ensures |stages| <= 4
    ensures c.search == "" && c.area == "" && c.price.None? && c.minRating.None? ==> stages == []
  {
    (if c.search != "" then [Search(Lower(c.search))] else [])
    + (if c.area != "" then [InArea(c.area)] else [])
    + (if c.price.Some? then [InPriceBand(c.price.value)] else [])
    + (if c.minRating.Some? then [MinRating(c.minRating.value)] else [])
  }

  /** A stadium passes the active filters exactly when it satisfies each
      control that is set. */
  lemma ActiveStagesMeaning(c: Criteria, s: Stadium)
    ensures KeepsAll(ActiveStages(c), s) <==>
      (c.search != "" ==>
        Contains(Lower(s.name), Lower(c.search)) || Contains(Lower(s.location), Lower(c.search)))
      && (c.area != "" ==> s.area == c.area)
      && (c.price.Some? ==> Keeps(InPriceBand(c.price.value), s))
      && (c.minRating.Some? ==> s.rating >= c.minRating.value)
  {
    var stages := ActiveStages(c);
    var a := if c.search != "" then [Search(Lower(c.search))] else [];
    var b := if c.area != "" then [InArea(c.area)] else [];
    var p := if c.price.Some? then [InPriceBand(c.price.value)] else [];
    var r := if c.minRating.Some? then [MinRating(c.minRating.value)] else [];
    assert stages == a + b + p + r;
    if c.search != "" {
      assert stages[0] == Search(Lower(c.search));
    }
    if c.area != "" {
      assert stages[|a|] == InArea(c.area);
    }
    if c.price.Some? {
      assert stages[|a| + |b|] == InPriceBand(c.price.value);
    }
    if c.minRating.Some? {
      assert stages[|a| + |b| + |p|] == MinRating(c.minRating.value);
    }
  }

  // ---------------------------------------------------------------------
  // Favourites
  // ---------------------------------------------------------------------

  /** `favorites.filter(id => id !== stadiumId)`: every copy of `id` goes,
      every copy of every other id stays, in the original order. */
  function RemoveAll(favs: seq<int>, id: int): (r: seq<int>)
    ensures id !in r
    ensures IsSubsequence(r, favs)
    ensures multiset(r) == multiset(favs)[id := 0]
    ensures |r| == |favs| - multiset(favs)[id]
    ensures forall x :: x != id ==> (x in r <==> x in favs)
    decreases |favs|
  {
    if favs == [] then []
    else
      assert [favs[0]] + favs[1..] == favs;
      assert multiset(favs) == multiset{favs[0]} + multiset(favs[1..]);
      var rest := RemoveAll(favs[1..], id);
      if favs[0] == id then
        SubsequenceCons(rest, favs[0], favs[1..]);
        rest
      else
        SubsequenceConsBoth(favs[0], rest, favs[1..]);
        assert multiset([favs[0]] + rest) == multiset{favs[0]} + multiset(rest);
        [favs[0]] + rest
  }

  /** Removing an id that is not there changes nothing. */
  lemma {:induction false} RemoveAllAbsent(favs: seq<int>, id: int)
    requires id !in favs
    ensures RemoveAll(favs, id) == favs
    decreases |favs|
  {
    if favs != [] {
      RemoveAllAbsent(favs[1..], id);
    }
  }

  /** Removal distributes over concatenation. */
  lemma {:induction false} RemoveAllAppend(a: seq<int>, b: seq<int>, id: int)
    ensures RemoveAll(a + b, id) == RemoveAll(a, id) + RemoveAll(b, id)
    decreases |a|
  {
    if a == [] {
      assert a + b == b;
    } else {
      assert (a + b)[1..] == a[1..] + b;
      RemoveAllAppend(a[1..], b, id);
    }
  }

  /** The stored list after `toggleFavorite(id)`: the id's membership flips,
      every other id keeps its membership and its number of copies; a new
      favourite goes once at the end, an old one loses all its copies. */
  function Toggled(favs: seq<int>, id: int): (r: seq<int>)
    ensures id in r <==> id !in favs
    ensures forall x :: x != id ==> (x in r <==> x in favs)
    ensures forall x :: x != id ==> multiset(r)[x] == multiset(favs)[x]
    ensures id !in favs ==> |r| == |favs| + 1 && r[..|favs|] == favs && r[|favs|] == id
    ensures id in favs ==> multiset(r)[id] == 0 && IsSubsequence(r, favs)
  {
    if id in favs then RemoveAll(favs, id) else favs + [id]
  }

  /** Toggling an id that was not a favourite and then toggling it again
      restores the list exactly. */
  lemma ToggleTwiceRestores(favs: seq<int>, id: int)
    requires id !in favs
    ensures Toggled(Toggled(favs, id), id) == favs
  {
    RemoveAllAppend(favs, [id], id);
    RemoveAllAbsent(favs, id);
    assert RemoveAll([id], id) == [];
  }

  /** Toggling a favourite twice drops all its copies and puts it once at the end. */
  lemma ToggleTwiceMovesToEnd(favs: seq<int>, id: int)
    requires id in favs
    ensures Toggled(Toggled(favs, id), id) == RemoveAll(favs, id) + [id]
  {
  }

  // ---------------------------------------------------------------------
  // Booking selection and the booking form
  // ---------------------------------------------------------------------

  /** `currentStadiums.find(s => s.id === stadiumId)`: the position of the
      first stadium with the id. */
  function FindIndex(ss: seq<Stadium>, id: int): (r: Option<nat>)
    ensures r.Some? ==> r.value < |ss| && ss[r.value].id == id
    ensures r.Some? ==> forall j :: 0 <= j < r.value ==> ss[j].id != id
    ensures r.None? ==> forall j :: 0 <= j < |ss| ==> ss[j].id != id
    decreases |ss|
  {
    if ss == [] then None
    else if ss[0].id == id then Some(0)
    else
      match FindIndex(ss[1..], id)
      case None => None
      case Some(k) => Some(k + 1)
  }

  /** What `showBookingModal(stadiumId)` does. */
  datatype ModalOutcome =
    | WarnNoTime
    | NoSuchStadium
    | ShowModal(stadiumId: int, name: string, time: string, deposit: int)

  /** What submitting the booking form does. */
  datatype SubmitOutcome = WarnMissingFields | Booked

  /** The page's state: the loaded stadiums, the chosen slot, the stored
      favourites and theme, and whether night mode is on. */
  class CatalogPage {
    var currentStadiums: seq<Stadium>
    var selectedStadiumId: Option<int>
    var selectedTime: string
    /** The `favoriteStadiums` list in storage. */
    var favorites: seq<int>
    /** The `theme` entry in storage. */
    var storedTheme: Option<string>
    var nightMode: bool

    /** A page opened with the given stored favourites and theme. */
    constructor (storedFavorites: seq<int>, theme: Option<string>)
      ensures currentStadiums == [] && selectedStadiumId == None && selectedTime == ""
      ensures favorites == storedFavorites && storedTheme == theme && !nightMode
    {
      currentStadiums := [];
      selectedStadiumId := None;
      selectedTime := "";
      favorites := storedFavorites;
      storedTheme := theme;
      nightMode := false;
    }

    /** `filterStadiums()`: runs the active passes one after another over the
        loaded stadiums; `warn` is the "no stadium matches" toast. */
    method FilterStadiums(c: Criteria) returns (filtered: seq<Stadium>, warn: bool)
      ensures filtered == Matching(currentStadiums, ActiveStages(c))
      ensures warn <==> filtered == []
    {
      ghost var done: seq<Stage> := [];
      MatchingNone(currentStadiums);
      filtered := currentStadiums;
      if c.search != "" {
        var searchTerm := Lower(c.search);
        MatchingThenStage(currentStadiums, done, Search(searchTerm));
        filtered := ApplyStage(filtered, Search(searchTerm));
        done := done + [Search(searchTerm)];
      }
      if c.area != "" {
        MatchingThenStage(currentStadiums, done, InArea(c.area));
        filtered := ApplyStage(filtered, InArea(c.area));
        done := done + [InArea(c.area)];
      }
      if c.price.Some? {
        MatchingThenStage(currentStadiums, done, InPriceBand(c.price.value));
        filtered := ApplyStage(filtered, InPriceBand(c.price.value));
        done := done + [InPriceBand(c.price.value)];
      }
      if c.minRating.Some? {
        MatchingThenStage(currentStadiums, done, MinRating(c.minRating.value));
        filtered := ApplyStage(filtered, MinRating(c.minRating.value));
        done := done + [MinRating(c.minRating.value)];
      }
      assert done == ActiveStages(c);
      warn := filtered == [];
    }

    /** `toggleFavorite(stadiumId)`: removes every copy of a favourite id, or
        appends a new one; `added` tells which toast is shown. */
    method ToggleFavorite(stadiumId: int) returns (added: bool)
      modifies this`favorites
      ensures favorites == Toggled(old(favorites), stadiumId)
      ensures added <==> stadiumId !in old(favorites)
      ensures added ==> favorites == old(favorites) + [stadiumId]
      ensures stadiumId in favorites <==> added
    {
      var favs := favorites;
      if stadiumId in favs {
        favs := RemoveAll(favs, stadiumId);
        added := false;
      } else {
        favs := favs + [stadiumId];
        added := true;
      }
      favorites := favs;
    }

    /** `selectTimeSlot(element, stadiumId, time)`. */
    method SelectTimeSlot(stadiumId: int, time: string)
      modifies this`selectedStadiumId, this`selectedTime
      ensures selectedStadiumId == Some(stadiumId) && selectedTime == time
    {
      selectedStadiumId := Some(stadiumId);
      selectedTime := time;
    }

    /** `showBookingModal(stadiumId)`: warns while no time is chosen, does
        nothing for an unknown stadium, and otherwise fills the form with the
        clicked stadium and the chosen time. It does not compare the clicked
        stadium with the one the time was chosen on. */
    method ShowBookingModal(stadiumId: int) returns (o: ModalOutcome)
      ensures selectedTime == "" ==> o == WarnNoTime
      ensures selectedTime != "" && FindIndex(currentStadiums, stadiumId).None? ==> o == NoSuchStadium
      ensures selectedTime != "" && FindIndex(currentStadiums, stadiumId).Some? ==>
        var s := currentStadiums[FindIndex(currentStadiums, stadiumId).value];
        o == ShowModal(stadiumId, s.name, selectedTime, s.deposit)
    {
      if selectedTime == "" {
        return WarnNoTime;
      }
      var k := FindIndex(currentStadiums, stadiumId);
      if k.None? {
        return NoSuchStadium;
      }
      var stadium := currentStadiums[k.value];
      o := ShowModal(stadiumId, stadium.name, selectedTime, stadium.deposit);
    }

    /** Submitting the booking form: a missing name or phone only warns; a
        complete form books and, once the confirmation delay has passed,
        clears the chosen slot. */
    method SubmitBooking(name: string, phone: string) returns (o: SubmitOutcome)
      modifies this`selectedStadiumId, this`selectedTime
      ensures name == "" || phone == "" ==> o == WarnMissingFields
      ensures name == "" || phone == "" ==>
        selectedStadiumId == old(selectedStadiumId) && selectedTime == old(selectedTime)
      ensures name != "" && phone != "" ==> o == Booked
      ensures name != "" && phone != "" ==> selectedStadiumId == None && selectedTime == ""
    {
      if name == "" || phone == "" {
        return WarnMissingFields;
      }
      selectedStadiumId := None;
      selectedTime := "";
      o := Booked;
    }

    /** The saved theme applied when the page starts, if the toggle exists. */
    method InitTheme(toggleExists: bool)
      modifies this`nightMode
      ensures toggleExists && storedTheme == Some("night") ==> nightMode
      ensures !(toggleExists && storedTheme == Some("night")) ==> nightMode == old(nightMode)
    {
      if !toggleExists {
        return;
      }
      if storedTheme == Some("night") {
        nightMode := true;
      }
    }

    /** A click on the theme toggle: flips night mode and saves the new theme. */
    method ToggleTheme()
      modifies this`nightMode, this`storedTheme
      ensures nightMode == !old(nightMode)
      ensures storedTheme == Some(if nightMode then "night" else "light")
      ensures RestoredNightMode(storedTheme) == nightMode
    {
      nightMode := !nightMode;
      if nightMode {
        storedTheme := Some("night");
      } else {
        storedTheme := Some("light");
      }
    }
  }

  /** The night mode a fresh page restores from a stored theme. */
  function RestoredNightMode(stored: Option<string>): bool
  {
    stored == Some("night")
  }
}
