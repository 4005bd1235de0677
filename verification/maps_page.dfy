/** The community-locations page (`app/maps/page.tsx`): the type toggles and
    search box that filter the list, and the type labels and colours. */
module MapsPage {
  import Seqs

  datatype LocationType = Digester | Compost | Pickup

  /** The `type` string of each kind. */
  function Key(t: LocationType): string {
    match t
    case Digester => "digester"
    case Compost => "compost"
    case Pickup => "pickup"
  }

  datatype Location = Location(
    id: string,
    name: string,
    kind: LocationType,
    address: string,
    contact: string,
    distance: real,
    latitude: real,
    longitude: real)

  /** The `selectedTypes` checkboxes. */
  datatype Toggles = Toggles(digester: bool, compost: bool, pickup: bool)

  const InitialToggles: Toggles := Toggles(true, true, true)
  const InitialQuery: string := ""

  function Enabled(toggles: Toggles, t: LocationType): bool {
    match t
    case Digester => toggles.digester
    case Compost => toggles.compost
    case Pickup => toggles.pickup
  }

  /** A checkbox change: `{...selectedTypes, [id]: checked}`. */
  function SetToggle(toggles: Toggles, t: LocationType, checked: bool): (r: Toggles)
    ensures Enabled(r, t) == checked
    ensures forall other :: other != t ==> Enabled(r, other) == Enabled(toggles, other)
  {
    match t
    case Digester => toggles.(digester := checked)
    case Compost => toggles.(compost := checked)
    case Pickup => toggles.(pickup := checked)
  }

  /** `toLowerCase` on the ASCII letters. */
  function LowerChar(c: char): char {
    if 'A' <= c <= 'Z' then (c as int + 32) as char else c
  }

  predicate IsUpper(c: char) {
    'A' <= c <= 'Z'
  }

  /** Lower-casing maps each capital to the letter 32 code points above it,
      leaves every other character alone, and leaves no capital behind. */
  function Lower(s: string): (r: string)
    ensures |r| == |s|
    ensures forall i :: 0 <= i < |s| && IsUpper(s[i]) ==> r[i] as int == s[i] as int + 32
    ensures forall i :: 0 <= i < |s| && !IsUpper(s[i]) ==> r[i] == s[i]
    ensures forall i :: 0 <= i < |r| ==> !IsUpper(r[i])
    ensures (forall i :: 0 <= i < |s| ==> !IsUpper(s[i])) ==> r == s
  {
    seq(|s|, i requires 0 <= i < |s| => LowerChar(s[i]))
  }

  /** Lower-casing twice is lower-casing once. */
  lemma LowerIdempotent(s: string)
    ensures Lower(Lower(s)) == Lower(s)
  {
  }

  predicate OccursAt(hay: string, needle: string, i: int) {
    0 <= i <= |hay| - |needle| && hay[i..i + |needle|] == needle
  }

  /** `hay.includes(needle)`. */
  predicate Includes(hay: string, needle: string) {
    exists i :: 0 <= i <= |hay| && OccursAt(hay, needle, i)
  }

  /** The keep-test of `filteredLocations`. */
  predicate Visible(toggles: Toggles, query: string, loc: Location) {
    && Enabled(toggles, loc.kind)
    && (Includes(Lower(loc.name), Lower(query)) || Includes(Lower(loc.address), Lower(query)))
  }

  function Keep(toggles: Toggles, query: string): Location -> bool {
    (loc: Location) => Visible(toggles, query, loc)
  }

  /** `filteredLocations`. */
  function FilteredLocations(locations: seq<Location>, toggles: Toggles, query: string): (r: seq<Location>)
    ensures forall loc :: loc in r <==>
              && loc in locations
              && Enabled(toggles, loc.kind)
              && (Includes(Lower(loc.name), Lower(query)) || Includes(Lower(loc.address), Lower(query)))
    ensures forall loc :: multiset(r)[loc] == if Visible(toggles, query, loc) then multiset(locations)[loc] else 0
  {
    Seqs.Filter(locations, Keep(toggles, query))
  }

  /** The list shown keeps the order of `locations`. */
  lemma FilteredIsSubsequence(locations: seq<Location>, toggles: Toggles, query: string)
    ensures Seqs.SubsequenceOf(FilteredLocations(locations, toggles, query), locations)
  {
    Seqs.FilterIsSubsequence(locations, Keep(toggles, query));
  }

  /** On first render (every type on, empty search) every location is listed. */
  lemma InitialShowsAll(locations: seq<Location>)
    ensures FilteredLocations(locations, InitialToggles, InitialQuery) == locations
  {
    forall loc | loc in locations
      ensures Keep(InitialToggles, InitialQuery)(loc)
    {
      assert OccursAt(Lower(loc.name), Lower(InitialQuery), 0);
    }
    Seqs.FilterKeepAll(locations, Keep(InitialToggles, InitialQuery));
  }

  /** Unticking a type only drops locations: the new list is the old list filtered
      again, hence a subsequence of it. */
  lemma UntickingNeverAdds(locations: seq<Location>, toggles: Toggles, query: string, t: LocationType)
    ensures var after := FilteredLocations(locations, SetToggle(toggles, t, false), query);
            && after == Seqs.Filter(FilteredLocations(locations, toggles, query), Keep(SetToggle(toggles, t, false), query))
            && Seqs.SubsequenceOf(after, FilteredLocations(locations, toggles, query))
  {
    var narrow := Keep(SetToggle(toggles, t, false), query);
    Seqs.FilterNarrow(locations, Keep(toggles, query), narrow);
    Seqs.FilterIsSubsequence(FilteredLocations(locations, toggles, query), narrow);
  }

  /** `getTypeColor`. */
  function TypeColor(kind: string): (r: string)
    ensures r == "bg-gray-500" <==> forall t :: Key(t) != kind
  {
    if kind == "digester" then assert Key(Digester) == kind; "bg-green-500"
    else if kind == "compost" then assert Key(Compost) == kind; "bg-amber-500"
    else if kind == "pickup" then assert Key(Pickup) == kind; "bg-blue-500"
    else "bg-gray-500"
  }

  /** `getTypeLabel`. */
  function TypeLabel(kind: string): (r: string)
    ensures r == "Unknown" <==> forall t :: Key(t) != kind
  {
    if kind == "digester" then assert Key(Digester) == kind; "Biogas Digester"
    else if kind == "compost" then assert Key(Compost) == kind; "Compost Center"
    else if kind == "pickup" then assert Key(Pickup) == kind; "Waste Pickup"
    else "Unknown"
  }

  /** Label and colour agree on which strings are known types: exactly the three
      keys, each with its own label and colour. */
  lemma LabelsAndColoursAgree(kind: string)
    ensures TypeLabel(kind) == "Unknown" <==> TypeColor(kind) == "bg-gray-500"
    ensures TypeLabel(kind) != "Unknown" <==> exists t :: Key(t) == kind
    ensures forall t1, t2 :: t1 != t2 ==> TypeLabel(Key(t1)) != TypeLabel(Key(t2)) && TypeColor(Key(t1)) != TypeColor(Key(t2))
  {
    if kind == "digester" {
      assert Key(Digester) == kind;
    } else if kind == "compost" {
      assert Key(Compost) == kind;
    } else if kind == "pickup" {
      assert Key(Pickup) == kind;
    }
  }
}
