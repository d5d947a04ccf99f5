/**
 * The catalog of the "Discover Algeria" map: places grouped in four
 * category records, each an ordered key-to-place mapping, and the tagged
 * entries (`PlaceWithMeta`) that flattening produces.
 */
module Catalog {
  import opened Wrappers

  /** Position on the map image, as percentages of its width and height. */
  datatype Coordinates = Coordinates(x: real, y: real)

  /** One point of interest; every field but name, city and position is optional. */
  datatype Place = Place(
    name: string,
    city: string,
    description: Option<string>,
    rating: Option<real>,
    price: Option<real>,
    priceRange: Option<string>,
    amenities: Option<seq<string>>,
    cuisine: Option<string>,
    duration: Option<string>,
    bestTime: Option<string>,
    coordinates: Coordinates)

  /** One `[key, value]` pair of a category record. */
  datatype Entry = Entry(key: string, place: Place)

  /** `Record<string, Place>`, in the order `Object.entries` yields it (insertion order). */
  type Record = seq<Entry>

  datatype Category = Hotels | Attractions | Restaurants | Activities

  /** The category tag the page attaches to each entry, and the filter key that selects it. */
  function Name(c: Category): (r: string)
    ensures r != "all" && r != ""
  {
    match c
    case Hotels => "hotels"
    case Attractions => "attractions"
    case Restaurants => "restaurants"
    case Activities => "activities"
  }

  /** A place together with its record key and category tag. */
  datatype PlaceWithMeta = PlaceWithMeta(place: Place, key: string, category: Category)

  /** The page's `data` constant: the four category records. */
  datatype Data = Data(hotels: Record, attractions: Record, restaurants: Record, activities: Record)

  function RecordOf(d: Data, c: Category): Record {
    match c
    case Hotels => d.hotels
    case Attractions => d.attractions
    case Restaurants => d.restaurants
    case Activities => d.activities
  }

  /** The fixed order in which categories are listed. */
  const CategoryOrder: seq<Category> := [Hotels, Attractions, Restaurants, Activities]

  /** A record's entries, each tagged with its key and the category (one `push` call). */
  function Tagged(r: Record, c: Category): (t: seq<PlaceWithMeta>)
    ensures |t| == |r|
  {
    if r == [] then [] else [PlaceWithMeta(r[0].place, r[0].key, c)] + Tagged(r[1..], c)
  }

  /** Entry `i` of the tagged sequence is entry `i` of the record, with its own key and the tag. */
  lemma {:induction false} TaggedAt(r: Record, c: Category, i: nat)
    requires i < |r|
    ensures Tagged(r, c)[i] == PlaceWithMeta(r[i].place, r[i].key, c)
  {
    if i > 0 {
      TaggedAt(r[1..], c, i - 1);
    }
  }

  /** Tagging a record extended by one entry extends the tagged sequence by that entry. */
  lemma {:induction false} TaggedSnoc(r: Record, e: Entry, c: Category)
    ensures Tagged(r + [e], c) == Tagged(r, c) + [PlaceWithMeta(e.place, e.key, c)]
  {
    if r == [] {
      assert [e][1..] == [];
    } else {
      assert (r + [e])[1..] == r[1..] + [e];
      TaggedSnoc(r[1..], e, c);
    }
  }

  /** Distinct categories carry distinct tags. */
  lemma NameInjective(c: Category, c': Category)
    requires Name(c) == Name(c')
    ensures c == c'
  {
  }

  /** Every tagged entry carries the tag it was pushed with. */
  lemma TaggedCategories(r: Record, c: Category)
    ensures forall i :: 0 <= i < |r| ==> Tagged(r, c)[i].category == c
  {
    forall i | 0 <= i < |r| ensures Tagged(r, c)[i].category == c {
      TaggedAt(r, c, i);
    }
  }

  /** Every entry of a flattening belongs to one of the flattened categories. */
  lemma {:induction false} FlattenInCategories(d: Data, cs: seq<Category>)
    ensures forall i :: 0 <= i < |FlattenIn(d, cs)| ==> FlattenIn(d, cs)[i].category in cs
  {
    if cs != [] {
      var t: seq<PlaceWithMeta> := Tagged(RecordOf(d, cs[0]), cs[0]);
      var rest: seq<PlaceWithMeta> := FlattenIn(d, cs[1..]);
      TaggedCategories(RecordOf(d, cs[0]), cs[0]);
      FlattenInCategories(d, cs[1..]);
      forall i | 0 <= i < |t + rest| ensures (t + rest)[i].category in cs {
        if i >= |t| {
          assert (t + rest)[i] == rest[i - |t|];
          assert rest[i - |t|].category in cs[1..];
        }
      }
    }
  }

  /** The entries of the categories `cs`, category after category. */
  function FlattenIn(d: Data, cs: seq<Category>): seq<PlaceWithMeta> {
    if cs == [] then [] else Tagged(RecordOf(d, cs[0]), cs[0]) + FlattenIn(d, cs[1..])
  }

  /** The whole catalog as one tagged sequence. */
  function Flatten(d: Data): seq<PlaceWithMeta> {
    FlattenIn(d, CategoryOrder)
  }

  /** No key appears twice. */
  ghost predicate DistinctKeys(s: seq<PlaceWithMeta>) {
    forall i, j :: 0 <= i < j < |s| ==> s[i].key != s[j].key
  }

  /** Keys are unique across the whole catalog, not only within a category. */
  ghost predicate WellFormed(d: Data) {
    DistinctKeys(Flatten(d))
  }

  /** Appending one category to a flattening appends that category's entries. */
  lemma {:induction false} FlattenInSnoc(d: Data, cs: seq<Category>, c: Category)
    ensures FlattenIn(d, cs + [c]) == FlattenIn(d, cs) + Tagged(RecordOf(d, c), c)
  {
    if cs == [] {
      assert [c][1..] == [];
    } else {
      assert (cs + [c])[1..] == cs[1..] + [c];
      FlattenInSnoc(d, cs[1..], c);
    }
  }

  /** The flattened catalog is hotels, then attractions, then restaurants, then activities. */
  lemma FlattenOrder(d: Data)
    ensures Flatten(d) == Tagged(d.hotels, Hotels) + Tagged(d.attractions, Attractions)
                          + Tagged(d.restaurants, Restaurants) + Tagged(d.activities, Activities)
    ensures |Flatten(d)| == |d.hotels| + |d.attractions| + |d.restaurants| + |d.activities|
  {
    FlattenInSnoc(d, [], Hotels);
    FlattenInSnoc(d, [Hotels], Attractions);
    FlattenInSnoc(d, [Hotels, Attractions], Restaurants);
    FlattenInSnoc(d, [Hotels, Attractions, Restaurants], Activities);
    assert [Hotels, Attractions, Restaurants] + [Activities] == CategoryOrder;
  }
}
