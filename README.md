# Discover Algeria map page — a Dafny model

This project models the logic of the "Discover Algeria" tourism map page
(`TourismMap` in `tourism-map-page/app/page.tsx`). The page shows a fixed
catalog of hotels, attractions, restaurants and activities over a map of
Algeria. The model covers:

- **The filter/search engine** (`filteredPlaces`). The category stage
  flattens the selected category records. It always goes hotels →
  attractions → restaurants → activities, and keeps each record's own
  order. Every entry is tagged with its key and category. The search stage
  keeps an entry when the lower-cased search term occurs in its lower-cased
  name, description (missing counts as `""`) or city.
- **The component's state** (`selectedPlace`, `hoveredPlace`,
  `activeFilter`, `searchTerm`, `viewMode`, `zoom`). Each event handler
  changes exactly one field.
- **The small display rules.** Zoom is clamped to [0.5, 2.5] in steps of
  0.25. The tooltip goes on the left exactly when x > 70. The hovered
  marker is highlighted. Star `i` is filled when `i < floor(rating)`. The
  count says "place" only for exactly one result.

Files and modules:

- `wrappers.dfy` (`Wrappers`): `Option`, for nullable state and optional fields.
- `text.dfy` (`Text`): `toLowerCase` as ASCII lower-casing, and `includes`
  with an index-based reference meaning (`OccursAt`).
- `catalog.dfy` (`Catalog`): the `Place`, `PlaceWithMeta` and `Data` types.
  A `Record<string, Place>` is an ordered sequence of key/place entries. The
  module also holds tagging (`Tagged`), flattening in the fixed category
  order, and the catalog-wide key-uniqueness condition (`WellFormed`).
- `search.dfy` (`Search`): the engine written two ways.
  - Specification functions: `CategoryStage`, `Matching`, `SearchStage`
    and `FilteredPlaces`, with lemmas about them.
  - The page's own imperative form: `Push`, `KeepMatching` and
    `ComputeFilteredPlaces`. These fill a sequence accumulator in loops and
    are proved equal to the specification functions.
- `display.dfy` (`Display`): zoom in quarter steps, tooltip placement,
  hover highlight, rating stars and the count wording.
- `map_page.dfy` (`MapPage`): the `TourismMap` class.
  - It has the six state fields and the handlers. Each handler states the
    whole new state with `Current() == old(Current()).(field := …)`, so
    every other field is visibly unchanged.
  - `Places` and `ResultsCount` read the current state.
  - `Session` is a client that clicks through the page.

Zoom is a count of quarter steps: 2..10, starting at 4. `Scale(q) = q/4`
gives back the zoom factor. `ZoomInScale` and `ZoomOutScale` prove that a
step is the source's `Math.min(prev + 0.25, 2.5)` or
`Math.max(prev - 0.25, 0.5)`. Every reachable zoom is a multiple of 0.25,
and those are exact in binary floating point.

The engine is a function of its inputs, so calling it twice with the same
arguments gives the same sequence by construction.

Two behaviours of the code are worth stating outright:

- **`activeFilter` is a free string** (`useState("all")`, line 36). A value
  that is neither `"all"` nor a category key selects nothing
  (`FilterUnknown`).
- **The search term is not trimmed** (`if (searchTerm)`, line 359). A
  term like `" "` is non-empty, so it filters, keeping only entries with a
  space in their name, description or city.

## Model

| member | source | states |
|---|---|---|
| Text.Lower | tourism-map-page/app/page.tsx:362-364 | `toLowerCase` keeps the length of its input |
| Text.LowerAt | tourism-map-page/app/page.tsx:362-364 | character i of the lower-cased string is character i lower-cased |
| Text.LowerHasNoUpper | tourism-map-page/app/page.tsx:362-364 | a lower-cased string has no capital letter left |
| Text.LowerOfNoUpper | tourism-map-page/app/page.tsx:362-364 | lower-casing a string without capitals changes nothing |
| Text.LowerIdempotent | tourism-map-page/app/page.tsx:362-364 | lower-casing twice is lower-casing once |
| Text.OccursAtIncludes | tourism-map-page/app/page.tsx:362-364 | an occurrence of the term at any index makes `includes` true |
| Text.IncludesIffOccurs | tourism-map-page/app/page.tsx:362-364 | `includes` holds if and only if the term occurs at some index |
| Text.IncludesEmpty | tourism-map-page/app/page.tsx:359-364 | every string includes the empty string |
| Text.Includes | tourism-map-page/app/page.tsx:362-364 | `String.prototype.includes`: a contained term is never longer than the string, and the empty term is always contained |
| Catalog.Tagged | tourism-map-page/app/page.tsx:349-352 | `push` adds exactly one tagged entry per record entry |
| Catalog.TaggedCategories | tourism-map-page/app/page.tsx:349-352 | every entry pushed for a record carries the category tag it was pushed with |
| Catalog.TaggedAt | tourism-map-page/app/page.tsx:349-352 | entry i pushed is record entry i with its own key and the category tag, in declaration order |
| Catalog.TaggedSnoc | tourism-map-page/app/page.tsx:350-351 | one more record entry adds one more tagged entry at the end |
| Catalog.FlattenInSnoc | tourism-map-page/app/page.tsx:354-357 | adding a category after others appends its entries after theirs |
| Catalog.FlattenOrder | tourism-map-page/app/page.tsx:354-357 | the flattened catalog is hotels, attractions, restaurants, activities, and its length is the sum of the four record sizes |
| Catalog.Name | tourism-map-page/app/page.tsx:354-357 | the tag strings "hotels", "attractions", "restaurants", "activities" passed to `push`; none of them is "all" or empty |
| Catalog.NameInjective | tourism-map-page/app/page.tsx:354-357 | distinct categories have distinct tag strings, so a filter key names at most one category |
| Catalog.FlattenInCategories | tourism-map-page/app/page.tsx:354-357 | every flattened entry belongs to one of the categories that were pushed |
| Search.SelectedSnoc | tourism-map-page/app/page.tsx:354-357 | adding a category to the list adds it to the selection exactly when the filter selects it |
| Search.SelectedSelects | tourism-map-page/app/page.tsx:354-357 | only categories the filter selects (it is "all", or it equals the category key) are selected, and only from the list given |
| Search.CategoryStage | tourism-map-page/app/page.tsx:354-357 | the category stage (with `Selects`, the test on each push line): every entry it yields has a category the filter selects |
| Search.CategoryStageStep | tourism-map-page/app/page.tsx:354-357 | each `if (...) push(...)` line adds its category's entries exactly when the filter is "all" or that category |
| Search.CategoryStageParts | tourism-map-page/app/page.tsx:354-357 | the category stage is the four conditional pushes in their fixed order |
| Search.SelectedAll | tourism-map-page/app/page.tsx:354-357 | the filter "all" selects every category, in order |
| Search.SelectedNone | tourism-map-page/app/page.tsx:354-357 | a filter that selects no category selects nothing from any list |
| Search.CategoryStageAll | tourism-map-page/app/page.tsx:354-357 | filter "all" yields the whole flattened catalog |
| Search.CategoryStageOne | tourism-map-page/app/page.tsx:354-357 | a category's key as filter yields exactly that category's tagged entries |
| Search.CategoryStageUnknown | tourism-map-page/app/page.tsx:354-357 | a filter matching neither "all" nor a category yields nothing |
| Search.Matching | tourism-map-page/app/page.tsx:360-365 | the search never lengthens the list |
| Search.Matches | tourism-map-page/app/page.tsx:360-364 | the empty term matches every entry; with no description (which counts as ""), an entry matches iff its lower-cased name or city contains the lower-cased term |
| Search.SearchStage | tourism-map-page/app/page.tsx:359-365 | the search stage never lengthens the list, and an empty term (the `if (searchTerm)` guard) leaves it unchanged |
| Search.FilteredPlaces | tourism-map-page/app/page.tsx:346-368 | `filteredPlaces` never yields more than the category stage, and yields exactly the category stage for an empty term |
| Search.SubsequenceShorter | tourism-map-page/app/page.tsx:360-365 | a subsequence is never longer than the sequence it comes from |
| Search.SubsequenceMembers | tourism-map-page/app/page.tsx:360-365 | every element of a subsequence is in the original sequence |
| Search.MatchingSubsequence | tourism-map-page/app/page.tsx:360-365 | the search keeps an order-preserving subsequence of its input |
| Search.MatchingMembers | tourism-map-page/app/page.tsx:360-365 | an entry is kept if and only if it is in the input and its name, description or city contains the term, ignoring case |
| Search.MatchingConcat | tourism-map-page/app/page.tsx:360-365 | searching a concatenation is searching each part and concatenating |
| Search.MatchingIdempotent | tourism-map-page/app/page.tsx:360-365 | searching a search result again with the same term changes nothing |
| Search.MatchesIgnoresCase | tourism-map-page/app/page.tsx:362-364 | a term and its lower-cased form match the same entries |
| Search.EmptyTermKeepsAll | tourism-map-page/app/page.tsx:359-365 | the empty term keeps every entry, so the `if (searchTerm)` guard does not change the result |
| Search.FilterAllOrder | tourism-map-page/app/page.tsx:346-368 | filter "all" with no search gives all hotels, then attractions, restaurants, activities, each in declaration order |
| Search.FilterByCategory | tourism-map-page/app/page.tsx:346-368 | a category filter with no search gives exactly that category's entries in declaration order |
| Search.FilterUnknown | tourism-map-page/app/page.tsx:346-368 | an unknown filter string gives no place, whatever the search term |
| Search.SearchStageSpec | tourism-map-page/app/page.tsx:346-368 | an entry is shown iff the category stage has it and the term is empty or matches; the result is a subsequence of the category stage, never longer |
| Search.SearchKeepsCategoryOrder | tourism-map-page/app/page.tsx:354-365 | with filter "all", results are the matching hotels, then matching attractions, restaurants, activities |
| Search.DistinctKeysParts | tourism-map-page/app/page.tsx:354-357 | both halves of a key-unique sequence are key-unique |
| Search.MatchingDistinct | tourism-map-page/app/page.tsx:360-365 | the search never repeats a key |
| Search.FilteredDistinct | tourism-map-page/app/page.tsx:346-368 | for a catalog with globally unique keys, no shown list repeats a key (the markers' React keys stay unique) |
| Search.CatalogCounts | tourism-map-page/app/page.tsx:43-303 | a catalog of 7 hotels, 9 attractions, 5 restaurants and 8 activities shows 29 places under "all" and 7 under "hotels" |
| Search.CityFound | tourism-map-page/app/page.tsx:359-365 | searching a city's name under "all" finds every place in that city (e.g. "Algiers") |
| Search.Push | tourism-map-page/app/page.tsx:349-352 | the `push` loop appends the record's tagged entries to the accumulator |
| Search.KeepMatching | tourism-map-page/app/page.tsx:359-365 | the `all.filter(...)` loop keeps exactly the matching entries, in order |
| Search.ComputeFilteredPlaces | tourism-map-page/app/page.tsx:346-368 | `filteredPlaces` returns the category stage followed by the search stage |
| Display.ZoomedIn | tourism-map-page/app/page.tsx:370-372 | zoom-in adds one quarter step, capped at 2.5: the result is the smaller of the two |
| Display.ZoomedOut | tourism-map-page/app/page.tsx:374-376 | zoom-out removes one quarter step, floored at 0.5: the result is the larger of the two |
| Display.ZoomInScale | tourism-map-page/app/page.tsx:371 | in zoom factors, zoom-in is `min(prev + 0.25, 2.5)` |
| Display.ZoomOutScale | tourism-map-page/app/page.tsx:375 | in zoom factors, zoom-out is `max(prev - 0.25, 0.5)` |
| Display.ZoomInverse | tourism-map-page/app/page.tsx:370-376 | within range, an unclamped zoom-in is undone by a zoom-out and vice versa |
| Display.PressesStayInRange | tourism-map-page/app/page.tsx:370-380 | from any zoom in [0.5, 2.5], including the initial 1.0, any sequence of zoom-in, zoom-out and reset presses stays in [0.5, 2.5] |
| Display.ZoomInStep | tourism-map-page/app/page.tsx:370-372 | n+1 zoom-ins are one zoom-in after n zoom-ins |
| Display.ZoomInSaturates | tourism-map-page/app/page.tsx:370-372 | n zoom-ins give min(zoom + n steps, 2.5) |
| Display.ZoomOutSaturates | tourism-map-page/app/page.tsx:374-376 | n zoom-outs give max(zoom - n steps, 0.5) |
| Display.EightPresses | tourism-map-page/app/page.tsx:370-376 | from 1.0, eight zoom-ins give 2.5 and eight zoom-outs give 0.5 |
| Display.TooltipPlacement | tourism-map-page/app/page.tsx:699-704 | the tooltip is anchored on the marker's left iff x > 70; it is anchored on exactly one side, with the 10px margin on that side only |
| Display.TooltipBoundary | tourism-map-page/app/page.tsx:699-704 | x = 75 anchors left, x = 70 anchors right |
| Display.IsHighlighted | tourism-map-page/app/page.tsx:681 | `hoveredPlace?.key === place.key`: nothing is highlighted while nothing is hovered, and the hovered place's own marker is highlighted |
| Display.HighlightUnique | tourism-map-page/app/page.tsx:681 | among markers with distinct keys, at most one is highlighted |
| Display.Stars | tourism-map-page/app/page.tsx:307 | a rating always renders five stars |
| Display.StarFilled | tourism-map-page/app/page.tsx:311-312 | star i (from 0) is filled iff `i < Math.floor(rating)`, that is iff the rating is at least i + 1 |
| Display.CountFilledPrefix | tourism-map-page/app/page.tsx:307-312 | a row whose star i is filled iff i < k has k filled stars, clamped to the row length |
| Display.StarsFilled | tourism-map-page/app/page.tsx:305-317 | filled stars come first and there are floor(rating) of them, clamped to 0..5 |
| Display.PlacesNoun | tourism-map-page/app/page.tsx:770 | the word is "place" iff the count is 1, otherwise "places" |
| MapPage.TourismMap.constructor | tourism-map-page/app/page.tsx:34-39 | initial state: nothing selected or hovered, filter "all", empty search, map view, zoom 1.0 |
| MapPage.TourismMap.SetActiveFilter | tourism-map-page/app/page.tsx:563 | a filter button sets the filter and nothing else |
| MapPage.TourismMap.SetSearchTerm | tourism-map-page/app/page.tsx:529 | typing stores the term verbatim and changes nothing else |
| MapPage.TourismMap.SetViewMode | tourism-map-page/app/page.tsx:534-545 | the Map/List buttons set the view mode and nothing else |
| MapPage.TourismMap.HandleZoomIn | tourism-map-page/app/page.tsx:370-372 | zoom becomes the clamped zoom-in of the old zoom; everything else unchanged; zoom stays in range |
| MapPage.TourismMap.HandleZoomOut | tourism-map-page/app/page.tsx:374-376 | zoom becomes the clamped zoom-out of the old zoom; everything else unchanged; zoom stays in range |
| MapPage.TourismMap.ResetView | tourism-map-page/app/page.tsx:378-380 | zoom becomes 1.0; filter, search term, view mode, selection and hover are unchanged |
| MapPage.TourismMap.SelectPlace | tourism-map-page/app/page.tsx:674-734 | a click on a marker (line 674) or a list card (line 734) makes the place the one selected place, replacing any earlier selection |
| MapPage.TourismMap.CloseDetails | tourism-map-page/app/page.tsx:394 | closing the overlay clears the selection and nothing else |
| MapPage.TourismMap.HoverPlace | tourism-map-page/app/page.tsx:675 | pointer-enter sets the hovered place and nothing else |
| MapPage.TourismMap.LeavePlace | tourism-map-page/app/page.tsx:676 | pointer-leave clears the hovered place and nothing else |
| MapPage.TourismMap.Places | tourism-map-page/app/page.tsx:483 | the places shown are the filter/search result for the current filter and term |
| MapPage.TourismMap.ResultsCount | tourism-map-page/app/page.tsx:770 | the count is the number of places shown, with "place" iff it is 1 and "places" otherwise |

## Left out

- `tp2-KG/kg_pipeline.py` and `tp2-KG/sparql_queries.py`: these wrap
  rdflib (graph building, Turtle, SPARQL) and do file I/O and printing.
  Their behaviour lives in a library that is not part of this model.
- Rendering: JSX layout, CSS classes, icons, the map image, the city
  labels (purely decorative), `Suspense`/`Loading` and the `PlaceDetails`
  overlay markup.
- Category icon and colour lookups (lines 322-344): presentation tables.
  Their fallback for an unknown category cannot arise here, because the
  category tag is a closed enum (`Catalog.Category`) whose `Name` gives the
  source's tag string.
- Text.Lower: models `toLowerCase` as ASCII-only lower-casing. Unicode
  case mapping (accented capitals, multi-character mappings) is not
  modelled.
- Floating point: the zoom is exact quarter steps. The "NN%" zoom label
  (`Math.round(zoom * 100)`) is not modelled. Ratings and coordinates are
  `real`.
- The literal dataset (lines 43-303): the catalog is a parameter.
  `CatalogCounts` checks the 7/9/5/8 shape on any catalog of that size,
  not on the literal entries.
- `Object.entries` puts integer-like keys first in ascending order. The
  model uses insertion order throughout, which is right for this
  catalog's keys (`hotel-1`, `attr-1`, …) but not for integer-like keys.
- `{place.rating && renderStars(...)}`: with a rating of 0, React renders
  the number 0 instead of stars. The model covers the star rule for a
  given rating, not this presentation quirk.
- The decimal rendering of the count in "Showing N places": the model
  gives the number and the noun.
- React's scheduling of state updates: each handler is modelled as an
  immediate, sequential update of its field.
