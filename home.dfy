/** The service catalogue page: the filter that decides which tiles are shown (favourites tab,
    search text, category and certification track), the favourites toggle, the "clear filters"
    action and the category list offered by the category picker. */
module Home {
  import opened Basics
  import opened Text
  import opened Services

  /** The value of the category and certification-track pickers that imposes no restriction. */
  const All := "all"

  datatype Tab = AllServices | Favorites

  /** The search text, the two pickers and the active tab. */
  datatype Filters = Filters(searchQuery: string, category: string, certificationTrack: string, activeTab: Tab)

  /** Case-insensitive substring search of the query in the name, full name or category. */
  predicate MatchesSearch(service: AwsService, query: string)
  {
    var q := ToLower(query);
    Contains(ToLower(service.name), q) || Contains(ToLower(service.fullName), q) ||
    Contains(ToLower(service.category), q)
  }

  /** The predicate `filteredServices` applies to each service. A service without
      certification tracks matches no particular track. */
  predicate Shown(service: AwsService, filters: Filters, favorites: set<nat>)
  {
    !(filters.activeTab == Favorites && service.id !in favorites) &&
    MatchesSearch(service, filters.searchQuery) &&
    (filters.category == All || service.category == filters.category) &&
    (filters.certificationTrack == All ||
     (service.certificationTracks.Some? && filters.certificationTrack in service.certificationTracks.value))
  }

  /** `filteredServices`: no list before the catalogue has loaded, otherwise the services that
      pass every filter, in catalogue order. */
  function FilteredServices(services: Option<seq<AwsService>>, filters: Filters, favorites: set<nat>): (shown: seq<AwsService>)
    ensures services.None? ==> shown == []
    ensures services.Some? ==> IsSubsequence(shown, services.value)
    ensures forall s :: s in shown <==> services.Some? && s in services.value && Shown(s, filters, favorites)
  {
    if services.None? then []
    else
      FilterIsSubsequence(services.value, (s: AwsService) => Shown(s, filters, favorites));
      Filter(services.value, (s: AwsService) => Shown(s, filters, favorites))
  }

  /** On the favourites tab every shown service is a favourite. */
  lemma FavoritesTabShowsFavorites(services: Option<seq<AwsService>>, filters: Filters, favorites: set<nat>)
    requires filters.activeTab == Favorites
    ensures forall s :: s in FilteredServices(services, filters, favorites) ==> s.id in favorites
  {
  }

  /** With the empty search, both pickers on "all" and the "all" tab, the whole catalogue is shown. */
  lemma NoFilterShowsEverything(services: seq<AwsService>, favorites: set<nat>)
    ensures FilteredServices(Some(services), Filters("", All, All, AllServices), favorites) == services
  {
    var filters := Filters("", All, All, AllServices);
    forall s | s in services ensures Shown(s, filters, favorites) {
      assert ToLower("") == "";
      EmptyIsContained(ToLower(s.name));
    }
    FilterAll(services, (s: AwsService) => Shown(s, filters, favorites));
  }

  /** The search ignores the case of the query, and it matches exactly when the lower-cased query
      occurs as a slice of the lower-cased name, full name or category. */
  lemma SearchIgnoresCase(service: AwsService, query: string)
    ensures MatchesSearch(service, query) <==> MatchesSearch(service, ToLower(query))
    ensures MatchesSearch(service, query) <==>
              OccursIn(ToLower(query), ToLower(service.name)) ||
              OccursIn(ToLower(query), ToLower(service.fullName)) ||
              OccursIn(ToLower(query), ToLower(service.category))
  {
    ToLowerIdempotent(query);
    ContainsIsOccurrence(ToLower(service.name), ToLower(query));
    ContainsIsOccurrence(ToLower(service.fullName), ToLower(query));
    ContainsIsOccurrence(ToLower(service.category), ToLower(query));
  }

  /** A service's own name, in any case, always finds it by search. */
  lemma NameFindsService(service: AwsService)
    ensures MatchesSearch(service, service.name)
  {
    ContainsSelf(ToLower(service.name));
  }

  /** The favourites after toggling `id`: removed when present, added otherwise. */
  function Toggled(favorites: set<nat>, id: nat): (toggled: set<nat>)
    ensures id in toggled <==> id !in favorites
    ensures forall other :: other != id ==> (other in toggled <==> other in favorites)
  {
    if id in favorites then favorites - {id} else favorites + {id}
  }

  /** Toggling the same service twice restores the favourites. */
  lemma ToggleTwiceRestores(favorites: set<nat>, id: nat)
    ensures Toggled(Toggled(favorites, id), id) == favorites
  {
    var twice := Toggled(Toggled(favorites, id), id);
    assert forall x :: x in twice <==> x in favorites;
  }

  /** After "clear filters" the shown services depend only on the tab and the certification track. */
  lemma ClearedFiltersKeepTrackAndTab(service: AwsService, track: string, tab: Tab, favorites: set<nat>)
    ensures Shown(service, Filters("", All, track, tab), favorites) <==>
              !(tab == Favorites && service.id !in favorites) &&
              (track == All || (service.certificationTracks.Some? && track in service.certificationTracks.value))
  {
    assert ToLower("") == "";
    EmptyIsContained(ToLower(service.name));
  }

  /** `categories`: the distinct categories of the loaded catalogue, each at its first occurrence. */
  function Categories(services: Option<seq<AwsService>>): (categories: seq<string>)
    ensures NoDuplicates(categories)
    ensures forall c :: c in categories <==> services.Some? && exists s :: s in services.value && s.category == c
  {
    if services.None? then []
    else
      var all := CategoriesOf(services.value);
      assert forall c :: c in all <==> exists s :: s in services.value && s.category == c;
      Dedupe(all)
  }

  /** `services.map(s => s.category)`. */
  function CategoriesOf(services: seq<AwsService>): (categories: seq<string>)
    ensures |categories| == |services|
    ensures forall i :: 0 <= i < |services| ==> categories[i] == services[i].category
  {
    if services == [] then [] else [services[0].category] + CategoriesOf(services[1..])
  }

  /** The category list follows first-occurrence order in the catalogue. */
  lemma CategoriesInFirstOccurrenceOrder(services: seq<AwsService>, i: nat, j: nat)
    requires i < j < |Categories(Some(services))|
    ensures FirstIndex(CategoriesOf(services), Categories(Some(services))[i]) <
            FirstIndex(CategoriesOf(services), Categories(Some(services))[j])
  {
    DedupeKeepsFirstOccurrenceOrder(CategoriesOf(services), {}, i, j);
  }

  /** The state of the catalogue page that the filter, the favourites and the pickers use. */
  class Catalogue {
    var services: Option<seq<AwsService>>
    var filters: Filters
    var favorites: set<nat>

    /** The page as first rendered: nothing loaded, no search, both pickers on "all", the
        "all" tab and no favourites. */
    constructor()
      ensures services == None && filters == Filters("", All, All, AllServices) && favorites == {}
    {
      services := None;
      filters := Filters("", All, All, AllServices);
      favorites := {};
    }

    /** The tiles the page shows. */
    function Visible(): seq<AwsService>
      reads this
    {
      FilteredServices(services, filters, favorites)
    }

    /** `toggleFavorite`: only the clicked service's membership changes. */
    method ToggleFavorite(serviceId: nat)
      modifies this
      ensures favorites == Toggled(old(favorites), serviceId)
      ensures services == old(services) && filters == old(filters)
    {
      if serviceId in favorites {
        favorites := favorites - {serviceId};
      } else {
        favorites := favorites + {serviceId};
      }
    }

    /** `handleClearFilters`: the search and the category are reset; the certification track,
        the tab and the favourites stay. */
    method ClearFilters()
      modifies this
      ensures filters == Filters("", All, old(filters).certificationTrack, old(filters).activeTab)
      ensures services == old(services) && favorites == old(favorites)
    {
      filters := filters.(searchQuery := "", category := All);
    }
  }
}
