/** The tasker's search page: the six filters, the query built from them, the
    wards offered for the chosen province, and the favourite marks. */
module TaskerSearch {
  import opened Js
  import opened Web
  import Gateway
  import Catalog
  import Market

  const SearchFailedMessage := "Unable to search tasks"

  datatype Filters = Filters(keyword: string, category: string, province: string, ward: string,
                             minPrice: string, maxPrice: string)

  /** `getInitialFilters()`: every filter empty. */
  const InitialFilters := Filters("", "", "", "", "", "")

  /** The names of the filter inputs. */
  const FilterNames := {"keyword", "category", "province", "ward", "minPrice", "maxPrice"}

  /** `filters[name]`, "" for a name that is not a filter. */
  function Get(f: Filters, name: string): string {
    if name == "keyword" then f.keyword
    else if name == "category" then f.category
    else if name == "province" then f.province
    else if name == "ward" then f.ward
    else if name == "minPrice" then f.minPrice
    else if name == "maxPrice" then f.maxPrice
    else ""
  }

  /** `{...filters, [name]: value}` for one of the filter names. */
  function With(f: Filters, name: string, value: string): (r: Filters)
    requires name in FilterNames
    ensures Get(r, name) == value
    ensures forall n :: n != name ==> Get(r, n) == Get(f, n)
  {
    if name == "keyword" then f.(keyword := value)
    else if name == "category" then f.(category := value)
    else if name == "province" then f.(province := value)
    else if name == "ward" then f.(ward := value)
    else if name == "minPrice" then f.(minPrice := value)
    else f.(maxPrice := value)
  }

  /** The query parameters of `searchTasks`, filled in field by field: exactly
      the non-empty filters, each with its value unchanged. */
  method BuildParams(f: Filters) returns (params: map<string, string>)
    ensures forall n :: n in params <==> Get(f, n) != ""
    ensures forall n :: n in params ==> params[n] == Get(f, n)
  {
    params := map[];
    if f.keyword != "" { params := params["keyword" := f.keyword]; }
    if f.category != "" { params := params["category" := f.category]; }
    if f.province != "" { params := params["province" := f.province]; }
    if f.ward != "" { params := params["ward" := f.ward]; }
    if f.minPrice != "" { params := params["minPrice" := f.minPrice]; }
    if f.maxPrice != "" { params := params["maxPrice" := f.maxPrice]; }
  }

  /** The filters after `handleFilterChange(name, value)`: the field takes the
      value, and a new province also clears the ward. */
  function Changed(f: Filters, name: string, value: string): (r: Filters)
    requires name in FilterNames
    ensures Get(r, name) == value
    ensures name == "province" ==> r.ward == ""
    ensures forall n :: n != name && !(name == "province" && n == "ward") ==> Get(r, n) == Get(f, n)
  {
    var updated := With(f, name, value);
    if name == "province" then updated.(ward := "") else updated
  }

  /** The wards offered after the effect on the province and the locations:
      those of the first location of that province, none when the province is
      blank, the locations are not loaded, or the province is unknown. */
  function WardsFor(province: string, locations: seq<Catalog.Location>): (r: seq<string>)
    ensures province != "" && Catalog.Find(locations, Catalog.ProvinceOf, province).Some? ==>
              r == Catalog.Find(locations, Catalog.ProvinceOf, province).value.wards
    ensures province == "" || Catalog.Find(locations, Catalog.ProvinceOf, province).None? ==> r == []
  {
    if province != "" && |locations| > 0 then
      var location := Catalog.Find(locations, Catalog.ProvinceOf, province);
      if location.Some? then location.value.wards else []
    else []
  }

  /** `favs.map(fav => fav.taskId._id)` */
  function FavoriteIds(favs: seq<Market.Favorite>): (ids: seq<string>)
    ensures |ids| == |favs|
    ensures forall i :: 0 <= i < |favs| ==> ids[i] == favs[i].taskId
  {
    if favs == [] then [] else [favs[0].taskId] + FavoriteIds(favs[1..])
  }

  /** A task is marked as a favourite exactly when some favourite entry is for it. */
  lemma FavoritedIffListed(favs: seq<Market.Favorite>, id: string)
    ensures id in FavoriteIds(favs) <==> exists i :: 0 <= i < |favs| && favs[i].taskId == id
  {
    var ids := FavoriteIds(favs);
    if id in ids {
      var k :| 0 <= k < |ids| && ids[k] == id;
      assert favs[k].taskId == id;
    }
  }

  /** The page's state. */
  class Page {
    var tasks: seq<Market.Task>
    var wards: seq<string>
    var filters: Filters
    var loading: bool
    var error: string
    var favoritedTaskIds: seq<string>

    constructor ()
      ensures tasks == [] && wards == [] && filters == InitialFilters
      ensures !loading && error == "" && favoritedTaskIds == []
    {
      tasks := [];
      wards := [];
      filters := InitialFilters;
      loading := false;
      error := "";
      favoritedTaskIds := [];
    }

    predicate IsFavorited(taskId: string)
      reads this
    {
      taskId in favoritedTaskIds
    }

    /** `fetchFavorites`: any 2xx reply replaces the ids; an error keeps them. */
    method FetchFavorites(b: Browser, reply: Reply<seq<Market.Favorite>>)
      modifies this, b
      ensures reply.Ok? ==> favoritedTaskIds == FavoriteIds(reply.data)
      ensures !reply.Ok? ==> favoritedTaskIds == old(favoritedTaskIds)
      ensures tasks == old(tasks) && wards == old(wards) && filters == old(filters)
      ensures loading == old(loading) && error == old(error)
      ensures (b.storage, b.location) == Gateway.Settled(reply, old(b.storage), old(b.location))
    {
      var delivered := Gateway.Receive(b, reply);
      if delivered.Ok? {
        favoritedTaskIds := FavoriteIds(delivered.data);
      }
    }

    /** `searchTasks(overrideFilters)`: the query is built from the override
      when one is given, else from the current filters; a 2xx reply replaces
      the tasks, an error shows a fixed message. */
    method Search(b: Browser, overrideFilters: Option<Filters>, reply: Reply<seq<Market.Task>>)
      returns (params: map<string, string>)
      modifies this, b
      ensures var active := if overrideFilters.Some? then overrideFilters.value else old(filters);
        (forall n :: n in params <==> Get(active, n) != "")
        && (forall n :: n in params ==> params[n] == Get(active, n))
      ensures reply.Ok? ==> tasks == reply.data && error == ""
      ensures !reply.Ok? ==> tasks == old(tasks) && error == SearchFailedMessage
      ensures !loading && filters == old(filters) && wards == old(wards) && favoritedTaskIds == old(favoritedTaskIds)
      ensures (b.storage, b.location) == Gateway.Settled(reply, old(b.storage), old(b.location))
    {
      loading := true;
      error := "";
      var active := if overrideFilters.Some? then overrideFilters.value else filters;
      params := BuildParams(active);
      var delivered := Gateway.Receive(b, reply);
      if delivered.Ok? {
        tasks := delivered.data;
      } else {
        error := SearchFailedMessage;
      }
      loading := false;
    }

    /** `handleFilterChange`: update one filter; a new province clears the
      ward, and clearing the province also clears the wards offered. */
    method ChangeFilter(name: string, value: string)
      requires name in FilterNames
      modifies this
      ensures filters == Changed(old(filters), name, value)
      ensures wards == (if name == "province" && value == "" then [] else old(wards))
      ensures tasks == old(tasks) && loading == old(loading) && error == old(error)
      ensures favoritedTaskIds == old(favoritedTaskIds)
    {
      var updated := With(filters, name, value);
      if name == "province" {
        updated := updated.(ward := "");
        if value == "" {
          wards := [];
        }
      }
      filters := updated;
    }

    /** The effect on the province and the fetched locations. */
    method SyncWards(locations: seq<Catalog.Location>)
      modifies this
      ensures wards == WardsFor(filters.province, locations)
      ensures filters == old(filters) && tasks == old(tasks) && favoritedTaskIds == old(favoritedTaskIds)
      ensures loading == old(loading) && error == old(error)
    {
      if filters.province != "" && |locations| > 0 {
        var location := Catalog.Find(locations, Catalog.ProvinceOf, filters.province);
        if location.Some? {
          wards := location.value.wards;
        } else {
          wards := [];
        }
      } else {
        wards := [];
      }
    }

    /** `handleResetFilters`: back to the initial filters with no wards, and a
      search with no parameters at all. */
    method Reset(b: Browser, reply: Reply<seq<Market.Task>>) returns (params: map<string, string>)
      modifies this, b
      ensures filters == InitialFilters && wards == [] && params == map[]
      ensures reply.Ok? ==> tasks == reply.data && error == ""
      ensures !reply.Ok? ==> tasks == old(tasks) && error == SearchFailedMessage
      ensures !loading && favoritedTaskIds == old(favoritedTaskIds)
      ensures (b.storage, b.location) == Gateway.Settled(reply, old(b.storage), old(b.location))
    {
      var reset := InitialFilters;
      filters := reset;
      wards := [];
      params := Search(b, Some(reset), reply);
      assert forall n :: n !in params;
    }
  }
}
