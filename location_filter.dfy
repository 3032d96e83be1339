/** The country / state / city filter on the home page.  Picking a country
    loads its states and clears the state and city; picking a state loads
    its cities and clears the city; every change rebuilds the page's query
    string from the current one. */
module LocationFilter {
  import opened Entities

  /** A parsed query string: each key maps to its value, or to nothing for a
      key written without `=`. */
  type Query = map<string, Option<string>>

  /** The query-string builder with null and empty values skipped. */
  function Stringify(q: Query): (r: map<string, string>)
    ensures forall k :: k in r <==> k in q && Truthy(q[k])
    ensures forall k :: k in r ==> q[k] == Some(r[k])
  {
    map k | k in q && Truthy(q[k]) :: q[k].value
  }

  /** The page a built query string leads to; with nothing left it is `/`. */
  function UrlOf(q: map<string, string>): Route {
    if q == map[] then Home else Search(q)
  }

  /** The query a page carries. */
  function QueryOf(r: Route): map<string, string> {
    if r.Search? then r.query else map[]
  }

  /** The value a filter field contributes: present when non-empty. */
  predicate Sets(q: map<string, string>, key: string, value: string) {
    if value == "" then key !in q else key in q && q[key] == value
  }

  /** A filter field's key in the query before it is built: the field's
      value when non-empty, otherwise no value the builder keeps. */
  predicate Filtered(q: Query, key: string, value: string) {
    if value == "" then key !in q || !Truthy(q[key]) else key in q && q[key] == Some(value)
  }

  class FilterState {
    var country: string
    var state: string
    var city: string
    var states: seq<string>
    var cities: seq<string>

    constructor ()
      ensures country == "" && state == "" && city == "" && states == [] && cities == []
    {
      country, state, city := "", "", "";
      states, cities := [], [];
    }

    /** The effect run when the country changes, given the state list the
        location library returns for it (if any). */
    method CountryChanged(countryStates: Option<seq<string>>)
      modifies this
      ensures country == old(country) && cities == old(cities)
      ensures countryStates.Some? ==> states == countryStates.value && state == "" && city == ""
      ensures countryStates.None? ==> states == old(states) && state == old(state) && city == old(city)
    {
      if countryStates.Some? {
        states := countryStates.value;
        state := "";
        city := "";
      }
    }

    /** The effect run when the country or the state changes, given the
        city list for that pair (if any). */
    method StateChanged(stateCities: Option<seq<string>>)
      modifies this
      ensures country == old(country) && state == old(state) && states == old(states)
      ensures stateCities.Some? ==> cities == stateCities.value && city == ""
      ensures stateCities.None? ==> cities == old(cities) && city == old(city)
    {
      if stateCities.Some? {
        cities := stateCities.value;
        city := "";
      }
    }

    /** The effect run when any of the three values changes: the pages it
        navigates to, in order.  `params` is the current query, absent when
        the page has no search parameters object. */
    method QueryEffect(params: Option<Query>) returns (navigations: seq<Route>)
      ensures |navigations| == if country == "" && state == "" && city == "" then 2 else 1
      ensures |navigations| == 2 ==> navigations[0] == Home
      ensures var q := QueryOf(navigations[|navigations| - 1]);
              Sets(q, "country", country) && Sets(q, "state", state) && Sets(q, "city", city) &&
              (forall k :: k != "country" && k != "state" && k != "city" ==>
                 (k in q <==> params.Some? && k in params.value && Truthy(params.value[k])) &&
                 (k in q ==> params.value[k] == Some(q[k])))
    {
      navigations := [];
      if country == "" && state == "" && city == "" {
        navigations := navigations + [Home];
      }
      var currentQuery: Query := map[];
      if params.Some? {
        currentQuery := params.value;
      }
      ghost var parsed := currentQuery;
      if country != "" {
        currentQuery := currentQuery["country" := Some(country)];
      }
      if state != "" {
        currentQuery := currentQuery["state" := Some(state)];
      }
      if city != "" {
        currentQuery := currentQuery["city" := Some(city)];
      }
      if country == "" && "country" in currentQuery && Truthy(currentQuery["country"]) {
        currentQuery := currentQuery - {"country"};
      }
      if state == "" && "state" in currentQuery && Truthy(currentQuery["state"]) {
        currentQuery := currentQuery - {"state"};
      }
      if city == "" && "city" in currentQuery && Truthy(currentQuery["city"]) {
        currentQuery := currentQuery - {"city"};
      }
      assert Filtered(currentQuery, "country", country) && Filtered(currentQuery, "state", state) &&
             Filtered(currentQuery, "city", city);
      assert forall k :: k != "country" && k != "state" && k != "city" ==>
               (k in currentQuery <==> k in parsed) && (k in parsed ==> currentQuery[k] == parsed[k]);
      var url := UrlOf(Stringify(currentQuery));
      UrlRoundTrip(Stringify(currentQuery));
      navigations := navigations + [url];
    }

    /** The "clear filters" button. */
    method HandleClear() returns (navigations: seq<Route>)
      modifies this
      ensures navigations == [Home]
      ensures country == "" && state == "" && city == ""
      ensures states == old(states) && cities == old(cities)
    {
      navigations := [Home];
      country := "";
      state := "";
      city := "";
    }
  }

  /** The page's query reads back the query it was built from, and the
      page is `/` exactly when that query is empty. */
  lemma UrlRoundTrip(q: map<string, string>)
    ensures QueryOf(UrlOf(q)) == q
    ensures UrlOf(q) == Home <==> q == map[]
  {
  }
}
