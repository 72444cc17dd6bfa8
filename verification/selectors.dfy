/**
 * The read layer of the editor's core data store: side-effect-free accessors
 * over the cached state tree (terms by taxonomy, users by id and by query,
 * entity records by kind, name and key, theme supports, embed previews).
 * Every accessor is a function of the state, so none of them can change it.
 */
module CoreDataSelectors {
  import opened Wrappers
  import opened JsValues

  type UserId = int

  /** `state.users`: user records by id and, per query, the ids it returned in order. */
  datatype UsersState = UsersState(byId: map<UserId, Value>, queries: map<string, seq<UserId>>)

  /** `state.entities[kind][name]`: the records of one entity, by their natural key. */
  datatype EntityState = EntityState(byKey: seq<Property>)

  /** The cached state tree the selectors read. */
  datatype State = State(
    terms: map<string, seq<Value>>,
    users: UsersState,
    entities: map<string, map<string, EntityState>>,
    themeSupports: Value,
    embedPreviews: map<string, seq<Property>>)

  /**
   * What `getPreview` hands back: `undefined` when nothing was fetched,
   * `false` when the URL cannot be embedded, otherwise the stored preview.
   */
  datatype PreviewResult = Unfetched | NotEmbeddable | Embed(preview: seq<Property>)

  /** The key this store is registered under in the data registry. */
  const StoreKey: string := "core"

  /**
   * The registry's resolution tracker `isResolving(storeKey, selectorName, ...args)`,
   * supplied by the caller: it reports whether a fetch is in flight.
   */
  type ResolutionTracker = (string, string, seq<string>) -> bool

  // ----- Terms -----

  /** `getTerms`: the term list last received for `taxonomy`, undefined if none was. */
  function GetTerms(s: State, taxonomy: string): (r: Option<seq<Value>>)
    ensures r.None? <==> taxonomy !in s.terms
    ensures r.Some? ==> r.value == s.terms[taxonomy]
  {
    if taxonomy in s.terms then Some(s.terms[taxonomy]) else None
  }

  /** `getCategories`: the terms of the "categories" taxonomy. */
  function GetCategories(s: State): (r: Option<seq<Value>>)
    ensures r.None? <==> "categories" !in s.terms
    ensures r.Some? ==> r.value == s.terms["categories"]
  {
    GetTerms(s, "categories")
  }

  /**
   * `isRequestingTerms`: the tracker's answer for `getTerms` with this taxonomy
   * as its one argument; the cached state is passed but not consulted.
   */
  function IsRequestingTerms(s: State, isResolving: ResolutionTracker, taxonomy: string): (r: bool)
    ensures r <==> isResolving("core", "getTerms", [taxonomy])
  {
    isResolving(StoreKey, "getTerms", [taxonomy])
  }

  /** `isRequestingCategories`: the tracker's answer for `getCategories` called with no arguments. */
  function IsRequestingCategories(isResolving: ResolutionTracker): (r: bool)
    ensures r <==> isResolving("core", "getCategories", [])
  {
    isResolving(StoreKey, "getCategories", [])
  }

  /** Whether terms are being requested depends on the tracker alone, never on what is cached. */
  lemma RequestingTermsIgnoresCache(s1: State, s2: State, isResolving: ResolutionTracker, taxonomy: string)
    ensures IsRequestingTerms(s1, isResolving, taxonomy) == IsRequestingTerms(s2, isResolving, taxonomy)
  {
  }

  // ----- Users -----

  /** `state.users.byId[id]`: undefined for an id with no stored record. */
  function UserById(byId: map<UserId, Value>, id: UserId): (r: Option<Value>)
    ensures r.Some? <==> id in byId
    ensures r.Some? ==> r.value == byId[id]
  {
    if id in byId then Some(byId[id]) else None
  }

  /** lodash `map(ids, id => byId[id])`: one entry per id, in the order of the ids. */
  function MapIdsToUsers(ids: seq<UserId>, byId: map<UserId, Value>): (r: seq<Option<Value>>)
    ensures |r| == |ids|
    ensures forall i :: 0 <= i < |ids| ==> r[i] == UserById(byId, ids[i])
  {
    if ids == [] then [] else [UserById(byId, ids[0])] + MapIdsToUsers(ids[1..], byId)
  }

  /**
   * The computation inside `getUserQueryResults`: the users of a query, in the
   * order the query listed their ids; an unknown query gives the empty list,
   * as lodash `map` does over `undefined`.
   */
  function GetUserQueryResults(s: State, queryId: string): (r: seq<Option<Value>>)
    ensures queryId !in s.users.queries ==> r == []
    ensures queryId in s.users.queries ==>
      var ids := s.users.queries[queryId];
      && |r| == |ids|
      && forall i :: 0 <= i < |ids| ==> r[i] == UserById(s.users.byId, ids[i])
  {
    if queryId in s.users.queries then MapIdsToUsers(s.users.queries[queryId], s.users.byId)
    else []
  }

  /** `getAuthors`: the users of the "authors" query. */
  function GetAuthors(s: State): (r: seq<Option<Value>>)
    ensures "authors" !in s.users.queries ==> r == []
    ensures "authors" in s.users.queries ==>
      var ids := s.users.queries["authors"];
      && |r| == |ids|
      && forall i :: 0 <= i < |ids| ==> r[i] == UserById(s.users.byId, ids[i])
  {
    GetUserQueryResults(s, "authors")
  }

  /** Mapping a query's ids keeps their order: the users of `a + b` are those of `a` followed by those of `b`. */
  lemma MapIdsToUsersConcat(a: seq<UserId>, b: seq<UserId>, byId: map<UserId, Value>)
    ensures MapIdsToUsers(a + b, byId) == MapIdsToUsers(a, byId) + MapIdsToUsers(b, byId)
  {
  }

  /**
   * Every entry of a query's result is a stored user exactly when every id of
   * the query has a record in `byId`; otherwise the missing ones are undefined.
   */
  lemma UserQueryResolvedIff(s: State, queryId: string)
    requires queryId in s.users.queries
    ensures (forall u :: u in GetUserQueryResults(s, queryId) ==> u.Some?) <==>
            (forall id :: id in s.users.queries[queryId] ==> id in s.users.byId)
  {
  }

  /**
   * The memoisation of `getUserQueryResults` recomputes only when the query's id
   * list or `byId` changes; this is sound because the result depends on nothing else.
   */
  lemma UserQueryResultsDependOnlyOnQueryAndById(s1: State, s2: State, queryId: string)
    requires (queryId in s1.users.queries) == (queryId in s2.users.queries)
    requires queryId in s1.users.queries ==> s1.users.queries[queryId] == s2.users.queries[queryId]
    requires s1.users.byId == s2.users.byId
    ensures GetUserQueryResults(s1, queryId) == GetUserQueryResults(s2, queryId)
  {
  }

  // ----- Entities -----

  /** Every entity bucket is a real JavaScript object: no key occurs twice. */
  ghost predicate WellFormed(s: State) {
    forall kind, name :: kind in s.entities && name in s.entities[kind] ==>
      DistinctKeys(s.entities[kind][name].byKey)
  }

  /** The (kind, name) bucket exists; the reducer's initial state creates one per defined entity. */
  predicate HasEntity(s: State, kind: string, name: string) {
    kind in s.entities && name in s.entities[kind]
  }

  /** `getEntityRecord`: the record stored under `key`, undefined for an unknown key. */
  function GetEntityRecord(s: State, kind: string, name: string, key: string): (r: Option<Value>)
    requires HasEntity(s, kind, name)
    ensures r.None? <==> key !in Keys(s.entities[kind][name].byKey)
    ensures r.Some? ==> Property(key, r.value) in s.entities[kind][name].byKey
  {
    Get(s.entities[kind][name].byKey, key)
  }

  /** The computation inside `getEntityRecords`: `Object.values` of the bucket's `byKey`. */
  function GetEntityRecords(s: State, kind: string, name: string): (r: seq<Value>)
    requires HasEntity(s, kind, name)
    ensures |r| == |s.entities[kind][name].byKey|
    ensures forall i :: 0 <= i < |r| ==> r[i] == s.entities[kind][name].byKey[i].value
  {
    Values(s.entities[kind][name].byKey)
  }

  /**
   * `getEntityRecords` returns exactly the stored records: one per key, each the
   * record `getEntityRecord` returns for its key, every stored record among them,
   * and the empty list exactly when nothing is stored.
   */
  lemma EntityRecordsAreStoredRecords(s: State, kind: string, name: string)
    requires HasEntity(s, kind, name)
    requires WellFormed(s)
    ensures |GetEntityRecords(s, kind, name)| == |AsMap(s.entities[kind][name].byKey)|
    ensures forall i :: 0 <= i < |s.entities[kind][name].byKey| ==>
      GetEntityRecord(s, kind, name, s.entities[kind][name].byKey[i].key) == Some(GetEntityRecords(s, kind, name)[i])
    ensures forall v :: v in GetEntityRecords(s, kind, name) <==>
      exists key :: GetEntityRecord(s, kind, name, key) == Some(v)
    ensures GetEntityRecords(s, kind, name) == [] <==> AsMap(s.entities[kind][name].byKey) == map[]
  {
    var byKey := s.entities[kind][name].byKey;
    AsMapSize(byKey);
    forall i | 0 <= i < |byKey|
      ensures GetEntityRecord(s, kind, name, byKey[i].key) == Some(GetEntityRecords(s, kind, name)[i])
    {
      GetAt(byKey, i);
    }
    forall v ensures v in GetEntityRecords(s, kind, name) <==>
      exists key :: GetEntityRecord(s, kind, name, key) == Some(v)
    {
      ValueInValuesIff(byKey, v);
      if v in GetEntityRecords(s, kind, name) {
        var key :| Get(byKey, key) == Some(v);
        assert GetEntityRecord(s, kind, name, key) == Some(v);
      }
      if exists key :: GetEntityRecord(s, kind, name, key) == Some(v) {
        var key :| GetEntityRecord(s, kind, name, key) == Some(v);
        assert Get(byKey, key) == Some(v);
      }
    }
  }

  /** `getEntityRecord` agrees with the bucket read as a dictionary. */
  lemma EntityRecordAgreesWithMap(s: State, kind: string, name: string, key: string)
    requires HasEntity(s, kind, name)
    ensures var m := AsMap(s.entities[kind][name].byKey);
      GetEntityRecord(s, kind, name, key) == if key in m then Some(m[key]) else None
  {
    GetAgreesWithMap(s.entities[kind][name].byKey, key);
  }

  /**
   * The memoisation of `getEntityRecords` recomputes only when the bucket's
   * `byKey` changes; this is sound because the result depends on nothing else.
   */
  lemma EntityRecordsDependOnlyOnByKey(s1: State, s2: State, kind: string, name: string)
    requires HasEntity(s1, kind, name) && HasEntity(s2, kind, name)
    requires s1.entities[kind][name].byKey == s2.entities[kind][name].byKey
    ensures GetEntityRecords(s1, kind, name) == GetEntityRecords(s2, kind, name)
  {
  }

  // ----- Theme supports and embed previews -----

  /** `getThemeSupports`: the theme capability flags, as stored. */
  function GetThemeSupports(s: State): (r: Value)
    ensures r == s.themeSupports
  {
    s.themeSupports
  }

  /**
   * The markup an oEmbed provider produces when it only links to the URL:
   * `<a href="URL">URL</a>`, the URL once as the target and once as the text.
   */
  function LinkOnlyHtml(url: string): (html: string)
    ensures |html| == 2 * |url| + 15
  {
    "<a href=\"" + url + "\">" + url + "</a>"
  }

  /** The URL sits in the markup twice: as the link target and as the link text. */
  lemma LinkOnlyHtmlShape(url: string)
    ensures LinkOnlyHtml(url)[..9] == "<a href=\""
    ensures LinkOnlyHtml(url)[9..9 + |url|] == url
    ensures LinkOnlyHtml(url)[9 + |url|..11 + |url|] == "\">"
    ensures LinkOnlyHtml(url)[11 + |url|..11 + 2 * |url|] == url
    ensures LinkOnlyHtml(url)[11 + 2 * |url|..] == "</a>"
  {
  }

  /** Different URLs have different link-only markup, so one html marks at most one URL as a bare link. */
  lemma LinkOnlyHtmlInjective(u: string, v: string)
    requires LinkOnlyHtml(u) == LinkOnlyHtml(v)
    ensures u == v
  {
    LinkOnlyHtmlShape(u);
    LinkOnlyHtmlShape(v);
  }

  /**
   * `getPreview`: undefined when nothing was fetched for `url`; `false` when the
   * stored preview's `html` is a string equal to the link-only markup for `url`;
   * otherwise the stored preview unchanged.
   */
  function GetPreview(s: State, url: string): (r: PreviewResult)
    ensures r == Unfetched <==> url !in s.embedPreviews
    ensures r == NotEmbeddable <==>
      url in s.embedPreviews && Get(s.embedPreviews[url], "html") == Some(Str(LinkOnlyHtml(url)))
    ensures r.Embed? ==> url in s.embedPreviews && r.preview == s.embedPreviews[url]
  {
    if url !in s.embedPreviews then Unfetched
    else
      var preview := s.embedPreviews[url];
      if Get(preview, "html") == Some(Str(LinkOnlyHtml(url))) then NotEmbeddable
      else Embed(preview)
  }

  /** A stored preview without an `html` property is always returned unchanged. */
  lemma PreviewWithoutHtmlIsEmbedded(s: State, url: string)
    requires url in s.embedPreviews
    requires "html" !in Keys(s.embedPreviews[url])
    ensures GetPreview(s, url) == Embed(s.embedPreviews[url])
  {
  }

  /** A preview whose `html` is not a string never makes the URL unembeddable. */
  lemma NonStringHtmlIsEmbedded(s: State, url: string)
    requires url in s.embedPreviews
    requires Get(s.embedPreviews[url], "html").Some? && !Get(s.embedPreviews[url], "html").value.Str?
    ensures GetPreview(s, url) == Embed(s.embedPreviews[url])
  {
  }

  /**
   * The bare-link test is tied to the URL being asked about: a payload that makes
   * one URL unembeddable is returned unchanged when stored under any other URL.
   */
  lemma NotEmbeddableOnlyForItsOwnUrl(s: State, u: string, v: string)
    requires GetPreview(s, u) == NotEmbeddable
    requires v in s.embedPreviews && s.embedPreviews[v] == s.embedPreviews[u]
    requires u != v
    ensures GetPreview(s, v) == Embed(s.embedPreviews[v])
  {
    if GetPreview(s, v) == NotEmbeddable {
      LinkOnlyHtmlInjective(u, v);
    }
  }
}
