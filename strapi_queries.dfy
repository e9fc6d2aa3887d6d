/**
 * The typed getters of lib/strapi-queries.ts: which request each one sends
 * (endpoint, query record, cache mode, revalidation tags) and how it turns
 * `fetchAPI`'s outcome into a value, never letting an exception escape:
 * collection getters fall back to `[]`, singleton getters to `null`.
 */
module StrapiQueries {
  import opened Common
  import opened Strapi

  /** The part of a project document the site reads from the listing. */
  datatype ProjectData = ProjectData(
    id: int, documentId: string, title: string, description: Option<string>, slug: string, date: string, tags: seq<string>)

  /** The options `getProjects` accepts. */
  datatype ProjectsOptions = ProjectsOptions(limit: Option<int>, tag: Option<string>)

  const ThumbFields: Query := [
    ("populate[project_thumb][fields][0]", QStr("url")),
    ("populate[project_thumb][fields][1]", QStr("alternativeText")),
    ("populate[project_thumb][fields][2]", QStr("width")),
    ("populate[project_thumb][fields][3]", QStr("height"))]

  const TagFilterKey := "filters[tags][name][$eq]"
  const PageSizeKey := "pagination[pageSize]"

  /** The fixed part of the `getProjects` query, in the order it is written. */
  const ProjectsBaseQuery: Query :=
    [("populate[body][populate]", QStr("*"))] + ThumbFields + [("sort[0]", QStr("date:desc"))]

  lemma BaseQueryKeys()
    ensures Keys(ProjectsBaseQuery) == [
      "populate[body][populate]",
      "populate[project_thumb][fields][0]", "populate[project_thumb][fields][1]",
      "populate[project_thumb][fields][2]", "populate[project_thumb][fields][3]",
      "sort[0]"]
    ensures DistinctKeys(ProjectsBaseQuery)
    ensures TagFilterKey !in Keys(ProjectsBaseQuery) && PageSizeKey !in Keys(ProjectsBaseQuery)
  {
  }

  /** Appending an entry whose key is new keeps the keys distinct. */
  lemma AppendNewKey(q: Query, key: string, v: QueryValue)
    requires DistinctKeys(q) && key !in Keys(q)
    ensures DistinctKeys(q + [(key, v)])
    ensures Keys(q + [(key, v)]) == Keys(q) + [key]
  {
    var q' := q + [(key, v)];
    forall i, j | 0 <= i < j < |q'| ensures q'[i].0 != q'[j].0 {
      if j == |q| {
        assert Keys(q)[i] == q[i].0;
      }
    }
  }

  /**
   * Builds the `getProjects` query record: the fixed populate, thumbnail and
   * sort entries, then the tag filter iff a tag is given and non-empty, then
   * the page size iff a non-zero limit is given. No key is set twice.
   */
  method ProjectsQuery(options: Option<ProjectsOptions>) returns (query: Query)
    ensures |query| >= |ProjectsBaseQuery| && query[..|ProjectsBaseQuery|] == ProjectsBaseQuery
    ensures DistinctKeys(query)
    ensures TagFilterKey in Keys(query) <==> options.Some? && Truthy(options.value.tag)
    ensures PageSizeKey in Keys(query) <==> options.Some? && TruthyInt(options.value.limit)
    ensures TagFilterKey in Keys(query) ==> (TagFilterKey, QStr(options.value.tag.value)) in query
    ensures PageSizeKey in Keys(query) ==> (PageSizeKey, QNum(options.value.limit.value)) in query
    ensures |query| == |ProjectsBaseQuery|
      + (if TagFilterKey in Keys(query) then 1 else 0)
      + (if PageSizeKey in Keys(query) then 1 else 0)
  {
    BaseQueryKeys();
    query := ProjectsBaseQuery;
    if options.Some? && Truthy(options.value.tag) {
      AppendNewKey(query, TagFilterKey, QStr(options.value.tag.value));
      query := query + [(TagFilterKey, QStr(options.value.tag.value))];
    }
    if options.Some? && TruthyInt(options.value.limit) {
      AppendNewKey(query, PageSizeKey, QNum(options.value.limit.value));
      query := query + [(PageSizeKey, QNum(options.value.limit.value))];
    }
  }

  /** The options `getProjects` passes to `fetchAPI`. */
  function ProjectsRequest(query: Query): RequestOptions {
    RequestOptions("/projects", Some(query), None, Some(["projects"]))
  }

  /** The options `getProjectBySlug` passes to `fetchAPI`: an equality filter on the slug and two tags. */
  function ProjectBySlugRequest(slug: string): (r: RequestOptions)
    ensures r.query.Some? && ("filters[slug][$eq]", QStr(slug)) in r.query.value
    ensures r.tags == Some(["projects", "project-" + slug])
  {
    RequestOptions("/projects",
      Some([("filters[slug][$eq]", QStr(slug)), ("populate[body][populate]", QStr("*"))] + ThumbFields),
      None, Some(["projects", "project-" + slug]))
  }

  /** The request shared by `getTools` and `getBusinesses`: everything populated, up to 1000 entries, never cached. */
  function CatalogueRequest(endpoint: string, tag: string): RequestOptions {
    RequestOptions(endpoint, Some([("populate", QStr("*")), (PageSizeKey, QNum(1000))]), Some("no-store"), Some([tag]))
  }

  const AboutRequest := RequestOptions("/about", None, None, Some(["about"]))
  const ContactInfoRequest := RequestOptions("/contact-info", None, None, Some(["contact-info"]))
  const ToolsRequest := CatalogueRequest("/tools", "tools")
  const BusinessesRequest := CatalogueRequest("/businesses", "businesses")

  const GlobalSeoRequest := RequestOptions("/global-seo", Some([
    ("populate[ogImage][fields][0]", QStr("url")),
    ("populate[ogImage][fields][1]", QStr("alternativeText")),
    ("populate[ogImage][fields][2]", QStr("width")),
    ("populate[ogImage][fields][3]", QStr("height")),
    ("populate[favIcon][fields][0]", QStr("url")),
    ("populate[appleTouchIcon][fields][0]", QStr("url"))]), None, Some(["global-seo"]))
  const CvPageRequest := RequestOptions("/cv-page", Some([("populate", QStr("*"))]), None, Some(["cv-page"]))
  const CareerChaptersRequest :=
    RequestOptions("/career-chapters", Some([("populate", QStr("*")), (PageSizeKey, QNum(1000))]), None, Some(["career-chapters"]))
  const CertificatesRequest :=
    RequestOptions("/certificates", Some([("populate[certificate_supplier][populate]", QStr("thumbnail")), (PageSizeKey, QNum(1000))]),
                   None, Some(["certificates"]))

  /** A request whose cache tag is its endpoint's name, so revalidating that tag refetches exactly that endpoint. */
  predicate TaggedByEndpoint(r: RequestOptions) {
    |r.endpoint| > 0 && r.endpoint[0] == '/' && r.tags == Some([r.endpoint[1..]])
  }

  /**
   * Every getter with a fixed endpoint tags its cache entry with that
   * endpoint's name. Of these, only the singletons (about, contact info,
   * global SEO, CV page) are cached by default; the collections ask for up
   * to 1000 entries.
   */
  lemma FixedRequestsTaggedByEndpoint()
    ensures TaggedByEndpoint(AboutRequest) && TaggedByEndpoint(ContactInfoRequest)
    ensures TaggedByEndpoint(GlobalSeoRequest) && TaggedByEndpoint(CvPageRequest)
    ensures TaggedByEndpoint(ToolsRequest) && TaggedByEndpoint(BusinessesRequest)
    ensures TaggedByEndpoint(CareerChaptersRequest) && TaggedByEndpoint(CertificatesRequest)
    ensures AboutRequest.cache.None? && ContactInfoRequest.cache.None? && GlobalSeoRequest.cache.None? && CvPageRequest.cache.None?
    ensures CareerChaptersRequest.query.Some? && (PageSizeKey, QNum(1000)) in CareerChaptersRequest.query.value
    ensures CertificatesRequest.query.Some? && (PageSizeKey, QNum(1000)) in CertificatesRequest.query.value
  {
    assert "/about"[1..] == "about";
    assert "/contact-info"[1..] == "contact-info";
    assert "/global-seo"[1..] == "global-seo";
    assert "/cv-page"[1..] == "cv-page";
    assert "/tools"[1..] == "tools";
    assert "/businesses"[1..] == "businesses";
    assert "/career-chapters"[1..] == "career-chapters";
    assert "/certificates"[1..] == "certificates";
  }

  /** Tools and businesses are requested with `populate=*`, a page size of 1000 and no caching. */
  lemma CatalogueRequests()
    ensures ToolsRequest.query.Some? && ("populate", QStr("*")) in ToolsRequest.query.value
    ensures (PageSizeKey, QNum(1000)) in ToolsRequest.query.value
    ensures ToolsRequest.cache == Some("no-store") && BusinessesRequest.cache == Some("no-store")
    ensures BusinessesRequest.query == ToolsRequest.query
    ensures CareerChaptersRequest.query == ToolsRequest.query && CareerChaptersRequest.cache.None?
  {
  }

  /** A collection getter's `catch`: any failure becomes the empty list. */
  function OrEmpty<T>(r: Result<seq<T>, FetchError>): (xs: seq<T>)
    ensures r.Err? ==> xs == []
    ensures r.Ok? ==> xs == r.value
  {
    if r.Ok? then r.value else []
  }

  /** A singleton getter's `catch`: any failure becomes `null`. */
  function OrNull<T>(r: Result<T, FetchError>): (x: Option<T>)
    ensures x.None? <==> r.Err?
    ensures x.Some? ==> x.value == r.value
  {
    if r.Ok? then Some(r.value) else None
  }

  /**
   * A singleton getter (`getAboutPage`, `getContactInfo`, `getGlobalSEO`,
   * `getCVPage`): the request as prepared, and the payload or `null`.
   */
  method GetSingleton<T>(env: Env, request: RequestOptions, resp: Response<T>) returns (sent: PreparedRequest, value: Option<T>)
    ensures sent.path == "/api" + request.endpoint && sent.tags == request.tags
    ensures value.None? <==> !(resp.Response? && ResponseOk(resp.status) && resp.body.Some?)
    ensures value.Some? ==> value.value == resp.body.value
  {
    sent := PrepareRequest(env, request);
    value := OrNull(FetchResult(resp));
  }

  /**
   * A collection getter (`getTools`, `getBusinesses`, `getCareerChapters`,
   * `getCertificates`): the request as prepared, and the list or `[]`.
   */
  method GetCollection<T>(env: Env, request: RequestOptions, resp: Response<seq<T>>) returns (sent: PreparedRequest, values: seq<T>)
    ensures sent.path == "/api" + request.endpoint && sent.tags == request.tags
    ensures !(resp.Response? && ResponseOk(resp.status) && resp.body.Some?) ==> values == []
    ensures resp.Response? && ResponseOk(resp.status) && resp.body.Some? ==> values == resp.body.value
  {
    sent := PrepareRequest(env, request);
    values := OrEmpty(FetchResult(resp));
  }

  /** `getProjects`: the request it sends and the projects it returns. */
  method GetProjects(env: Env, options: Option<ProjectsOptions>, resp: Response<seq<ProjectData>>)
    returns (sent: PreparedRequest, projects: seq<ProjectData>)
    ensures sent.path == "/api/projects" && sent.tags == Some(["projects"]) && sent.cache == "no-store"
    ensures |sent.search| >= |ProjectsBaseQuery|
    ensures forall i :: 0 <= i < |ProjectsBaseQuery| ==>
      sent.search[i] == (ProjectsBaseQuery[i].0, Stringify(ProjectsBaseQuery[i].1))
    ensures options.Some? && Truthy(options.value.tag) ==> (TagFilterKey, options.value.tag.value) in sent.search
    ensures options.Some? && TruthyInt(options.value.limit) ==> (PageSizeKey, IntToString(options.value.limit.value)) in sent.search
    ensures |sent.search| == |ProjectsBaseQuery|
      + (if options.Some? && Truthy(options.value.tag) then 1 else 0)
      + (if options.Some? && TruthyInt(options.value.limit) then 1 else 0)
    ensures projects == (if resp.Response? && ResponseOk(resp.status) && resp.body.Some? then resp.body.value else [])
  {
    var query := ProjectsQuery(options);
    sent := PrepareRequest(env, ProjectsRequest(query));
    forall i | 0 <= i < |ProjectsBaseQuery|
      ensures sent.search[i] == (ProjectsBaseQuery[i].0, Stringify(ProjectsBaseQuery[i].1))
    {
      assert query[i] == query[..|ProjectsBaseQuery|][i];
    }
    if options.Some? && Truthy(options.value.tag) {
      var k :| 0 <= k < |query| && query[k] == (TagFilterKey, QStr(options.value.tag.value));
      assert sent.search[k] == (TagFilterKey, options.value.tag.value);
    }
    if options.Some? && TruthyInt(options.value.limit) {
      var k :| 0 <= k < |query| && query[k] == (PageSizeKey, QNum(options.value.limit.value));
      assert sent.search[k] == (PageSizeKey, IntToString(options.value.limit.value));
    }
    projects := OrEmpty(FetchResult(resp));
  }

  /** `getProjectBySlug`'s result: the first project of the fetched list, or `null` for an empty list or a failure. */
  function ProjectBySlugResult(r: Result<seq<ProjectData>, FetchError>): (p: Option<ProjectData>)
    ensures p.Some? <==> r.Ok? && |r.value| > 0
    ensures p.Some? ==> p.value == r.value[0]
  {
    if r.Ok? && |r.value| > 0 then Some(r.value[0]) else None
  }

  /** What the CMS answers to the slug filter: the stored projects with that slug, in store order. */
  function WithSlug(store: seq<ProjectData>, slug: string): seq<ProjectData> {
    Filter(store, (p: ProjectData) => p.slug == slug)
  }

  /**
   * When the CMS honours the slug filter, `getProjectBySlug` returns exactly
   * the first stored project with that slug, and `null` iff there is none.
   */
  lemma {:induction false} ProjectBySlugFindsFirst(store: seq<ProjectData>, slug: string)
    ensures var found := FindFirst(store, (p: ProjectData) => p.slug == slug);
      var r := ProjectBySlugResult(Ok(WithSlug(store, slug)));
      (r.None? <==> found.None?) && (r.Some? ==> r.value == store[found.value])
  {
    if |store| > 0 {
      ProjectBySlugFindsFirst(store[1..], slug);
    }
  }
}
