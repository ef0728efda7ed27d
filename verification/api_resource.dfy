/**
 * The API detail and API picture reads of the portal: an API the caller cannot
 * see answers with a single not-found error; a visible API is answered with its
 * representation, links computed from its own URL, and, on request, its
 * published pages and its plans that are not closed.
 */
module Apis {
  import opened Optional
  import opened Http
  import opened Visibility
  import Pages

  datatype PlanStatus = Staging | Published | Deprecated | Closed

  /** A plan of an API, reduced to what the inclusion filter reads. */
  datatype PlanEntity = PlanEntity(id: string, status: PlanStatus)

  datatype Plan = Plan(id: string)

  /** What a client may ask to have included in an API representation. */
  datatype Include = IncludePages | IncludePlans

  /** The API representation; linksBasePath is where its links are computed from. */
  datatype Api = Api(id: string, linksBasePath: string, pages: Option<seq<Pages.Page>>, plans: Option<seq<Plan>>)

  datatype InlinePicture = InlinePicture(content: string, mimeType: string)

  /** The elements of s that keep accepts, in their original order. */
  function Filter<T(!new)>(s: seq<T>, keep: T -> bool): (r: seq<T>)
    ensures |r| <= |s|
    ensures forall x :: multiset(r)[x] == if keep(x) then multiset(s)[x] else 0
  {
    if |s| == 0 then []
    else
      var rest := Filter(s[1..], keep);
      assert s == [s[0]] + s[1..];
      if keep(s[0]) then [s[0]] + rest else rest
  }

  /** The plans shown to a portal client: every plan except the closed ones. */
  function OpenPlans(plans: seq<PlanEntity>): (r: seq<PlanEntity>)
    ensures forall p :: p in r <==> p in plans && p.status != Closed
  {
    var r := Filter(plans, (p: PlanEntity) => p.status != Closed);
    assert forall p :: p in r <==> multiset(r)[p] > 0;
    r
  }

  /** The pages shown to a portal client: the published ones. */
  function PublishedPages(pages: seq<Pages.PageEntity>): (r: seq<Pages.PageEntity>)
    ensures forall p :: p in r <==> p in pages && p.published
  {
    var r := Filter(pages, (p: Pages.PageEntity) => p.published);
    assert forall p :: p in r <==> multiset(r)[p] > 0;
    r
  }

  /** The URL of an API below the portal's base URI. */
  function ApisUrl(baseUri: string, apiId: string): string {
    baseUri + "apis/" + apiId
  }

  /**
   * GET of an API. pages and plans are what the page and plan services return
   * for it.
   */
  function GetApiByApiId(userApis: seq<ApiEntity>, apiId: string, includes: set<Include>, baseUri: string,
                         pages: seq<Pages.PageEntity>, plans: seq<PlanEntity>): (r: Response<Api>)
    ensures !AnyMatch(userApis, apiId) ==> r == NotFound(ApiNotFound(apiId))
    ensures AnyMatch(userApis, apiId) ==>
      && r.Ok? && r.body.id == apiId && r.body.linksBasePath == ApisUrl(baseUri, apiId)
      && (r.body.pages.Some? <==> IncludePages in includes)
      && (r.body.plans.Some? <==> IncludePlans in includes)
      && (IncludePages in includes ==> r.body.pages.value == seq(|PublishedPages(pages)|, i requires 0 <= i < |PublishedPages(pages)| => Pages.Convert(PublishedPages(pages)[i])))
      && (IncludePlans in includes ==> r.body.plans.value == seq(|OpenPlans(plans)|, i requires 0 <= i < |OpenPlans(plans)| => Plan(OpenPlans(plans)[i].id)))
  {
    if !AnyMatch(userApis, apiId) then NotFound(ApiNotFound(apiId))
    else
      var published := PublishedPages(pages);
      var open := OpenPlans(plans);
      Ok(Api(apiId, ApisUrl(baseUri, apiId),
             if IncludePages in includes then Some(seq(|published|, i requires 0 <= i < |published| => Pages.Convert(published[i]))) else None,
             if IncludePlans in includes then Some(seq(|open|, i requires 0 <= i < |open| => Plan(open[i].id))) else None),
         None, None)
  }

  /** GET of an API's picture. */
  function GetPictureByApiId(userApis: seq<ApiEntity>, apiId: string, picture: InlinePicture): (r: Response<InlinePicture>)
    ensures !AnyMatch(userApis, apiId) ==> r == NotFound(ApiNotFound(apiId))
    ensures AnyMatch(userApis, apiId) ==> r == Ok(picture, None, None)
  {
    if AnyMatch(userApis, apiId) then Ok(picture, None, None) else NotFound(ApiNotFound(apiId))
  }

  /**
   * A caller whose only visible API is "1" gets, for "my-api", a 404 holding
   * exactly one error with the not-found code, status "404" and the id in the
   * message, both for the API and for its picture.
   */
  lemma TestNotFound(includes: set<Include>, baseUri: string, pages: seq<Pages.PageEntity>,
                     plans: seq<PlanEntity>, picture: InlinePicture)
    ensures var r := GetApiByApiId([ApiEntity("1")], "my-api", includes, baseUri, pages, plans);
      StatusCode(r) == 404 && r.errors == [Error("errors.api.notFound", "404", "Api [my-api] can not be found.")]
    ensures var r := GetPictureByApiId([ApiEntity("1")], "my-api", picture);
      StatusCode(r) == 404 && r.errors == [Error("errors.api.notFound", "404", "Api [my-api] can not be found.")]
  {
    assert [ApiEntity("1")][0].id != "my-api";
    assert !AnyMatch([ApiEntity("1")], "my-api");
    assert API_NOT_FOUND_PREFIX + "my-api" + API_NOT_FOUND_SUFFIX == "Api [my-api] can not be found.";
  }

  /** A visible API is answered with 200, its links computed from its own URL; so is its picture. */
  lemma TestGetWithoutIncluded(baseUri: string, pages: seq<Pages.PageEntity>, plans: seq<PlanEntity>,
                               picture: InlinePicture)
    ensures var r := GetApiByApiId([ApiEntity("my-api")], "my-api", {}, baseUri, pages, plans);
      StatusCode(r) == 200 && r.body.linksBasePath == baseUri + "apis/my-api"
    ensures StatusCode(GetPictureByApiId([ApiEntity("my-api")], "my-api", picture)) == 200
  {
  }

  /** With pages and plans included: the one published page, and two of three plans, the closed one dropped. */
  lemma TestGetWithIncluded(baseUri: string, page: Pages.PageEntity)
    requires page.published
    ensures var r := GetApiByApiId([ApiEntity("my-api")], "my-api", {IncludePages, IncludePlans}, baseUri, [page],
                                   [PlanEntity("A", Published), PlanEntity("B", Published), PlanEntity("C", Closed)]);
      StatusCode(r) == 200 && |r.body.pages.value| == 1 && r.body.plans.value == [Plan("A"), Plan("B")]
  {
    var plans := [PlanEntity("A", Published), PlanEntity("B", Published), PlanEntity("C", Closed)];
    assert OpenPlans(plans) == [PlanEntity("A", Published), PlanEntity("B", Published)];
    assert PublishedPages([page]) == [page];
  }
}
