/**
 * ApiRatingsResource: listing and creating the ratings of an API. Both handlers
 * act only on an API the caller can see among the APIs published to them
 * (userApis, the answer of the API service's findPublishedByUser); otherwise they
 * answer with the API's not-found error without calling the rating service. The
 * rating service is a store of ratings owned by the resource object.
 */
module Ratings {
  import opened Optional
  import opened Http
  import opened Visibility

  /** A rating as the rating service holds it. */
  datatype RatingEntity = RatingEntity(id: string, api: string, user: string, title: string, comment: string, rate: int)

  /** The portal representation of a rating. */
  datatype Rating = Rating(id: string, author: string, title: string, comment: string, value: int)

  /** The body of a rating creation request. */
  datatype RatingInput = RatingInput(title: string, comment: string, value: int)

  /** The creation request handed to the rating service; rate holds a Java byte. */
  datatype NewRatingEntity = NewRatingEntity(api: string, title: string, comment: string, rate: int)

  /** One page of ratings, already sliced and counted by the rating service. */
  datatype RatingPage = RatingPage(content: seq<RatingEntity>, pageNumber: int, totalElements: nat)

  /** The list response body: the page's items, in order. */
  datatype RatingList = RatingList(data: seq<Rating>)

  /** A call into the rating service. */
  datatype RatingCall =
    | FindByApi(api: string, page: int, size: int)
    | Create(rating: NewRatingEntity)

  const NULL_INPUT := "Input must not be null."

  /** Integer.byteValue: the low eight bits, read as a signed byte. */
  function ByteValue(v: int): (b: int)
    ensures -128 <= b <= 127
    ensures (v - b) % 256 == 0
  {
    (v + 128) % 256 - 128
  }

  /** The narrowing keeps every value that fits a byte, in particular every rate from 1 to 5. */
  lemma ByteValueKeepsByteRange(v: int)
    requires -128 <= v <= 127
    ensures ByteValue(v) == v
  {
  }

  /** The narrowing wraps: 257 becomes the rate 1. */
  lemma ByteValueWraps()
    ensures ByteValue(257) == 1 && ByteValue(128) == -128
  {
  }

  /** The creation request for a rating of the API at the path. */
  function NewRating(apiId: string, input: RatingInput): (n: NewRatingEntity)
    ensures n.api == apiId && n.title == input.title && n.comment == input.comment
    ensures n.rate == ByteValue(input.value)
    ensures 1 <= input.value <= 5 ==> n.rate == input.value
  {
    NewRatingEntity(apiId, input.title, input.comment, ByteValue(input.value))
  }

  /**
   * The ratings of one API in the store, in store order. This belongs to the
   * stub of the rating service, not to the portal resource: it is the model's
   * assumption about what findByApi selects.
   */
  function RatingsOf(store: seq<RatingEntity>, apiId: string): (r: seq<RatingEntity>)
    ensures forall x :: x in r <==> x in store && x.api == apiId
  {
    if |store| == 0 then []
    else
      var rest := RatingsOf(store[1..], apiId);
      assert forall x :: x in store <==> x == store[0] || x in store[1..];
      if store[0].api == apiId then [store[0]] + rest else rest
  }

  /**
   * The rating service's findByApi, as the store answers it: the page-th slice
   * (numbered from 1) of size ratings of the API; empty for a page or size below 1.
   */
  function FindRatingsByApi(store: seq<RatingEntity>, apiId: string, page: int, size: int): RatingPage {
    var all := RatingsOf(store, apiId);
    var from := if page < 1 || size < 1 then |all| else if (page - 1) * size < |all| then (page - 1) * size else |all|;
    var to := if from + size <= |all| && size >= 1 then from + size else |all|;
    RatingPage(all[from..to], page, |all|)
  }

  /** The rating service's create, as the store applies it: the rating is persisted for its author. */
  function Persist(n: NewRatingEntity, id: string, author: string): RatingEntity {
    RatingEntity(id, n.api, author, n.title, n.comment, n.rate)
  }

  class ApiRatingsResource {
    var ratings: seq<RatingEntity>
    const ratingMapper: RatingEntity -> Rating

    constructor (ratings: seq<RatingEntity>, ratingMapper: RatingEntity -> Rating)
      ensures this.ratings == ratings && this.ratingMapper == ratingMapper
    {
      this.ratings := ratings;
      this.ratingMapper := ratingMapper;
    }

    /**
     * GET: for a visible API, asks the rating service for the requested page and
     * size unchanged, and answers with exactly that page's ratings, converted one
     * by one, in the same order, without slicing them again.
     */
    method GetApiRatingsByApiId(userApis: seq<ApiEntity>, apiId: string, page: int, size: int)
      returns (r: Response<RatingList>, calls: seq<RatingCall>)
      ensures !AnyMatch(userApis, apiId) ==> r == NotFound(ApiNotFound(apiId)) && calls == []
      ensures AnyMatch(userApis, apiId) ==>
        var content := FindRatingsByApi(ratings, apiId, page, size).content;
        && calls == [FindByApi(apiId, page, size)]
        && r.Ok? && r.etag.None? && r.lastModified.None?
        && |r.body.data| == |content|
        && forall i :: 0 <= i < |content| ==> r.body.data[i] == ratingMapper(content[i])
    {
      if AnyMatch(userApis, apiId) {
        calls := [FindByApi(apiId, page, size)];
        var ratingEntityPage := FindRatingsByApi(ratings, apiId, page, size);
        var data := seq(|ratingEntityPage.content|, i requires 0 <= i < |ratingEntityPage.content| => ratingMapper(ratingEntityPage.content[i]));
        return Ok(RatingList(data), None, None), calls;
      }
      r, calls := NotFound(ApiNotFound(apiId)), [];
    }

    /**
     * POST: a null body is refused first; then the API must be visible; then the
     * rating is created for the API at the path and answered with 201.
     */
    method CreateApiRatingForApi(permitted: bool, userApis: seq<ApiEntity>, apiId: string,
                                 ratingInput: Option<RatingInput>, author: string, newId: string)
      returns (r: Response<Rating>, calls: seq<RatingCall>)
      modifies this
      ensures !permitted ==> r == Forbidden && calls == [] && ratings == old(ratings)
      ensures permitted && ratingInput.None? ==>
        r == BadRequest(NULL_INPUT) && calls == [] && ratings == old(ratings)
      ensures permitted && ratingInput.Some? && !AnyMatch(userApis, apiId) ==>
        r == NotFound(ApiNotFound(apiId)) && calls == [] && ratings == old(ratings)
      ensures permitted && ratingInput.Some? && AnyMatch(userApis, apiId) ==>
        var created := Persist(NewRating(apiId, ratingInput.value), newId, author);
        && calls == [Create(NewRating(apiId, ratingInput.value))]
        && ratings == old(ratings) + [created]
        && r == Created(ratingMapper(created))
    {
      if !permitted {
        return Forbidden, [];
      }
      if ratingInput.None? {
        return BadRequest(NULL_INPUT), [];
      }
      if AnyMatch(userApis, apiId) {
        var rating := NewRating(apiId, ratingInput.value);
        calls := [Create(rating)];
        var createdRating := Persist(rating, newId, author);
        ratings := ratings + [createdRating];
        return Created(ratingMapper(createdRating)), calls;
      }
      r, calls := NotFound(ApiNotFound(apiId)), [];
    }
  }
}
