# Gravitee portal REST layer: a Dafny model

This project models the resource-exposure layer of the Gravitee API-management
portal REST API: the part that decides what a portal caller may see and change,
and turns the platform's entities into the portal's representations.

- **ApplicationResource** (`application_resource.dfy`, module `Applications`): the
  handlers for one application (read, update, archive, picture read and upload,
  client-secret renewal). A class owns the application service's store (an id to
  entity map). Each handler returns its HTTP response and the service calls it
  made, in order. The role permission guard declared on a handler is a boolean
  verdict checked before the body. The picture upload declares no guard, so its
  model takes none.
- **ApiRatingsResource** (`api_ratings_resource.dfy`, module `Ratings`): listing and
  creating ratings of an API. A class owns the rating store. Both handlers check
  that the API is among the caller's published APIs before any rating-service
  call. Creation first refuses a null body, before that check.
- **PageMapper** (`page_mapper.dfy`, module `Pages`): page conversion and page
  links, with the behaviour its unit test pins down. This covers typed parsing of
  the configuration map, positional re-indexing of metadata, and `self` /
  `content` / `parent` links.
- **API detail and picture reads** (`api_resource.dfy`, module `Apis`): the behaviour
  pinned by the API resource test. A non-visible API gets a single not-found
  error. A visible API gets its representation, optionally with its published
  pages and its plans that are not closed.
- Shared parts: `text.dfy` (the Java string operations used: `equalsIgnoreCase`,
  `Long.toString`, `Integer.parseInt`, strict boolean parsing, case-insensitive
  enum lookup), `http.dfy` (responses, status codes, the API not-found error
  body), `visibility.dfy` (the `anyMatch` test over the caller's published APIs),
  `optional.dfy` (null and exceptions as `Option` and `Result`).

The services behind the handlers are stubs. The update, archive, renewal,
paged-listing and creation semantics of the stores (`ApplyUpdate`, `RenewSecret`,
`FindRatingsByApi`, `Persist`) are assumptions of the model, not code of the
portal. The handler contracts state what each handler passes to the service (the
recorded calls) and what it does with the answer. The application and rating
mappers are uninterpreted functions held by the resource objects. The caller
identity, the permission verdict, the current time, new ids and secrets are
explicit parameters.

The picture upload declares no permission guard and makes no owner check
(`ApplicationResource.java:165-171`), so its model takes no guard. It calls
`checkAndScaleImage` and ignores its result, then stores the uploaded text itself.

## Model

| member | source | states |
|---|---|---|
| Text.EqualsIgnoreCaseIffLowerEqual | gravitee-rest-api-portal/gravitee-rest-api-portal-rest/src/main/java/io/gravitee/rest/api/portal/rest/resource/ApplicationResource.java:105 | The character-by-character case-insensitive comparison of the id guard holds exactly when the lower-cased ids are equal |
| Text.EqualsIgnoreCaseIsEquivalence | gravitee-rest-api-portal/gravitee-rest-api-portal-rest/src/main/java/io/gravitee/rest/api/portal/rest/resource/ApplicationResource.java:105 | The id guard's comparison is reflexive, symmetric and transitive, and accepts every pair of equal ids |
| Applications.IdGuardIgnoresCase | gravitee-rest-api-portal/gravitee-rest-api-portal-rest/src/main/java/io/gravitee/rest/api/portal/rest/resource/ApplicationResource.java:105 | A payload id "app1" passes the guard for the path id "App1" |
| Text.DecimalRoundTrip | gravitee-rest-api-portal/gravitee-rest-api-portal-rest/src/main/java/io/gravitee/rest/api/portal/rest/resource/ApplicationResource.java:186 | Parsing the decimal rendering of any integer, negative ones included, gives the integer back |
| Text.IntToDecimalInjective | gravitee-rest-api-portal/gravitee-rest-api-portal-rest/src/main/java/io/gravitee/rest/api/portal/rest/resource/ApplicationResource.java:186 | Distinct integers have distinct decimal renderings |
| Text.IntRoundTrip | gravitee-rest-api-portal/gravitee-rest-api-portal-rest/src/test/java/io/gravitee/rest/api/portal/rest/mapper/PageMapperTest.java:50 | Integer.parseInt recovers every 32-bit integer from its decimal text |
| Text.ParseInt | gravitee-rest-api-portal/gravitee-rest-api-portal-rest/src/test/java/io/gravitee/rest/api/portal/rest/mapper/PageMapperTest.java:112 | Text in Integer.parseInt's grammar (an optional sign, then digits) gets a value exactly when that value fits 32 bits, and the value is the text's decimal reading |
| Text.ParseIntExamples | gravitee-rest-api-portal/gravitee-rest-api-portal-rest/src/test/java/io/gravitee/rest/api/portal/rest/mapper/PageMapperTest.java:112 | Integer.parseInt reads "+42" and "042" as 42 and "-7" as -7, and rejects 2147483648, the empty text and a lone sign |
| Text.ParseBoolean | gravitee-rest-api-portal/gravitee-rest-api-portal-rest/src/test/java/io/gravitee/rest/api/portal/rest/mapper/PageMapperTest.java:109-117 | A boolean value exists exactly for the texts "true" and "false", and renders back to the text it came from |
| Text.BooleanRoundTrip | gravitee-rest-api-portal/gravitee-rest-api-portal-rest/src/test/java/io/gravitee/rest/api/portal/rest/mapper/PageMapperTest.java:109-117 | Parsing the rendering of a boolean gives it back |
| Text.ParseEnum | gravitee-rest-api-portal/gravitee-rest-api-portal-rest/src/test/java/io/gravitee/rest/api/portal/rest/mapper/PageMapperTest.java:110-119 | An enum value is found exactly when some symbol name equals the text ignoring case, and the value found belongs to such a symbol |
| Http.StatusCode | gravitee-rest-api-portal/gravitee-rest-api-portal-rest/src/test/java/io/gravitee/rest/api/portal/rest/resource/ApiResourceTest.java:151 | Every response has an HTTP status, and it is a success status exactly for Ok, Created and NoContent |
| Http.ApiNotFoundShape | gravitee-rest-api-portal/gravitee-rest-api-portal-rest/src/test/java/io/gravitee/rest/api/portal/rest/resource/ApiResourceTest.java:153-162 | The API not-found body holds exactly one error, with code errors.api.notFound, status "404" and message "Api [id] can not be found." |
| Http.ApiNotFoundInjective | gravitee-rest-api-portal/gravitee-rest-api-portal-rest/src/test/java/io/gravitee/rest/api/portal/rest/resource/ApiResourceTest.java:162 | The not-found body identifies the API: different ids give different bodies |
| Visibility.AnyMatch | gravitee-rest-api-portal/gravitee-rest-api-portal-rest/src/main/java/io/gravitee/rest/api/portal/rest/resource/ApiRatingsResource.java:69-70 | An API is visible exactly when some published API of the caller has that id, by exact equality |
| Visibility.AnyMatchIsMembership | gravitee-rest-api-portal/gravitee-rest-api-portal-rest/src/main/java/io/gravitee/rest/api/portal/rest/resource/ApiRatingsResource.java:99 | Visibility is membership of the id in the set of the caller's visible ids |
| Visibility.VisibilityIsCaseSensitive | gravitee-rest-api-portal/gravitee-rest-api-portal-rest/src/main/java/io/gravitee/rest/api/portal/rest/resource/ApiRatingsResource.java:70 | "My-Api" is not visible to a caller who sees only "my-api" |
| Pages.ReindexFrom | gravitee-rest-api-portal/gravitee-rest-api-portal-rest/src/test/java/io/gravitee/rest/api/portal/rest/mapper/PageMapperTest.java:123-129 | Re-indexing keeps one entry per source entry, in order, with the same name and value, and gives each its position as order |
| Pages.Convert | gravitee-rest-api-portal/gravitee-rest-api-portal-rest/src/test/java/io/gravitee/rest/api/portal/rest/mapper/PageMapperTest.java:104-159 | The page has a configuration exactly when the source map is present and non-empty, and it is then the typed parse of that map. Metadata is present exactly when the source metadata is, and is then its positional re-indexing. The page type is the type name matched ignoring case. Id, name, parent and order are copied, and updatedAt is the last modification time |
| Pages.ConvertMetadataReindexes | gravitee-rest-api-portal/gravitee-rest-api-portal-rest/src/test/java/io/gravitee/rest/api/portal/rest/mapper/PageMapperTest.java:123-129 | The metadata list has one entry per source entry, with the same name and value. Each order parses back to the entry's position, so no two entries share an order |
| Pages.ComputePageLinks | gravitee-rest-api-portal/gravitee-rest-api-portal-rest/src/test/java/io/gravitee/rest/api/portal/rest/mapper/PageMapperTest.java:161-173 | self is the base path and parent the parent path. content is the base path followed by exactly "/content" |
| Pages.ContentLinkInjective | gravitee-rest-api-portal/gravitee-rest-api-portal-rest/src/test/java/io/gravitee/rest/api/portal/rest/mapper/PageMapperTest.java:171 | The content link determines the base path it was built from |
| Pages.ConfigurationRoundTrip | gravitee-rest-api-portal/gravitee-rest-api-portal-rest/src/test/java/io/gravitee/rest/api/portal/rest/mapper/PageMapperTest.java:75-119 | Configuration parsing loses nothing: every typed configuration (tag count within int range) is recovered from its string-map form |
| Pages.TestConfiguration | gravitee-rest-api-portal/gravitee-rest-api-portal-rest/src/test/java/io/gravitee/rest/api/portal/rest/mapper/PageMapperTest.java:75-119 | The test's configuration gives false, LIST, true, 42, false, true, the string "false", true, false, the try-it URL and REDOC |
| Pages.TestConvert | gravitee-rest-api-portal/gravitee-rest-api-portal-rest/src/test/java/io/gravitee/rest/api/portal/rest/mapper/PageMapperTest.java:68-137 | The full conversion test: the typed configuration, the single metadata entry ("meta", value, order "0"), copied scalars, type SWAGGER and the update time |
| Pages.TestMinimalConvert | gravitee-rest-api-portal/gravitee-rest-api-portal-rest/src/test/java/io/gravitee/rest/api/portal/rest/mapper/PageMapperTest.java:139-159 | Without configuration and metadata maps both are absent; the type is SWAGGER and updatedAt the modification time |
| Pages.TestApiLinks | gravitee-rest-api-portal/gravitee-rest-api-portal-rest/src/test/java/io/gravitee/rest/api/portal/rest/mapper/PageMapperTest.java:161-173 | Links of "/my-page-id" with parent "/my-page-parent" are the page, its "/content" and the parent |
| Applications.AddApplicationLinks | gravitee-rest-api-portal/gravitee-rest-api-portal-rest/src/main/java/io/gravitee/rest/api/portal/rest/resource/ApplicationResource.java:208-210 | Links come from the representation's own id, and nothing else of the representation changes. The URL shape below applications/ is an assumption |
| Applications.CopySettings | gravitee-rest-api-portal/gravitee-rest-api-portal-rest/src/main/java/io/gravitee/rest/api/portal/rest/resource/ApplicationResource.java:122-143 | No payload settings give no patch settings. The simple variant wins over OAuth. At most one variant is ever set. OAuth fields are copied verbatim, and a null renewal flag is the only failure. Present settings with neither variant give an empty settings object |
| Applications.CopySettingsRoundTrip | gravitee-rest-api-portal/gravitee-rest-api-portal-rest/src/main/java/io/gravitee/rest/api/portal/rest/resource/ApplicationResource.java:122-143 | Stored settings sent back unchanged in their portal form are copied to exactly the same settings |
| Applications.UpdateFromPayload | gravitee-rest-api-portal/gravitee-rest-api-portal-rest/src/main/java/io/gravitee/rest/api/portal/rest/resource/ApplicationResource.java:118-143 | The patch has the payload's name and description, the set of its groups and the copied settings, and never a picture. It fails exactly when the settings copy fails |
| Applications.PictureUpdateOnlyReplacesPicture | gravitee-rest-api-portal/gravitee-rest-api-portal-rest/src/main/java/io/gravitee/rest/api/portal/rest/resource/ApplicationResource.java:173-182 | After a picture upload the application differs from the stored one only in its picture and update time |
| Applications.ETagIdentifiesUpdateTime | gravitee-rest-api-portal/gravitee-rest-api-portal-rest/src/main/java/io/gravitee/rest/api/portal/rest/resource/ApplicationResource.java:186-187 | The ETag is the decimal update time in milliseconds: it parses back to it, and distinct times give distinct tags |
| Applications.ApplicationResource.DeleteApplicationByApplicationId | gravitee-rest-api-portal/gravitee-rest-api-portal-rest/src/main/java/io/gravitee/rest/api/portal/rest/resource/ApplicationResource.java:71-81 | A denied guard gives 403 with no call. Otherwise the handler archives exactly the path id, removing only that entry, and answers 204 with no body |
| Applications.ApplicationResource.GetApplicationByApplicationId | gravitee-rest-api-portal/gravitee-rest-api-portal-rest/src/main/java/io/gravitee/rest/api/portal/rest/resource/ApplicationResource.java:83-95 | A denied guard gives 403 with no call. Otherwise one findById, then 404 for an unknown id or 200 with the converted entity and its links |
| Applications.ApplicationResource.UpdateApplicationByApplicationId | gravitee-rest-api-portal/gravitee-rest-api-portal-rest/src/main/java/io/gravitee/rest/api/portal/rest/resource/ApplicationResource.java:97-149 | An id mismatch ignoring case gives 400 with the fixed message and no service call. A caller who is not the primary owner gives 403 after findById, and update is never called. A null renewal flag fails before update. Otherwise the payload's patch is applied to the path id only |
| Applications.ApplicationResource.GetPictureByApplicationId | gravitee-rest-api-portal/gravitee-rest-api-portal-rest/src/main/java/io/gravitee/rest/api/portal/rest/resource/ApplicationResource.java:151-163 | The application is loaded first (404 if unknown), then its stored picture is returned |
| Applications.ApplicationResource.UpdateApplicationPictureByApplicationId | gravitee-rest-api-portal/gravitee-rest-api-portal-rest/src/main/java/io/gravitee/rest/api/portal/rest/resource/ApplicationResource.java:165-189 | With no guard, the handler loads the application and calls update on the path id with every other field carried forward. It answers 200 with ETag = decimal updatedAt and Last-Modified = updatedAt of the updated entity |
| Applications.ApplicationResource.RenewApplicationSecret | gravitee-rest-api-portal/gravitee-rest-api-portal-rest/src/main/java/io/gravitee/rest/api/portal/rest/resource/ApplicationResource.java:191-206 | A denied guard gives 403 with no call. Otherwise one renewal call on the path id, and the renewed entity is answered with its links |
| Ratings.ByteValue | gravitee-rest-api-portal/gravitee-rest-api-portal-rest/src/main/java/io/gravitee/rest/api/portal/rest/resource/ApiRatingsResource.java:104 | The narrowed rate is a signed byte congruent to the input modulo 256 |
| Ratings.ByteValueKeepsByteRange | gravitee-rest-api-portal/gravitee-rest-api-portal-rest/src/main/java/io/gravitee/rest/api/portal/rest/resource/ApiRatingsResource.java:104 | Narrowing keeps every value that fits a byte |
| Ratings.ByteValueWraps | gravitee-rest-api-portal/gravitee-rest-api-portal-rest/src/main/java/io/gravitee/rest/api/portal/rest/resource/ApiRatingsResource.java:104 | Narrowing wraps around: 257 becomes 1 and 128 becomes -128 |
| Ratings.NewRating | gravitee-rest-api-portal/gravitee-rest-api-portal-rest/src/main/java/io/gravitee/rest/api/portal/rest/resource/ApiRatingsResource.java:100-104 | The new rating is for the path API, with the input's title and comment and the byte-narrowed value, which is the value itself for rates 1 to 5 |
| Ratings.ApiRatingsResource.GetApiRatingsByApiId | gravitee-rest-api-portal/gravitee-rest-api-portal-rest/src/main/java/io/gravitee/rest/api/portal/rest/resource/ApiRatingsResource.java:66-86 | A non-visible API gives the API not-found body and no rating-service call. Otherwise one findByApi with the requested page and size unchanged, and 200 with exactly that page's ratings, each converted, in order |
| Ratings.ApiRatingsResource.CreateApiRatingForApi | gravitee-rest-api-portal/gravitee-rest-api-portal-rest/src/main/java/io/gravitee/rest/api/portal/rest/resource/ApiRatingsResource.java:88-114 | A null input gives 400 "Input must not be null." before visibility is checked. A non-visible API gives the not-found body and create is never called. Otherwise exactly one create, and 201 with the converted created rating |
| Apis.OpenPlans | gravitee-rest-api-portal/gravitee-rest-api-portal-rest/src/test/java/io/gravitee/rest/api/portal/rest/resource/ApiResourceTest.java:102-137 | The included plans are exactly the API's plans that are not closed |
| Apis.PublishedPages | gravitee-rest-api-portal/gravitee-rest-api-portal-rest/src/test/java/io/gravitee/rest/api/portal/rest/resource/ApiResourceTest.java:94-133 | The included pages are exactly the published ones |
| Apis.GetApiByApiId | gravitee-rest-api-portal/gravitee-rest-api-portal-rest/src/test/java/io/gravitee/rest/api/portal/rest/resource/ApiResourceTest.java:74-164 | A non-visible API gives the single-error not-found body. A visible one gives 200 with links computed from its own URL. Pages and plans are present exactly when requested, and then they are the converted published pages and the non-closed plans, in order |
| Apis.GetPictureByApiId | gravitee-rest-api-portal/gravitee-rest-api-portal-rest/src/test/java/io/gravitee/rest/api/portal/rest/resource/ApiResourceTest.java:166-204 | The picture of a visible API is returned with 200. A non-visible API gives the same single-error not-found body |
| Apis.TestNotFound | gravitee-rest-api-portal/gravitee-rest-api-portal-rest/src/test/java/io/gravitee/rest/api/portal/rest/resource/ApiResourceTest.java:141-204 | A caller who sees only API "1" gets 404 for "my-api" and its picture, with the one error errors.api.notFound / "404" / "Api [my-api] can not be found." |
| Apis.TestGetWithoutIncluded | gravitee-rest-api-portal/gravitee-rest-api-portal-rest/src/test/java/io/gravitee/rest/api/portal/rest/resource/ApiResourceTest.java:74-90 | A visible API and its picture are answered with 200, and its links are computed from base URI + "apis/my-api" |
| Apis.TestGetWithIncluded | gravitee-rest-api-portal/gravitee-rest-api-portal-rest/src/test/java/io/gravitee/rest/api/portal/rest/resource/ApiResourceTest.java:92-139 | With pages and plans included, the one published page is included, and of three plans the closed one is dropped, leaving A and B |

## Left out

- Routing and serialization by the JAX-RS framework. This includes the delegation of `members`, `notifications`, `logs` and `analytics` to sub-resources (`ApplicationResource.java:213-231`), which is container dispatch with no logic of its own.
- Bean validation of the `@Valid` request bodies (`ApiRatingsResource.java:94`, `ApplicationResource.java:103`) is not modelled: its constraints live in the generated portal model classes, which are not part of this model. The model accepts any rate, so a rate of 257 is narrowed to a created rating of 1 (`Ratings.ByteValueWraps`), where a validator bounding the rate would answer 400 first.
- `PortalApiLinkHelper.applicationsURL` is not part of this model. `Applications.ApplicationsUrl` assumes the application's URL is the base URI followed by `applications/` and the id.
- Evaluation of the `@Permissions` annotations: an external engine, modelled as the boolean `permitted`.
- Reading the uploaded picture file (`Files.readAllBytes`) is I/O. The picture is the uploaded text. An I/O failure is not modelled.
- `checkAndScaleImage` and `createPictureReponse` live in `AbstractResource`, which is not part of this model. The upload handler is modelled as if the image check accepts. The conditional-GET headers of the picture read (304 responses, validators) are not modelled.
- The application, rating, API, page and plan services are not modelled as code. Their stores are stubs with assumed semantics, and the application and rating mappers are uninterpreted functions. The API and plan mappers are modelled as copying the id.
- `createListResponse` is not part of this model. The list response carries only the page's items, not the pagination metadata it renders.
- Which APIs are published to a caller is the API service's answer, passed in as `userApis`. `getAuthenticatedUser` and `getAuthenticatedUserOrNull` become explicit parameters.
- Text.EqualsIgnoreCase: folds only ASCII letters, not the Unicode case mappings `String.equalsIgnoreCase` also applies.
- Text.ParseInt: accepts only ASCII digits, not the other Unicode decimal digits `Integer.parseInt` accepts.
- Null dereferences other than the unboxed renewal flag are not modelled. These are a null payload id, null payload groups, a null rating value and a null primary owner, each of which makes the Java handler throw. Payload strings and lists are never null here.
- Metadata is a sequence of (name, value) pairs in iteration order. The iteration order of a Java `HashMap` is not modelled.
- Dates are integer milliseconds since the epoch. The `Date`/`Instant`/offset types are not modelled.
- The page mapper's source is not part of this model. Where its test is silent, the model assumes that a present but empty configuration map gives no configuration object, that booleans parse strictly as `"true"` / `"false"`, that enumerations match ignoring case, and that an integer which does not parse as a Java `int` gives no value.
- The page mapper's configuration key spellings and the enum symbol sets (page types SWAGGER, MARKDOWN, FOLDER, ROOT, LINK; expansion LIST, FULL, NONE; viewers Swagger, Redoc) are assumed beyond the values the test uses.
- The plan filter drops exactly CLOSED plans. The test pins only PUBLISHED kept and CLOSED dropped, so staging and deprecated plans are an assumption. The order of the plan service's set is modelled as a sequence.
- The error body of an application not found follows the API one's pattern. Its exact text comes from code that is not part of this model.
