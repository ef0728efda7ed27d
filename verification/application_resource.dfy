/**
 * ApplicationResource: the portal handlers for one application (read, update,
 * archive, picture upload and download, client-secret renewal). The application
 * service is a store from application id to entity owned by the resource object;
 * each handler returns its HTTP response together with the service calls it made,
 * in order. The role permission guard declared on a handler is a boolean verdict
 * evaluated before the handler body.
 */
module Applications {
  import opened Optional
  import opened Http
  import Text

  datatype SimpleApplicationSettings = SimpleApplicationSettings(clientId: string, appType: string)

  /** OAuth client settings as the application service stores them. */
  datatype OAuthClientSettings = OAuthClientSettings(
    applicationType: string,
    clientId: string,
    clientSecret: string,
    clientUri: string,
    grantTypes: seq<string>,
    logoUri: string,
    redirectUris: seq<string>,
    renewClientSecretSupported: bool,
    responseTypes: seq<string>)

  /** Stored settings: the simple variant, the OAuth variant, or neither. */
  datatype ApplicationSettings = ApplicationSettings(
    app: Option<SimpleApplicationSettings>,
    oAuthClient: Option<OAuthClientSettings>)

  /** OAuth settings as a portal client sends them: renewClientSecretSupported is a nullable Boolean. */
  datatype OAuthSettingsInput = OAuthSettingsInput(
    applicationType: string,
    clientId: string,
    clientSecret: string,
    clientUri: string,
    grantTypes: seq<string>,
    logoUri: string,
    redirectUris: seq<string>,
    renewClientSecretSupported: Option<bool>,
    responseTypes: seq<string>)

  datatype SettingsInput = SettingsInput(app: Option<SimpleApplicationSettings>, oauth: Option<OAuthSettingsInput>)

  /** Where the links of an application representation are computed from. */
  datatype ApplicationLinks = ApplicationLinks(basePath: string)

  /** The portal's Application representation, both as request payload and as response body. */
  datatype Application = Application(
    id: string,
    name: string,
    description: string,
    groups: seq<string>,
    settings: Option<SettingsInput>,
    links: Option<ApplicationLinks>)

  /** An application as the application service holds it; updatedAt is in epoch milliseconds. */
  datatype ApplicationEntity = ApplicationEntity(
    id: string,
    name: string,
    description: string,
    groups: set<string>,
    primaryOwner: string,
    settings: Option<ApplicationSettings>,
    picture: Option<string>,
    updatedAt: int)

  /** The patch handed to ApplicationService.update. */
  datatype UpdateApplicationEntity = UpdateApplicationEntity(
    name: string,
    description: string,
    groups: set<string>,
    settings: Option<ApplicationSettings>,
    picture: Option<string>)

  /** A call into the application service. */
  datatype ServiceCall =
    | FindById(id: string)
    | Update(id: string, update: UpdateApplicationEntity)
    | Archive(id: string)
    | GetPicture(id: string)
    | RenewClientSecret(id: string)

  const ID_MISMATCH := "'applicationId' is not the same that the application in payload"

  /** The error body an ApplicationNotFoundException renders to. */
  function ApplicationNotFound(applicationId: string): seq<Error> {
    [Error("errors.application.notFound", "404", "Application [" + applicationId + "] can not be found.")]
  }

  /** The URL of an application below the portal's base URI (an assumed shape; the link helper is not part of this model). */
  function ApplicationsUrl(baseUri: string, applicationId: string): string {
    baseUri + "applications/" + applicationId
  }

  /** addApplicationLinks: attaches links computed from the representation's own id. */
  function AddApplicationLinks(a: Application, baseUri: string): (r: Application)
    ensures r.links == Some(ApplicationLinks(ApplicationsUrl(baseUri, a.id)))
    ensures r.(links := a.links) == a
  {
    a.(links := Some(ApplicationLinks(ApplicationsUrl(baseUri, a.id))))
  }

  /** The portal form of stored settings, as the application mapper renders them. */
  function SettingsToInput(s: ApplicationSettings): SettingsInput {
    SettingsInput(
      s.app,
      match s.oAuthClient
      case None => None
      case Some(o) => Some(OAuthSettingsInput(
        o.applicationType, o.clientId, o.clientSecret, o.clientUri, o.grantTypes,
        o.logoUri, o.redirectUris, Some(o.renewClientSecretSupported), o.responseTypes)))
  }

  /**
   * The settings part of an update. No payload settings: the patch carries none.
   * The simple variant wins over OAuth; OAuth is copied field by field and unboxing
   * a null renewClientSecretSupported throws; with neither variant the patch
   * carries an empty settings object.
   */
  function CopySettings(s: Option<SettingsInput>): (r: Result<Option<ApplicationSettings>, string>)
    ensures s.None? ==> r == Success(None)
    ensures r.Failure? <==>
      s.Some? && s.value.app.None? && s.value.oauth.Some? && s.value.oauth.value.renewClientSecretSupported.None?
    ensures r.Success? && s.Some? ==> r.value.Some?
    ensures r.Success? && r.value.Some? ==> !(r.value.value.app.Some? && r.value.value.oAuthClient.Some?)
    ensures s.Some? && s.value.app.Some? ==> r == Success(Some(ApplicationSettings(s.value.app, None)))
    ensures s.Some? && s.value.app.None? && s.value.oauth.None? ==> r == Success(Some(ApplicationSettings(None, None)))
    ensures r.Success? && s.Some? && s.value.app.None? && s.value.oauth.Some? ==>
      SettingsToInput(r.value.value) == s.value
  {
    match s
    case None => Success(None)
    case Some(input) =>
      if input.app.Some? then
        Success(Some(ApplicationSettings(Some(SimpleApplicationSettings(input.app.value.clientId, input.app.value.appType)), None)))
      else if input.oauth.Some? then
        var o := input.oauth.value;
        if o.renewClientSecretSupported.None? then Failure("NullPointerException")
        else Success(Some(ApplicationSettings(None, Some(OAuthClientSettings(
          o.applicationType, o.clientId, o.clientSecret, o.clientUri, o.grantTypes,
          o.logoUri, o.redirectUris, o.renewClientSecretSupported.value, o.responseTypes)))))
      else Success(Some(ApplicationSettings(None, None)))
  }

  /**
   * Settings a client read back and sends unchanged are stored unchanged: copying
   * the portal form of any stored settings with at most one variant reproduces them.
   */
  lemma CopySettingsRoundTrip(s: ApplicationSettings)
    requires !(s.app.Some? && s.oAuthClient.Some?)
    ensures CopySettings(Some(SettingsToInput(s))) == Success(Some(s))
  {
  }

  /**
   * The patch built from an update payload: description, the set of the payload's
   * groups, name and settings; never a picture.
   */
  function UpdateFromPayload(a: Application): (r: Result<UpdateApplicationEntity, string>)
    ensures r.Success? <==> CopySettings(a.settings).Success?
    ensures r.Success? ==>
      && r.value.name == a.name && r.value.description == a.description
      && (forall g :: g in r.value.groups <==> g in a.groups)
      && r.value.settings == CopySettings(a.settings).value
      && r.value.picture.None?
  {
    match CopySettings(a.settings)
    case Failure(e) => Failure(e)
    case Success(settings) =>
      Success(UpdateApplicationEntity(a.name, a.description, (set g | g in a.groups), settings, None))
  }

  /** The patch of a picture upload: every other stored field carried forward, the picture replaced. */
  function PictureUpdate(e: ApplicationEntity, newPicture: string): UpdateApplicationEntity {
    UpdateApplicationEntity(e.name, e.description, e.groups, e.settings, Some(newPicture))
  }

  /**
   * The application service's update, as the store applies it: the patched fields
   * replace the stored ones, a patch without picture keeps the stored picture, and
   * the update time becomes now.
   */
  function ApplyUpdate(e: ApplicationEntity, u: UpdateApplicationEntity, now: int): ApplicationEntity {
    e.(name := u.name, description := u.description, groups := u.groups, settings := u.settings,
       picture := if u.picture.Some? then u.picture else e.picture, updatedAt := now)
  }

  /**
   * A picture upload changes nothing of the application but its picture and its
   * update time.
   */
  lemma PictureUpdateOnlyReplacesPicture(e: ApplicationEntity, newPicture: string, now: int)
    ensures ApplyUpdate(e, PictureUpdate(e, newPicture), now) == e.(picture := Some(newPicture), updatedAt := now)
  {
  }

  /** The ETag of a picture response: Long.toString of the update time in milliseconds. */
  function ETag(updatedAt: int): string {
    Text.IntToDecimal(updatedAt)
  }

  /** The ETag is the decimal update time: it parses back to it, so different times give different tags. */
  lemma ETagIdentifiesUpdateTime(t1: int, t2: int)
    ensures Text.ParseDecimal(ETag(t1)) == Some(t1)
    ensures ETag(t1) == ETag(t2) ==> t1 == t2
  {
    Text.DecimalRoundTrip(t1);
    Text.IntToDecimalInjective(t1, t2);
  }

  /**
   * The application service's client-secret renewal, as the store applies it: the
   * OAuth client secret, if any, becomes the freshly issued one and the update time
   * becomes now.
   */
  function RenewSecret(e: ApplicationEntity, secret: string, now: int): ApplicationEntity {
    var settings :=
      if e.settings.Some? && e.settings.value.oAuthClient.Some?
      then Some(e.settings.value.(oAuthClient := Some(e.settings.value.oAuthClient.value.(clientSecret := secret))))
      else e.settings;
    e.(settings := settings, updatedAt := now)
  }

  /** The resource: the application store and the collaborators the handlers use. */
  class ApplicationResource {
    var applications: map<string, ApplicationEntity>
    const baseUri: string
    const mapper: ApplicationEntity -> Application

    constructor (applications: map<string, ApplicationEntity>, baseUri: string, mapper: ApplicationEntity -> Application)
      ensures this.applications == applications && this.baseUri == baseUri && this.mapper == mapper
    {
      this.applications := applications;
      this.baseUri := baseUri;
      this.mapper := mapper;
    }

    /** The response body for an entity: its representation with links. */
    function View(e: ApplicationEntity): Application {
      AddApplicationLinks(mapper(e), baseUri)
    }

    /** DELETE: archives exactly the path id and answers 204 with no body. */
    method DeleteApplicationByApplicationId(permitted: bool, applicationId: string)
      returns (r: Response<Application>, calls: seq<ServiceCall>)
      modifies this
      ensures !permitted ==> r == Forbidden && calls == [] && applications == old(applications)
      ensures permitted ==> calls == [Archive(applicationId)]
      ensures permitted && applicationId in old(applications) ==>
        r == NoContent && applications == old(applications) - {applicationId}
      ensures permitted && applicationId !in old(applications) ==>
        r == NotFound(ApplicationNotFound(applicationId)) && applications == old(applications)
    {
      if !permitted {
        return Forbidden, [];
      }
      calls := [Archive(applicationId)];
      if applicationId !in applications {
        return NotFound(ApplicationNotFound(applicationId)), calls;
      }
      applications := applications - {applicationId};
      r := NoContent;
    }

    /** GET: the stored application with links. */
    method GetApplicationByApplicationId(permitted: bool, applicationId: string)
      returns (r: Response<Application>, calls: seq<ServiceCall>)
      ensures !permitted ==> r == Forbidden && calls == []
      ensures permitted ==> calls == [FindById(applicationId)]
      ensures permitted && applicationId !in applications ==> r == NotFound(ApplicationNotFound(applicationId))
      ensures permitted && applicationId in applications ==>
        r == Ok(View(applications[applicationId]), None, None)
    {
      if !permitted {
        return Forbidden, [];
      }
      calls := [FindById(applicationId)];
      if applicationId !in applications {
        return NotFound(ApplicationNotFound(applicationId)), calls;
      }
      r := Ok(View(applications[applicationId]), None, None);
    }

    /**
     * PUT: the payload id must equal the path id ignoring case (400, before any
     * service call); then the caller must be the primary owner of the stored
     * application (403, and update is never called); then the patch built from the
     * payload is applied to the path id.
     */
    method UpdateApplicationByApplicationId(permitted: bool, user: string, applicationId: string,
                                            payload: Application, now: int)
      returns (r: Response<Application>, calls: seq<ServiceCall>)
      modifies this
      ensures !permitted ==> r == Forbidden && calls == [] && applications == old(applications)
      ensures permitted && !Text.EqualsIgnoreCase(payload.id, applicationId) ==>
        r == BadRequest(ID_MISMATCH) && calls == [] && applications == old(applications)
      ensures permitted && Text.EqualsIgnoreCase(payload.id, applicationId) ==>
        |calls| > 0 && calls[0] == FindById(applicationId)
      ensures permitted && Text.EqualsIgnoreCase(payload.id, applicationId) && applicationId !in old(applications) ==>
        r == NotFound(ApplicationNotFound(applicationId)) && calls == [FindById(applicationId)]
        && applications == old(applications)
      ensures permitted && Text.EqualsIgnoreCase(payload.id, applicationId) && applicationId in old(applications)
              && user != old(applications)[applicationId].primaryOwner ==>
        r == Forbidden && calls == [FindById(applicationId)] && applications == old(applications)
      ensures permitted && Text.EqualsIgnoreCase(payload.id, applicationId) && applicationId in old(applications)
              && user == old(applications)[applicationId].primaryOwner ==>
        match UpdateFromPayload(payload)
        case Failure(_) =>
          r == ServerError && calls == [FindById(applicationId)] && applications == old(applications)
        case Success(u) =>
          && calls == [FindById(applicationId), Update(applicationId, u)]
          && applications == old(applications)[applicationId := ApplyUpdate(old(applications)[applicationId], u, now)]
          && r == Ok(View(applications[applicationId]), None, None)
    {
      if !permitted {
        return Forbidden, [];
      }
      if !Text.EqualsIgnoreCase(payload.id, applicationId) {
        return BadRequest(ID_MISMATCH), [];
      }
      calls := [FindById(applicationId)];
      if applicationId !in applications {
        return NotFound(ApplicationNotFound(applicationId)), calls;
      }
      var appEntity := applications[applicationId];
      if user != appEntity.primaryOwner {
        return Forbidden, calls;
      }
      var patch := UpdateFromPayload(payload);
      if patch.Failure? {
        return ServerError, calls;
      }
      calls := calls + [Update(applicationId, patch.value)];
      var updated := ApplyUpdate(appEntity, patch.value, now);
      applications := applications[applicationId := updated];
      r := Ok(View(updated), None, None);
    }

    /** GET picture: loads the application, then hands back its picture. */
    method GetPictureByApplicationId(permitted: bool, applicationId: string)
      returns (r: Response<Option<string>>, calls: seq<ServiceCall>)
      ensures !permitted ==> r == Forbidden && calls == []
      ensures permitted && applicationId !in applications ==>
        r == NotFound(ApplicationNotFound(applicationId)) && calls == [FindById(applicationId)]
      ensures permitted && applicationId in applications ==>
        calls == [FindById(applicationId), GetPicture(applicationId)]
        && r == Ok(applications[applicationId].picture, None, None)
    {
      if !permitted {
        return Forbidden, [];
      }
      calls := [FindById(applicationId)];
      if applicationId !in applications {
        return NotFound(ApplicationNotFound(applicationId)), calls;
      }
      calls := calls + [GetPicture(applicationId)];
      r := Ok(applications[applicationId].picture, None, None);
    }

    /**
     * PUT picture (no permission guard, no owner check): carries every other stored
     * field forward, replaces the picture through update on the path id, and answers
     * with the ETag and Last-Modified of the entity update returned.
     */
    method UpdateApplicationPictureByApplicationId(applicationId: string, newPicture: string, now: int)
      returns (r: Response<Application>, calls: seq<ServiceCall>)
      modifies this
      ensures applicationId !in old(applications) ==>
        r == NotFound(ApplicationNotFound(applicationId)) && calls == [FindById(applicationId)]
        && applications == old(applications)
      ensures applicationId in old(applications) ==>
        var u := PictureUpdate(old(applications)[applicationId], newPicture);
        var updated := ApplyUpdate(old(applications)[applicationId], u, now);
        && calls == [FindById(applicationId), Update(applicationId, u)]
        && applications == old(applications)[applicationId := updated]
        && r == Ok(View(updated), Some(ETag(updated.updatedAt)), Some(updated.updatedAt))
    {
      calls := [FindById(applicationId)];
      if applicationId !in applications {
        return NotFound(ApplicationNotFound(applicationId)), calls;
      }
      var applicationEntity := applications[applicationId];
      var u := PictureUpdate(applicationEntity, newPicture);
      calls := calls + [Update(applicationId, u)];
      var updatedAppEntity := ApplyUpdate(applicationEntity, u, now);
      applications := applications[applicationId := updatedAppEntity];
      r := Ok(View(updatedAppEntity), Some(ETag(updatedAppEntity.updatedAt)), Some(updatedAppEntity.updatedAt));
    }

    /** POST _renew_secret: renews the client secret through the service and answers with links. */
    method RenewApplicationSecret(permitted: bool, applicationId: string, secret: string, now: int)
      returns (r: Response<Application>, calls: seq<ServiceCall>)
      modifies this
      ensures !permitted ==> r == Forbidden && calls == [] && applications == old(applications)
      ensures permitted ==> calls == [RenewClientSecret(applicationId)]
      ensures permitted && applicationId !in old(applications) ==>
        r == NotFound(ApplicationNotFound(applicationId)) && applications == old(applications)
      ensures permitted && applicationId in old(applications) ==>
        var renewed := RenewSecret(old(applications)[applicationId], secret, now);
        applications == old(applications)[applicationId := renewed] && r == Ok(View(renewed), None, None)
    {
      if !permitted {
        return Forbidden, [];
      }
      calls := [RenewClientSecret(applicationId)];
      if applicationId !in applications {
        return NotFound(ApplicationNotFound(applicationId)), calls;
      }
      var renewed := RenewSecret(applications[applicationId], secret, now);
      applications := applications[applicationId := renewed];
      r := Ok(View(renewed), None, None);
    }
  }

  /** "App1" in the path and "app1" in the payload pass the id guard. */
  lemma IdGuardIgnoresCase()
    ensures Text.EqualsIgnoreCase("app1", "App1")
  {
  }
}
