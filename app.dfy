/** The application: CORS headers on every response, the two routers mounted under /api, the
    404 fallthrough and the error handler that turns an HttpError into a response. */
module App {
  import opened HttpErrors
  import CheckAuth
  import PlacesRoutes
  import UserRoutes
  import PlacesControllers

  const AllowOrigin := "*"
  const AllowHeaders := "Origin, X-Requested-With, Content-Type, Accept, Authorization"
  const AllowMethods := "GET, POST, PATCH, DELETE"
  const UnknownRoute := Coded("Could not find this route", 404)
  const DefaultMessage := "An unkown error occured"

  function CorsHeaders(): (headers: map<string, string>)
  {
    map["Access-Control-Allow-Origin" := AllowOrigin,
        "Access-Control-Allow-Headers" := AllowHeaders,
        "Access-Control-Allow-Methods" := AllowMethods]
  }

  /** `error.statuscode || 500`: the error's own code unless it is missing or zero. */
  function ErrorStatus(e: HttpError): (status: nat)
    ensures status != 0
    ensures e.status.Some? && e.status.value != 0 ==> status == e.status.value
    ensures e.status.None? || e.status.value == 0 ==> status == 500
  {
    match e.status
    case Some(code) => if code != 0 then code else 500
    case None => 500
  }

  /** `error.message || "An unkown error occured"`: the body's message is never empty. */
  function ErrorMessage(e: HttpError): (message: string)
    ensures message != ""
    ensures e.message != "" ==> message == e.message
    ensures e.message == "" ==> message == DefaultMessage
  {
    if e.message != "" then e.message else DefaultMessage
  }

  /** Errors raised without a status code reach the client as a 500 with their own message,
      among them the delete of a missing place and the failed creator lookup. */
  lemma UncodedErrorsAre500()
    ensures ErrorStatus(PlacesControllers.PlaceToDeleteMissing) == 500
    ensures ErrorMessage(PlacesControllers.PlaceToDeleteMissing) == "Could not find a place for this Id"
    ensures ErrorStatus(PlacesControllers.CreatorLookupFailed) == 500
  {
  }

  /** The response object the middleware and the error handler write to. */
  class ServerResponse {
    var headers: map<string, string>
    var status: nat
    var body: Option<string>

    constructor ()
      ensures headers == map[] && status == 200 && body == None
    {
      headers, status, body := map[], 200, None;
    }

    /** The header middleware that runs before any router. */
    method SetCorsHeaders()
      modifies this
      ensures headers == old(headers) + CorsHeaders()
      ensures headers["Access-Control-Allow-Origin"] == "*"
      ensures headers["Access-Control-Allow-Methods"] == "GET, POST, PATCH, DELETE"
      ensures status == old(status) && body == old(body)
    {
      headers := headers + CorsHeaders();
    }

    /** The error-handling middleware: status and `{message}` body from the error. */
    method SendError(e: HttpError)
      modifies this
      ensures status == ErrorStatus(e) && body == Some(ErrorMessage(e))
      ensures headers == old(headers)
    {
      status := ErrorStatus(e);
      body := Some(ErrorMessage(e));
    }
  }

  datatype Target =
    | Places(place: PlacesRoutes.Target)
    | Users(user: UserRoutes.Target)
    | NotFound(error: HttpError)

  /** Dispatch of a request path, as segments, in the order the routers are mounted. */
  function Dispatch(verb: string, path: seq<string>, authorization: Option<string>,
                    verify: string -> Option<CheckAuth.Claims>): (t: Target)
    ensures t.NotFound? ==> t.error == UnknownRoute
    ensures (|path| < 2 || path[0] != "api" || (path[1] != "places" && path[1] != "users")) ==>
      t == NotFound(UnknownRoute)
    ensures t.Users? ==> path[..2] == ["api", "users"] && UserRoutes.Route(verb, path[2..]) == Some(t.user)
    ensures t.Places? ==>
      && path[..2] == ["api", "places"]
      && PlacesRoutes.Route(verb, path[2..], authorization, verify) == Some(t.place)
    ensures |path| >= 2 && path[0] == "api" && path[1] == "places" ==>
      match PlacesRoutes.Route(verb, path[2..], authorization, verify)
      case Some(target) => t == Places(target)
      case None => t == NotFound(UnknownRoute)
    ensures |path| >= 2 && path[0] == "api" && path[1] == "users" ==>
      match UserRoutes.Route(verb, path[2..])
      case Some(target) => t == Users(target)
      case None => t == NotFound(UnknownRoute)
  {
    if |path| >= 2 && path[0] == "api" && path[1] == "places" then
      match PlacesRoutes.Route(verb, path[2..], authorization, verify)
      case Some(target) => Places(target)
      case None => NotFound(UnknownRoute)
    else if |path| >= 2 && path[0] == "api" && path[1] == "users" then
      match UserRoutes.Route(verb, path[2..])
      case Some(target) => Users(target)
      case None => NotFound(UnknownRoute)
    else NotFound(UnknownRoute)
  }

  /** The public reads need no header at all; the user routes never look at one. */
  lemma ReadsArePublic(placeId: string, uid: string, verify: string -> Option<CheckAuth.Claims>)
    ensures Dispatch("GET", ["api", "places", placeId], None, verify) == Places(PlacesRoutes.GetPlaceById(placeId))
    ensures Dispatch("GET", ["api", "places", "user", uid], None, verify) == Places(PlacesRoutes.GetPlacesByUserId(uid))
    ensures Dispatch("HEAD", ["api", "places", placeId], None, verify) == Places(PlacesRoutes.GetPlaceById(placeId))
    ensures Dispatch("GET", ["api", "users"], None, verify) == Users(UserRoutes.GetUsers)
    ensures Dispatch("HEAD", ["api", "users"], None, verify) == Users(UserRoutes.GetUsers)
    ensures Dispatch("POST", ["api", "users", "login"], None, verify) == Users(UserRoutes.Login)
  {
  }

  /** A place write reaches its handler only with a token that verifies, and it runs as the
      user the token names. */
  lemma WritesRunAsTokenUser(verb: string, path: seq<string>, authorization: Option<string>,
                             verify: string -> Option<CheckAuth.Claims>)
    requires Dispatch(verb, path, authorization, verify).Places?
    requires var t := Dispatch(verb, path, authorization, verify).place;
      t.CreatePlace? || t.UpdatePlace? || t.DeletePlace?
    ensures var token := CheckAuth.TokenOf(authorization);
      && token.Some?
      && verify(token.value).Some?
      && verify(token.value).value.userId == Dispatch(verb, path, authorization, verify).place.userId
  {
  }

  /** A write whose `Authorization` header is any scheme word, one space and a token that
      verifies reaches its handler, running as the user the token names. */
  lemma VerifiedWritesReachHandlers(scheme: string, token: string, placeId: string,
                                    verify: string -> Option<CheckAuth.Claims>)
    requires ' ' !in scheme && ' ' !in token && token != "" && verify(token).Some?
    ensures var header := Some(scheme + " " + token);
      var u := verify(token).value.userId;
      && Dispatch("POST", ["api", "places"], header, verify) == Places(PlacesRoutes.CreatePlace(u))
      && Dispatch("PATCH", ["api", "places", placeId], header, verify) == Places(PlacesRoutes.UpdatePlace(placeId, u))
      && Dispatch("DELETE", ["api", "places", placeId], header, verify) == Places(PlacesRoutes.DeletePlace(placeId, u))
  {
    CheckAuth.TokenAfterAnyScheme(scheme, token);
    assert ["api", "places"][2..] == [];
    assert ["api", "places", placeId][2..] == [placeId];
  }
}
