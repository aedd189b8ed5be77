/** The /api/places router: two public reads, then `checkAuth`, then the three writes, each
    with its validation chain. */
module PlacesRoutes {
  import opened HttpErrors
  import opened Models
  import CheckAuth

  const DescriptionMinLength: nat := 5

  /** `check("title").not().isEmpty()`, `check("description").isLength({min: 5})`,
      `check("address").not().isEmpty()`; a missing field reads as the empty string. */
  predicate CreateInputsValid(title: string, description: string, address: string): (ok: bool)
    ensures ok ==> title != "" && description != "" && address != ""
  {
    title != "" && |description| >= DescriptionMinLength && address != ""
  }

  /** The update route checks title and description only: its verdict is the create
      verdict for any address that is present, and it lets through only fields the schema
      accepts. */
  predicate UpdateInputsValid(title: string, description: string): (ok: bool)
    ensures forall address :: address != "" ==> (ok <==> CreateInputsValid(title, description, address))
    ensures ok ==> title != "" && description != ""
  {
    title != "" && |description| >= DescriptionMinLength
  }

  /** The create checks imply the schema's required text fields, but the schema alone accepts
      a description shorter than five characters. */
  lemma CreateChecksStricterThanSchema(title: string, description: string, address: string, image: string, location: Coords, creator: UserId)
    ensures CreateInputsValid(title, description, address) && image != "" ==>
      PlaceValid(Place(title, description, image, address, location, creator))
    ensures exists p :: PlaceValid(p) && !CreateInputsValid(p.title, p.description, p.address)
  {
    var p := Place("t", "desc", "i", "a", location, creator);
    assert PlaceValid(p) && |p.description| < DescriptionMinLength;
  }

  /** The two reads registered before `checkAuth`; Express answers HEAD with a GET handler
      when no HEAD handler is registered. */
  predicate PublicRead(verb: string, path: seq<string>)
  {
    (verb == "GET" || verb == "HEAD") && (|path| == 1 || (|path| == 2 && path[0] == "user"))
  }

  /** The handler a request below /api/places reaches, with the authenticated user for the
      protected ones; Refused is the middleware's 403. */
  datatype Target =
    | GetPlaceById(placeId: string)
    | GetPlacesByUserId(uid: string)
    | CreatePlace(userId: UserId)
    | UpdatePlace(placeId: string, userId: UserId)
    | DeletePlace(placeId: string, userId: UserId)
    | Refused(error: HttpError)

  /** Express's matching in registration order; `path` is the list of segments after
      /api/places. None means no route matched and the request falls through. */
  function Route(verb: string, path: seq<string>, authorization: Option<string>,
                 verify: string -> Option<CheckAuth.Claims>): (t: Option<Target>)
    ensures (verb == "GET" || verb == "HEAD") && |path| == 1 ==> t == Some(GetPlaceById(path[0]))
    ensures (verb == "GET" || verb == "HEAD") && |path| == 2 && path[0] == "user" ==>
      t == Some(GetPlacesByUserId(path[1]))
    ensures t.Some? && (t.value.GetPlaceById? || t.value.GetPlacesByUserId?) ==> PublicRead(verb, path)
    ensures t.Some? && (t.value.CreatePlace? || t.value.UpdatePlace? || t.value.DeletePlace?) ==>
      CheckAuth.Authenticate(verb, authorization, verify) == CheckAuth.Pass(Some(CheckAuth.UserData(t.value.userId)))
    ensures t.Some? && t.value.CreatePlace? ==> verb == "POST" && path == []
    ensures t.Some? && (t.value.UpdatePlace? || t.value.DeletePlace?) ==> |path| == 1 && t.value.placeId == path[0]
    ensures t.Some? && t.value.UpdatePlace? ==> verb == "PATCH"
    ensures t.Some? && t.value.DeletePlace? ==> verb == "DELETE"
    ensures t.Some? && t.value.Refused? ==>
      t.value.error == CheckAuth.AuthFailed && CheckAuth.Authenticate(verb, authorization, verify).Reject?
    ensures !PublicRead(verb, path) && CheckAuth.Authenticate(verb, authorization, verify).Reject? ==>
      t == Some(Refused(CheckAuth.AuthFailed))
    ensures !PublicRead(verb, path) && CheckAuth.Authenticate(verb, authorization, verify).Pass? ==>
      match CheckAuth.Authenticate(verb, authorization, verify).userData
      case None => t == None
      case Some(data) =>
        && (verb == "POST" && path == [] ==> t == Some(CreatePlace(data.userId)))
        && (verb == "PATCH" && |path| == 1 ==> t == Some(UpdatePlace(path[0], data.userId)))
        && (verb == "DELETE" && |path| == 1 ==> t == Some(DeletePlace(path[0], data.userId)))
        && (!(verb == "POST" && path == []) && !((verb == "PATCH" || verb == "DELETE") && |path| == 1) ==>
              t == None)
  {
    if (verb == "GET" || verb == "HEAD") && |path| == 1 then Some(GetPlaceById(path[0]))
    else if (verb == "GET" || verb == "HEAD") && |path| == 2 && path[0] == "user" then Some(GetPlacesByUserId(path[1]))
    else match CheckAuth.Authenticate(verb, authorization, verify)
      case Reject(e) => Some(Refused(e))
      case Pass(None) => None
      case Pass(Some(data)) =>
        if verb == "POST" && path == [] then Some(CreatePlace(data.userId))
        else if verb == "PATCH" && |path| == 1 then Some(UpdatePlace(path[0], data.userId))
        else if verb == "DELETE" && |path| == 1 then Some(DeletePlace(path[0], data.userId))
        else None
  }

  /** A write without a usable token never reaches its handler: it gets the 403. */
  lemma WriteWithoutTokenRefused(verb: string, path: seq<string>, verify: string -> Option<CheckAuth.Claims>)
    requires (verb == "POST" && path == []) || ((verb == "PATCH" || verb == "DELETE") && |path| == 1)
    ensures Route(verb, path, None, verify) == Some(Refused(CheckAuth.AuthFailed))
  {
  }
}
