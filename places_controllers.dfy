/** The five place handlers over the store. Store failures (a lookup that throws, a transaction
    that aborts) are the boolean parameters; the geocoder is a function of the address. */
module PlacesControllers {
  import opened HttpErrors
  import opened Models
  import opened Database
  import PlacesRoutes

  /** A place as sent back: the document with its id. */
  datatype PlaceDoc = PlaceDoc(id: PlaceId, place: Place)

  const FindPlaceFailed := Coded("Something went wrong could not find a place", 500)
  const PlaceNotFound := Coded("Could not find place for the provided id", 404)
  const FetchPlacesFailed := Coded("Fetching places failed, please try again later", 500)
  const NoPlacesForUser := Coded("Could not find a place for the provided user id", 404)
  const InvalidPlaceInputs := Coded("Invalid inputs passed, please check your data", 422)
  const CreatorLookupFailed := HttpError("creating place failed please try again", None)
  const CreatorNotFound := Coded("Could not find user for provided id", 404)
  const CreatePlaceFailed := Coded("Creating place failed, please try again", 500)
  const UpdatePlaceFailed := Coded("Could not update place, please try again later", 500)
  const NotAllowedToEdit := Coded("You are not allowed to edit this place", 401)
  const DeletePlaceFailed := Coded("Something went wrong, could not delete place", 500)
  const PlaceToDeleteMissing := HttpError("Could not find a place for this Id", None)
  const NotAllowedToDelete := Coded("You are not allowed to delete this place", 401)
  const Deleted := "DELETED PLACE"

  /** GET /api/places/:pId. */
  method GetPlaceById(db: Store, placeId: PlaceId, readFails: bool) returns (r: Outcome<PlaceDoc>)
    ensures readFails ==> r == Failure(FindPlaceFailed)
    ensures !readFails && placeId !in db.tables.places ==> r == Failure(PlaceNotFound)
    ensures !readFails && placeId in db.tables.places ==> r == Success(200, PlaceDoc(placeId, db.tables.places[placeId]))
  {
    if readFails {
      return Failure(FindPlaceFailed);
    }
    if placeId !in db.tables.places {
      return Failure(PlaceNotFound);
    }
    r := Success(200, PlaceDoc(placeId, db.tables.places[placeId]));
  }

  /** GET /api/places/user/:uid: the places created by `uid`; none at all is a 404. */
  method GetPlacesByUserId(db: Store, uid: UserId, readFails: bool) returns (r: Outcome<map<PlaceId, Place>>)
    ensures readFails ==> r == Failure(FetchPlacesFailed)
    ensures !readFails ==> (r.Success? <==> exists p :: p in db.tables.places && db.tables.places[p].creator == uid)
    ensures !readFails && !r.Success? ==> r == Failure(NoPlacesForUser)
    ensures r.Success? ==> r.status == 200
    ensures r.Success? ==> forall p :: p in r.value <==> p in db.tables.places && db.tables.places[p].creator == uid
    ensures r.Success? ==> forall p :: p in r.value ==> r.value[p] == db.tables.places[p]
  {
    if readFails {
      return Failure(FetchPlacesFailed);
    }
    var found := OwnedBy(db.tables.places, uid);
    if found == map[] {
      assert forall p :: p in db.tables.places ==> p !in found;
      return Failure(NoPlacesForUser);
    }
    r := Success(200, found);
  }

  /** POST /api/places: validation, geocoding, the creator lookup, then the transaction that
      writes the place and the creator's list together. */
  method CreatePlace(db: Store, userId: UserId, title: string, description: string, address: string,
                     upload: Upload, geocode: string -> Result<Coords>,
                     lookupFails: bool, commitFails: bool) returns (r: Outcome<PlaceDoc>)
    requires db.Valid()
    modifies db
    ensures db.Valid()
    ensures !r.NoResponse?
    ensures r.Failure? ==> unchanged(db)
    ensures !PlacesRoutes.CreateInputsValid(title, description, address) ==> r == Failure(InvalidPlaceInputs)
    ensures PlacesRoutes.CreateInputsValid(title, description, address) && geocode(address).Err? ==>
      r == Failure(geocode(address).error)
    ensures PlacesRoutes.CreateInputsValid(title, description, address) && geocode(address).Ok? ==>
      (if lookupFails then r == Failure(CreatorLookupFailed)
       else if userId !in old(db.tables.users) then r == Failure(CreatorNotFound)
       else if commitFails || upload.path == "" then r == Failure(CreatePlaceFailed)
       else r.Success?)
    ensures r.Success? ==> r.status == 201 && r.value.id !in old(db.tables.places)
    ensures r.Success? ==>
      r.value.place == Place(title, description, upload.path, address, geocode(address).value, userId)
    ensures r.Success? ==> db.tables == InsertPlace(old(db.tables), r.value.id, r.value.place)
  {
    if !PlacesRoutes.CreateInputsValid(title, description, address) {
      return Failure(InvalidPlaceInputs);
    }
    var coordinates := geocode(address);
    if coordinates.Err? {
      return Failure(coordinates.error);
    }
    var created := Place(title, description, upload.path, address, coordinates.value, userId);
    if lookupFails {
      return Failure(CreatorLookupFailed);
    }
    if userId !in db.tables.users {
      return Failure(CreatorNotFound);
    }
    var id, committed := db.InsertPlaceAtomically(created, commitFails);
    if !committed {
      return Failure(CreatePlaceFailed);
    }
    r := Success(201, PlaceDoc(id, created));
  }

  /** PATCH /api/places/:pId. The place must exist: the handler dereferences the lookup result
      without checking it. A validation failure is thrown inside the async handler, so no
      response is sent; a failed lookup sends the 500 before the handler crashes. */
  method UpdatePlace(db: Store, userId: UserId, placeId: PlaceId, title: string, description: string,
                     readFails: bool, saveFails: bool) returns (r: Outcome<PlaceDoc>)
    requires db.Valid()
    requires placeId in db.tables.places
    modifies db
    ensures db.Valid()
    ensures !r.Success? ==> unchanged(db)
    ensures !PlacesRoutes.UpdateInputsValid(title, description) ==> r == NoResponse
    ensures PlacesRoutes.UpdateInputsValid(title, description) ==>
      (if readFails then r == Failure(UpdatePlaceFailed)
       else if old(db.tables.places[placeId]).creator != userId then r == Failure(NotAllowedToEdit)
       else if saveFails then r == Failure(UpdatePlaceFailed)
       else r.Success?)
    ensures r.Success? ==>
      && r.status == 200
      && r.value == PlaceDoc(placeId, old(db.tables.places[placeId]).(title := title, description := description))
      && db.tables == Retitle(old(db.tables), placeId, title, description)
  {
    if !PlacesRoutes.UpdateInputsValid(title, description) {
      return NoResponse;
    }
    if readFails {
      return Failure(UpdatePlaceFailed);
    }
    if db.tables.places[placeId].creator != userId {
      return Failure(NotAllowedToEdit);
    }
    var saved := db.SaveRetitled(placeId, title, description, saveFails);
    if !saved {
      return Failure(UpdatePlaceFailed);
    }
    r := Success(200, PlaceDoc(placeId, db.tables.places[placeId]));
  }

  /** DELETE /api/places/:pId: existence is checked before ownership; the missing-place error
      carries no status code. */
  method DeletePlace(db: Store, userId: UserId, placeId: PlaceId, readFails: bool, commitFails: bool)
    returns (r: Outcome<string>)
    requires db.Valid()
    modifies db
    ensures db.Valid()
    ensures !r.NoResponse?
    ensures r.Failure? ==> unchanged(db)
    ensures readFails ==> r == Failure(DeletePlaceFailed)
    ensures !readFails && placeId !in old(db.tables.places) ==> r == Failure(PlaceToDeleteMissing)
    ensures !readFails && placeId in old(db.tables.places) ==>
      (if old(db.tables.places[placeId]).creator != userId then r == Failure(NotAllowedToDelete)
       else if commitFails then r == Failure(DeletePlaceFailed)
       else r == Success(200, Deleted))
    ensures r.Success? ==> db.tables == RemovePlace(old(db.tables), placeId)
  {
    if readFails {
      return Failure(DeletePlaceFailed);
    }
    if placeId !in db.tables.places {
      return Failure(PlaceToDeleteMissing);
    }
    if userId != db.tables.places[placeId].creator {
      return Failure(NotAllowedToDelete);
    }
    var committed := db.RemovePlaceAtomically(placeId, commitFails);
    if !committed {
      return Failure(DeletePlaceFailed);
    }
    r := Success(200, Deleted);
  }
}
