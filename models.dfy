/** The two Mongoose schemas: a Place, and a User who owns places. */
module Models {

  type PlaceId = nat
  type UserId = nat

  /** Geocoded position; both coordinates are required by the schema. */
  datatype Coords = Coords(lat: real, lng: real)

  datatype Place = Place(
    title: string,
    description: string,
    image: string,
    address: string,
    location: Coords,
    creator: UserId)

  /** `required: true` on a string rejects the empty string. The schema sets no minimum
      length on the description: the five-character rule lives only in the route. */
  predicate PlaceValid(p: Place): (ok: bool)
  {
    p.title != "" && p.description != "" && p.image != "" && p.address != ""
  }

  datatype Image = Image(path: string, filename: string)

  datatype User = User(
    name: string,
    email: string,
    password: string,
    image: Image,
    places: seq<PlaceId>)

  /** A file stored by the upload middleware: where it lies and its generated name. */
  datatype Upload = Upload(path: string, filename: string)

  const PasswordMinLength: nat := 6

  /** Required name, email, password (at least six characters) and both parts of the image. */
  predicate UserValid(u: User): (ok: bool)
    ensures ok ==> u.password != ""
  {
    && u.name != ""
    && u.email != ""
    && |u.password| >= PasswordMinLength
    && u.image.path != ""
    && u.image.filename != ""
  }

  /** The unique index on email: no two stored users share an address. */
  predicate EmailsUnique(users: map<UserId, User>)
  {
    forall a, b :: a in users && b in users && users[a].email == users[b].email ==> a == b
  }

  predicate EmailTaken(users: map<UserId, User>, email: string)
  {
    exists id :: id in users && users[id].email == email
  }
}
