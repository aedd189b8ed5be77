# Places backend — a Dafny model

This project models the decision logic of a small Express/Mongoose backend for sharing
places. Users sign up and log in. Authenticated users create, update and delete geotagged
places that belong to them. The model covers:

- **The store** (`database.dfy`). The Place and User collections are one field of the class
  `Store`, `tables: Tables`, a record of two maps keyed by id. The class also holds the id
  generators for new documents, `nextPlaceId` and `nextUserId`. `Valid()` holds four things:
  every stored document meets its schema, emails are unique, the collections are linked, and
  every stored id is below the next one its generator hands out. Linked means each user's
  `places` list names exactly the places whose `creator` is that user. The two transactions are pure functions on `Tables` (`InsertPlace`,
  `RemovePlace`). Each has a lemma proving it keeps the invariant. The store methods apply both
  writes or neither.
- **The place handlers** (`places_controllers.dfy`) and **the user handlers**
  (`users_controllers.dfy`). Each handler is a method over the store. It returns
  `Success(status, body)`, `Failure(HttpError)` or `NoResponse` (an exception escaping an async
  handler). The checks run in the source's order, with the source's messages and status codes.
- **The authentication middleware** (`check_auth.dfy`). This covers the OPTIONS bypass and the
  token as the second word of `Authorization` split on a space. JavaScript's `split` is modelled
  with its inverse `Join`, and both round trips are proved. Every failure gives the same 403.
  On success the user id is written to the request.
- **The routers** (`places_routes.dfy`, `user_routes.dfy`). These are the validation predicates
  and the route tables in registration order. The place reads come before `checkAuth` and the
  writes after it.
- **The application** (`app.js` → `app.dfy`). This covers the CORS headers, the mounting under
  `/api/places` and `/api/users`, the 404 fallthrough, and the error handler's choice of status
  (`statuscode || 500`) and message.
- **The schemas** (`models.dfy`). These are the Place and User records, their `required` and
  `minlength` constraints, and email uniqueness. `http-error.js` becomes `HttpErrors.HttpError`,
  whose status is optional.

Four behaviours of the code that a reader might not expect, all kept by the model:

- A user with no places gets a 404 from `getPlacesByUserId`, not an empty list.
- Deleting a missing place raises an error with no status code, which the error handler turns
  into a 500 rather than a 404.
- The middleware never checks that the first word of the header is `Bearer`.
- Login looks the email up as typed, but signup stores it normalized.

Collaborators the model does not see become parameters:

- The geocoder is a function from an address to coordinates or an `HttpError`.
- bcrypt and jwt are the function fields of `UsersControllers.Crypto`. `jwt.verify` is the
  `verify` parameter of the middleware.
- `normalizeEmail` and `isEmail` are the fields of `UserRoutes.EmailRules`.
- Each point where the database can throw is a boolean parameter (`readFails`, `commitFails`,
  `saveFails`, `lookupFails`).

## Model

| member | source | states |
|---|---|---|
| `Models.PlaceValid` | models/place.js:5-13 | the place schema: title, description, image and address are required strings, so none may be empty; the location and creator are always present |
| `Models.UserValid` | models/user.js:8-14 | the user schema: name, email, both parts of the image and a password of at least six characters; a valid user never has an empty password |
| `Models.EmailsUnique` | models/user.js:9-19 | the unique index on email: two stored users with the same email are the same user |
| `Database.OwnedBy` | controllers/places-controllers.js:42 | the creator query returns exactly the places whose creator is the given user, unchanged |
| `Database.Pull` | controllers/places-controllers.js:226 | pulling an id removes every occurrence of it and keeps every other id |
| `Database.InsertPlace` | controllers/places-controllers.js:111-117 | the create transaction adds the place under its id, appends the id to its creator's list, keeps the creator's name, email, password and image, and leaves every other place and user as it was |
| `Database.RemovePlace` | controllers/places-controllers.js:222-228 | the delete transaction removes the place; the creator's list loses exactly that id and keeps every other, the creator's name, email, password and image stay, and every other place and user is left as it was |
| `Database.Retitle` | controllers/places-controllers.js:161-162 | an update changes the title and description of one place; image, address, location, creator, the other places and all users stay the same |
| `Database.InsertUser` | controllers/users-controllers.js:72 | saving a user adds it under a new id and leaves places and every other user unchanged |
| `Database.LinkedMeansSameOwnership` | models/user.js:15 | under the link, a place id is in a user's list exactly when that place exists and names the user as its creator (both directions) |
| `Database.InsertPlaceKeepsLinked` | controllers/places-controllers.js:113-116 | saving a place under a fresh id and pushing the id onto its existing creator's list keeps the user.places ⇔ place.creator link |
| `Database.InsertPlaceKeepsConsistent` | controllers/places-controllers.js:111-117 | inserting a schema-valid place under a fresh id for an existing creator keeps the user.places ⇔ place.creator link, schemas and email uniqueness |
| `Database.RemovePlaceKeepsLinked` | controllers/places-controllers.js:225-227 | removing a place and pulling its id from its creator keeps the user.places ⇔ place.creator link |
| `Database.RemovePlaceKeepsConsistent` | controllers/places-controllers.js:222-228 | the delete transaction keeps the whole store invariant |
| `Database.RetitleKeepsConsistent` | controllers/places-controllers.js:161-165 | a non-empty title and description keep the store invariant |
| `Database.InsertUserKeepsConsistent` | models/user.js:7-19 | a schema-valid user with an unused email and no places keeps email uniqueness and the link |
| `Database.OwnedByMatchesUserList` | models/user.js:15 | under the link, a creator query finds exactly the ids in the user's own list, and nothing for an unknown user |
| `Database.InsertPlaceKeepsValid` | controllers/places-controllers.js:111-117 | a schema-valid place added under the next place id keeps the store invariant and every stored place id below the advanced generator |
| `Database.RemovePlaceKeepsValid` | controllers/places-controllers.js:222-228 | the place's creator is a stored user, and the delete transaction keeps the store invariant and the id bounds |
| `Database.InsertUserKeepsValid` | controllers/users-controllers.js:71-76 | the next user id is unused, and a valid user with an unused email keeps the store invariant under the advanced generator |
| `Database.Store.InsertPlaceAtomically` | controllers/places-controllers.js:111-121 | both writes of the create transaction happen, under a fresh id, exactly when the store does not fail and the place meets its schema; otherwise nothing changes |
| `Database.Store.RemovePlaceAtomically` | controllers/places-controllers.js:222-235 | both writes of the delete transaction happen, or neither, and the invariant holds afterwards |
| `Database.Store.SaveRetitled` | controllers/places-controllers.js:161-172 | the save succeeds exactly when the store does not fail and both new fields are non-empty; only then does the place change |
| `Database.Store.InsertUserChecked` | controllers/users-controllers.js:71-76 | the save validates the schema and the unique email; on success the user is added under a fresh id, otherwise nothing changes |
| `PlacesControllers.GetPlaceById` | controllers/places-controllers.js:11-34 | a store failure gives 500; an unknown id gives 404 "Could not find place for the provided id"; otherwise 200 with the stored place and its id; the store is only read |
| `PlacesControllers.GetPlacesByUserId` | controllers/places-controllers.js:37-62 | a store failure gives 500; success exactly when the user created some place, returning exactly those places; no places is a 404, not an empty list |
| `PlacesControllers.CreatePlace` | controllers/places-controllers.js:64-124 | the checks run in order: validation 422 (before geocoding), geocoder error passed on unchanged, creator lookup failure (no status), unknown creator 404, then a transaction failure 500; every failure leaves the store unchanged; success is 201 with the place built from the request, the token's user and the coordinates, and both writes made |
| `PlacesControllers.UpdatePlace` | controllers/places-controllers.js:135-189 | invalid input means no response; a lookup failure gives 500; a requester who is not the creator gets 401; a save failure gives 500; every failure changes nothing; success changes only the title and description |
| `PlacesControllers.DeletePlace` | controllers/places-controllers.js:193-243 | existence is checked before ownership: a missing place gives an error with no status code, a non-owner gets 401, a transaction failure gives 500, and none of these changes the store; success removes the place and its id from the creator |
| `UsersControllers.ViewOmitsPassword` | controllers/users-controllers.js:12 | the listed view keeps every field but the password and does not depend on the password |
| `UsersControllers.GetUsers` | controllers/users-controllers.js:8-22 | a store failure gives 500; otherwise 200 with every stored user, password projected out; an empty store is a valid empty list |
| `UsersControllers.CheckedSignupSavesValidUser` | routes/user-routes.js:16-20 | with the route's checks passed, a stored upload, a non-empty normalized email and a digest of six or more characters, the new user meets the schema and has no places |
| `UsersControllers.Signup` | controllers/users-controllers.js:25-93 | invalid input 422, lookup failure 500, existing email 422 "Could not create user, user already exists", save failure 500, each with the store unchanged; otherwise exactly one user is added with the normalized email, the cost-12 hash of the password, the upload's path and filename and no places, and the reply is 201 with its id, email and a token over {userId, email} valid for 1h, or a 500 if signing fails after the save |
| `UsersControllers.Login` | controllers/users-controllers.js:95-149 | an unknown email and a wrong password both give 403 "Invalid credentials could not log you in"; a comparison or signing failure gives 500; success is 200 with the matching user's id, email and a token over {userId, email}; the store is only read |
| `CheckAuth.Split` | middleware/check-auth.js:14 | splitting on a character gives at least one word and no word contains the separator |
| `CheckAuth.JoinSplit` | middleware/check-auth.js:14 | joining the words of a split gives back the header |
| `CheckAuth.SplitJoin` | middleware/check-auth.js:14 | splitting the join of separator-free words gives back the words |
| `CheckAuth.TokenOf` | middleware/check-auth.js:14-17 | the token is the non-empty second word of the header split on a space; a missing header, a missing second word or an empty one gives no token |
| `CheckAuth.TokenAfterAnyScheme` | middleware/check-auth.js:14 | any first word followed by a space and a token gives that token, so the scheme is not required to be "Bearer" |
| `CheckAuth.OneWordHeaderHasNoToken` | middleware/check-auth.js:14-17 | a header without a space carries no token |
| `CheckAuth.DoubleSpaceHasNoToken` | middleware/check-auth.js:14-17 | two spaces after the first word leave an empty second word, so there is no token |
| `CheckAuth.Authenticate` | middleware/check-auth.js:7-26 | OPTIONS passes with no user data; otherwise the request passes exactly when a token is present and verifies, carrying the decoded user id; every rejection is the same 403 "Authentication failed" |
| `CheckAuth.Run` | middleware/check-auth.js:9-24 | the middleware writes the decoded user id to the request only when it accepts a non-OPTIONS request, and returns the 403 error otherwise |
| `PlacesRoutes.CreateChecksStricterThanSchema` | models/place.js:5-8 | requests that pass the create checks give a schema-valid place, but the schema alone accepts a description shorter than five characters |
| `PlacesRoutes.CreateInputsValid` | routes/places-routes.js:30-32 | the create checks: title present, description of at least five characters, address present; passing them means all three fields are non-empty |
| `PlacesRoutes.UpdateInputsValid` | routes/places-routes.js:40 | the update checks give the create verdict for any present address, so the address is not checked; passing them means the schema accepts the new title and description |
| `PlacesRoutes.Route` | routes/places-routes.js:16-44 | the two GET routes (and HEAD, which Express serves with them) match before the middleware, and only such requests reach the read handlers; POST / reaches create, PATCH /:pId update and DELETE /:pId delete exactly when the middleware accepted, each carrying the authenticated user id; any other request the middleware rejects gets the 403, and an accepted request no write route matches falls through |
| `PlacesRoutes.WriteWithoutTokenRefused` | routes/places-routes.js:23-44 | create, update and delete without an Authorization header get the 403 |
| `UserRoutes.SignupInputsValid` | routes/user-routes.js:17-19 | the signup checks: name present, password of at least six characters, email well-formed after normalization; passing them means name and password are non-empty |
| `UserRoutes.Route` | routes/user-routes.js:9-25 | GET / (and HEAD /, served by the same handler), POST /signup and POST /login are the only routes, and none consults a token |
| `App.ErrorStatus` | app.js:57 | the response status is the error's code when it has a non-zero one, else 500; never 0 |
| `App.ErrorMessage` | app.js:58 | the response message is the error's message, or "An unkown error occured" when it is empty; never empty |
| `App.UncodedErrorsAre500` | app.js:57 | deleting a missing place and a failed creator lookup reach the client as 500 |
| `App.ServerResponse.SetCorsHeaders` | app.js:23-32 | every response gets Allow-Origin "*", the fixed allowed-headers list and Allow-Methods "GET, POST, PATCH, DELETE" |
| `App.ServerResponse.SendError` | app.js:57-58 | the error handler sets the status and the `{message}` body from the error |
| `App.Dispatch` | app.js:35-44 | a path under /api/places or /api/users goes to that router, and whatever target it picks is the result; a path under neither, or one its router does not match, is 404 "Could not find this route" |
| `App.ReadsArePublic` | routes/places-routes.js:16-19 | GET by place id, GET by user id, the user list and login, and HEAD by place id and of the user list, dispatch with no Authorization header |
| `App.WritesRunAsTokenUser` | routes/places-routes.js:23 | a place write reaches its handler only with a token that verifies, and runs as the user that token names |
| `App.VerifiedWritesReachHandlers` | routes/places-routes.js:23-44 | with a header of any scheme word, one space and a token that verifies, POST /api/places, PATCH and DELETE /api/places/:pId reach create, update and delete as the token's user |

## Left out

- utils/location.js is a parameter `geocode: string -> Result<Coords>`. Its HTTP call,
  percent-encoding and JSON parsing are not modelled. Coordinates are `real` values that the
  model never computes with.
- bcrypt and jwt are uninterpreted functions. Salting, hashing cost, signatures and wall-clock
  expiry are not modelled. `HashCost` (12) and `TokenLifetime` ("1h") are passed as arguments.
- `UsersControllers.Signup`: states that the stored password is `hash(password, 12)`. It does
  not state that the digest differs from the plaintext, because the hash is uninterpreted.
- `UsersControllers.Signup`: `bcrypt.hash` is total here. The source's path after a hash failure
  sends a 500 and then carries on with an undefined digest. That path is not modelled.
- `PlacesControllers.UpdatePlace`: requires the place to exist. For an unknown id the source
  dereferences null and crashes; no 404 is invented. After a lookup failure the model returns
  the 500 that was sent and does not model the crash that follows.
- `UsersControllers.Login`: requires unique emails. The store's unique index guarantees this,
  and the model relies on it to name the user that `findOne` returns.
- Mongoose sessions and transactions are one method each that applies both writes or neither.
  Isolation, concurrency and driver errors are boolean "store failed" parameters.
- A URL parameter that is not a valid ObjectId makes the lookup throw. That is the `readFails`
  branch. Route targets carry path segments as strings, and handlers take numeric ids.
- File handling is not modelled: the upload middleware, cloudinary, static serving of
  `/uploads/images`, `fs.unlink` after a delete and in the error handler, and the backslash
  rewrite of upload paths. The stored image is `upload.path` as given. A request without a file
  crashes the source, so the upload is a required argument.
- The error handler's `res.headerSent` branch forwards an undefined `err`. It is not modelled:
  `SendError` always writes the response.
- Server start-up (the database connection and `listen`) is not modelled.
- express-validator's `isEmail` and `normalizeEmail` are abstract (`UserRoutes.EmailRules`). A
  missing body field is the empty string. Lengths count Unicode scalar values, which is close to what `isLength`
  counts: recent validator.js releases also leave the variation selectors U+FE0E and U+FE0F out
  of the count, and the model does not.
- Express's automatic OPTIONS replies are not modelled, nor are trailing slashes,
  case-insensitive paths and query strings. An OPTIONS request that passes the middleware and
  matches no route falls through to the 404.
- JSON key names of response bodies are not modelled (`place`, `foundUserPlaces`, `users`,
  `_id` versus `id`). Bodies are the values they carry.
