/** The document store: the Place and User collections, the cross-collection consistency rule
    (a user's `places` list names exactly the places that user created), and the atomic writes
    that keep it. */
module Database {
  import opened Models

  datatype Tables = Tables(places: map<PlaceId, Place>, users: map<UserId, User>)

  /** User `u` exists and every place it lists exists and names `u` as its creator. */
  predicate ListsOwnPlaces(t: Tables, u: UserId)
  {
    u in t.users && forall p :: p in t.users[u].places ==> p in t.places && t.places[p].creator == u
  }

  /** Place `p` exists, its creator exists, and the creator lists it. */
  predicate ListedByCreator(t: Tables, p: PlaceId)
  {
    p in t.places && t.places[p].creator in t.users && p in t.users[t.places[p].creator].places
  }

  /** The link between the collections, in both directions. */
  predicate Linked(t: Tables)
  {
    && (forall u :: u in t.users ==> ListsOwnPlaces(t, u))
    && (forall p :: p in t.places ==> ListedByCreator(t, p))
  }

  predicate PlacesValid(places: map<PlaceId, Place>)
  {
    forall p :: p in places ==> PlaceValid(places[p])
  }

  predicate UsersValid(users: map<UserId, User>)
  {
    forall u :: u in users ==> UserValid(users[u])
  }

  /** The schema constraints on every stored document, email uniqueness, and the link. */
  predicate Consistent(t: Tables)
  {
    Linked(t) && PlacesValid(t.places) && UsersValid(t.users) && EmailsUnique(t.users)
  }

  /** The link read as an equivalence: a place is in a user's list exactly when it exists and
      that user created it. */
  lemma LinkedMeansSameOwnership(t: Tables, u: UserId, p: PlaceId)
    requires Linked(t) && u in t.users
    ensures p in t.users[u].places <==> p in t.places && t.places[p].creator == u
  {
    assert ListsOwnPlaces(t, u);
    if p in t.places { assert ListedByCreator(t, p); }
  }

  /** Two user tables with the same users, differing at most in their place lists. */
  predicate SameProfiles(a: map<UserId, User>, b: map<UserId, User>)
  {
    a.Keys == b.Keys && forall u :: u in a ==> a[u].(places := []) == b[u].(places := [])
  }

  lemma {:induction false} ProfilesKeepUserConstraints(a: map<UserId, User>, b: map<UserId, User>)
    requires SameProfiles(a, b) && UsersValid(a) && EmailsUnique(a)
    ensures UsersValid(b) && EmailsUnique(b)
  {
    forall u | u in b ensures UserValid(b[u]) && b[u].email == a[u].email {
      assert a[u].(places := []) == b[u].(places := []);
      assert UserValid(a[u]);
    }
  }

  /** The places whose creator is `u` (the query `Place.find({creator: u})`). */
  function OwnedBy(places: map<PlaceId, Place>, u: UserId): (r: map<PlaceId, Place>)
    ensures forall p :: p in r <==> p in places && places[p].creator == u
    ensures forall p :: p in r ==> r[p] == places[p]
  {
    map p | p in places && places[p].creator == u :: places[p]
  }

  /** Mongoose's `pull`: every occurrence of `x` leaves the list and every other id stays. */
  function Pull(s: seq<PlaceId>, x: PlaceId): (r: seq<PlaceId>)
    ensures forall y :: y in r <==> y in s && y != x
    ensures |r| <= |s|
  {
    if s == [] then []
    else if s[0] == x then Pull(s[1..], x)
    else [s[0]] + Pull(s[1..], x)
  }

  /** Both writes of the create-place transaction: insert the place, push its id onto the
      creator's list. */
  function InsertPlace(t: Tables, id: PlaceId, p: Place): (r: Tables)
    requires p.creator in t.users
    ensures r.places.Keys == t.places.Keys + {id} && r.places[id] == p
    ensures r.users.Keys == t.users.Keys
    ensures r.users[p.creator].places == t.users[p.creator].places + [id]
    ensures r.users[p.creator].(places := []) == t.users[p.creator].(places := [])
    ensures forall q :: q in t.places && q != id ==> r.places[q] == t.places[q]
    ensures forall v :: v in t.users && v != p.creator ==> r.users[v] == t.users[v]
  {
    var owner := t.users[p.creator];
    Tables(t.places[id := p], t.users[p.creator := owner.(places := owner.places + [id])])
  }

  /** Both writes of the delete-place transaction: remove the place, pull its id from the
      creator's list. */
  function RemovePlace(t: Tables, id: PlaceId): (r: Tables)
    requires id in t.places && t.places[id].creator in t.users
    ensures r.places.Keys == t.places.Keys - {id}
    ensures forall q :: q in r.places ==> r.places[q] == t.places[q]
    ensures r.users.Keys == t.users.Keys
    ensures var c := t.places[id].creator;
      forall y :: y in r.users[c].places <==> y in t.users[c].places && y != id
    ensures var c := t.places[id].creator; r.users[c].(places := []) == t.users[c].(places := [])
    ensures forall v :: v in t.users && v != t.places[id].creator ==> r.users[v] == t.users[v]
  {
    var u := t.places[id].creator;
    Tables(t.places - {id}, t.users[u := t.users[u].(places := Pull(t.users[u].places, id))])
  }

  /** The update-place write: only the title and the description of one place change. */
  function Retitle(t: Tables, id: PlaceId, title: string, description: string): (r: Tables)
    requires id in t.places
    ensures r.places.Keys == t.places.Keys && r.users == t.users
    ensures r.places[id].title == title && r.places[id].description == description
    ensures r.places[id].image == t.places[id].image && r.places[id].address == t.places[id].address
    ensures r.places[id].location == t.places[id].location && r.places[id].creator == t.places[id].creator
    ensures forall q :: q in t.places && q != id ==> r.places[q] == t.places[q]
  {
    Tables(t.places[id := t.places[id].(title := title, description := description)], t.users)
  }

  function InsertUser(t: Tables, id: UserId, u: User): (r: Tables)
    ensures r.places == t.places && r.users.Keys == t.users.Keys + {id} && r.users[id] == u
    ensures forall v :: v in t.users && v != id ==> r.users[v] == t.users[v]
  {
    Tables(t.places, t.users[id := u])
  }

  /** Inserting a place under a fresh id and pushing the id onto its creator's list keeps the
      link. */
  lemma {:induction false} InsertPlaceKeepsLinked(t: Tables, id: PlaceId, p: Place)
    requires Linked(t) && id !in t.places && p.creator in t.users
    ensures Linked(InsertPlace(t, id, p))
  {
    var r := InsertPlace(t, id, p);
    forall u | u in r.users ensures ListsOwnPlaces(r, u) {
      assert ListsOwnPlaces(t, u);
      forall q | q in r.users[u].places ensures q in r.places && r.places[q].creator == u {
        if u != p.creator || q != id {
          assert q in t.users[u].places;
        }
      }
    }
    forall q | q in r.places ensures ListedByCreator(r, q) {
      if q != id {
        assert ListedByCreator(t, q);
      }
    }
  }

  /** The create transaction keeps the store invariant, given a fresh id, an existing creator
      and a place that meets its schema. */
  lemma {:induction false} InsertPlaceKeepsConsistent(t: Tables, id: PlaceId, p: Place)
    requires Consistent(t) && id !in t.places && p.creator in t.users && PlaceValid(p)
    ensures Consistent(InsertPlace(t, id, p))
  {
    var r := InsertPlace(t, id, p);
    InsertPlaceKeepsLinked(t, id, p);
    assert SameProfiles(t.users, r.users);
    ProfilesKeepUserConstraints(t.users, r.users);
    assert PlacesValid(r.places);
  }

  /** Removing a place together with its id from the creator's list keeps the link. */
  lemma {:induction false} RemovePlaceKeepsLinked(t: Tables, id: PlaceId)
    requires Linked(t) && id in t.places
    ensures Linked(RemovePlace(t, id))
  {
    var r := RemovePlace(t, id);
    var c := t.places[id].creator;
    forall u | u in r.users ensures ListsOwnPlaces(r, u) {
      assert ListsOwnPlaces(t, u);
      forall q | q in r.users[u].places ensures q in r.places && r.places[q].creator == u {
        assert q in t.users[u].places;
      }
    }
    forall q | q in r.places ensures ListedByCreator(r, q) {
      assert ListedByCreator(t, q);
    }
  }

  /** The delete transaction keeps the store invariant. */
  lemma {:induction false} RemovePlaceKeepsConsistent(t: Tables, id: PlaceId)
    requires Consistent(t) && id in t.places
    ensures Consistent(RemovePlace(t, id))
  {
    var r := RemovePlace(t, id);
    RemovePlaceKeepsLinked(t, id);
    assert SameProfiles(t.users, r.users);
    ProfilesKeepUserConstraints(t.users, r.users);
  }

  /** Updating a place with a non-empty title and description keeps the store invariant. */
  lemma {:induction false} RetitleKeepsConsistent(t: Tables, id: PlaceId, title: string, description: string)
    requires Consistent(t) && id in t.places && title != "" && description != ""
    ensures Consistent(Retitle(t, id, title, description))
  {
    var r := Retitle(t, id, title, description);
    forall u | u in r.users ensures ListsOwnPlaces(r, u) {
      assert ListsOwnPlaces(t, u);
    }
    forall q | q in r.places ensures ListedByCreator(r, q) {
      assert ListedByCreator(t, q);
    }
    assert PlacesValid(r.places);
  }

  /** Adding a schema-valid user with an unused email and no places keeps the invariant. */
  lemma {:induction false} InsertUserKeepsConsistent(t: Tables, id: UserId, u: User)
    requires Consistent(t) && id !in t.users && u.places == [] && UserValid(u) && !EmailTaken(t.users, u.email)
    ensures Consistent(InsertUser(t, id, u))
  {
    var r := InsertUser(t, id, u);
    assert forall v :: v in t.users ==> t.users[v].email != u.email;
    forall v | v in r.users ensures ListsOwnPlaces(r, v) {
      if v != id {
        assert ListsOwnPlaces(t, v);
      }
    }
    forall q | q in r.places ensures ListedByCreator(r, q) {
      assert ListedByCreator(t, q);
    }
    forall a, b | a in r.users && b in r.users && r.users[a].email == r.users[b].email
      ensures a == b
    {
      if a != id && b != id {
        assert t.users[a].email == t.users[b].email;
      }
    }
    assert UsersValid(r.users);
  }

  /** Under the invariant, the places a creator query finds are exactly the ids in the user's
      own `places` list; a user that does not exist owns nothing. */
  lemma {:induction false} OwnedByMatchesUserList(t: Tables, u: UserId)
    requires Linked(t)
    ensures u in t.users ==> OwnedBy(t.places, u).Keys == set p | p in t.users[u].places
    ensures u !in t.users ==> OwnedBy(t.places, u) == map[]
  {
    var owned := OwnedBy(t.places, u);
    if u in t.users {
      forall p ensures p in owned <==> p in t.users[u].places {
        LinkedMeansSameOwnership(t, u, p);
      }
    } else {
      forall p | p in t.places ensures t.places[p].creator != u {
        assert ListedByCreator(t, p);
      }
    }
  }

  /** Every stored id is below the next one the generator hands out. */
  predicate IdsBelow(t: Tables, nextPlaceId: PlaceId, nextUserId: UserId)
  {
    (forall p :: p in t.places ==> p < nextPlaceId) && (forall u :: u in t.users ==> u < nextUserId)
  }

  /** Adding a place under the next place id keeps the store valid and moves the id generator on. */
  lemma InsertPlaceKeepsValid(t: Tables, id: PlaceId, p: Place, nextUserId: UserId)
    requires Consistent(t) && IdsBelow(t, id, nextUserId) && p.creator in t.users && PlaceValid(p)
    ensures id !in t.places
    ensures Consistent(InsertPlace(t, id, p)) && IdsBelow(InsertPlace(t, id, p), id + 1, nextUserId)
  {
    InsertPlaceKeepsConsistent(t, id, p);
  }

  /** Removing a place keeps the store valid; the id generator is not moved back. */
  lemma RemovePlaceKeepsValid(t: Tables, id: PlaceId, nextPlaceId: PlaceId, nextUserId: UserId)
    requires Consistent(t) && IdsBelow(t, nextPlaceId, nextUserId) && id in t.places
    ensures t.places[id].creator in t.users
    ensures Consistent(RemovePlace(t, id)) && IdsBelow(RemovePlace(t, id), nextPlaceId, nextUserId)
  {
    RemovePlaceKeepsConsistent(t, id);
  }

  /** Adding a valid user with a fresh email under the next user id keeps the store valid. */
  lemma InsertUserKeepsValid(t: Tables, id: UserId, u: User, nextPlaceId: PlaceId)
    requires Consistent(t) && IdsBelow(t, nextPlaceId, id) && UserValid(u) && u.places == []
    requires !EmailTaken(t.users, u.email)
    ensures id !in t.users
    ensures Consistent(InsertUser(t, id, u)) && IdsBelow(InsertUser(t, id, u), nextPlaceId, id + 1)
  {
    InsertUserKeepsConsistent(t, id, u);
  }

  /** The store: both collections, and the id generator for new documents. */
  class Store {
    var tables: Tables
    var nextPlaceId: PlaceId
    var nextUserId: UserId

    /** The stored data is consistent and no stored id can be handed out again. */
    ghost predicate Valid()
      reads this
    {
      Consistent(tables) && IdsBelow(tables, nextPlaceId, nextUserId)
    }

    constructor ()
      ensures Valid() && tables == Tables(map[], map[])
    {
      tables := Tables(map[], map[]);
      nextPlaceId, nextUserId := 0, 0;
    }

    /** A session transaction that saves a new place and pushes its id onto the creator's list.
        Saving validates the place against its schema; a failure of either write, or of the
        commit, aborts the whole transaction. */
    method InsertPlaceAtomically(p: Place, fails: bool) returns (id: PlaceId, committed: bool)
      requires Valid() && p.creator in tables.users
      modifies this
      ensures Valid()
      ensures id == old(nextPlaceId) && id !in old(tables.places)
      ensures committed == (!fails && PlaceValid(p))
      ensures committed ==> tables == InsertPlace(old(tables), id, p)
      ensures !committed ==> unchanged(this)
    {
      id := nextPlaceId;
      committed := !fails && PlaceValid(p);
      if committed {
        InsertPlaceKeepsValid(tables, id, p, nextUserId);
        tables := InsertPlace(tables, id, p);
        nextPlaceId := nextPlaceId + 1;
      }
    }

    /** A session transaction that removes a place and pulls its id from the creator's list;
        on failure neither write is kept. */
    method RemovePlaceAtomically(id: PlaceId, fails: bool) returns (committed: bool)
      requires Valid() && id in tables.places
      modifies this
      ensures Valid()
      ensures committed == !fails
      ensures committed ==> tables == RemovePlace(old(tables), id) && nextPlaceId == old(nextPlaceId)
      ensures !committed ==> unchanged(this)
    {
      committed := !fails;
      if committed {
        RemovePlaceKeepsValid(tables, id, nextPlaceId, nextUserId);
        tables := RemovePlace(tables, id);
      }
    }

    /** `place.save()` after the title and description were assigned; the schema requires both
        to be non-empty. */
    method SaveRetitled(id: PlaceId, title: string, description: string, fails: bool) returns (saved: bool)
      requires Valid() && id in tables.places
      modifies this
      ensures Valid()
      ensures saved == (!fails && title != "" && description != "")
      ensures saved ==> tables == Retitle(old(tables), id, title, description)
      ensures saved ==> nextPlaceId == old(nextPlaceId) && nextUserId == old(nextUserId)
      ensures !saved ==> unchanged(this)
    {
      saved := !fails && title != "" && description != "";
      if saved {
        RetitleKeepsConsistent(tables, id, title, description);
        tables := Retitle(tables, id, title, description);
      }
    }

    /** `createdUser.save()`: schema validation (required fields, password length, unique
        email) and the write. */
    method InsertUserChecked(u: User, fails: bool) returns (id: UserId, saved: bool)
      requires Valid() && u.places == []
      modifies this
      ensures Valid()
      ensures id == old(nextUserId) && id !in old(tables.users)
      ensures saved == (!fails && UserValid(u) && !EmailTaken(old(tables.users), u.email))
      ensures saved ==> tables == InsertUser(old(tables), id, u) && nextPlaceId == old(nextPlaceId)
      ensures !saved ==> unchanged(this)
    {
      id := nextUserId;
      saved := !fails && UserValid(u) && !EmailTaken(tables.users, u.email);
      if saved {
        InsertUserKeepsValid(tables, id, u, nextPlaceId);
        tables := InsertUser(tables, id, u);
        nextUserId := nextUserId + 1;
      }
    }
  }
}
