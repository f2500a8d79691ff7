/** The two place queries the live-update service runs, `getUserPlaceList`
    and `getFreePlaceList`. Their implementation is not part of this model: the
    database is a fixed answer per query, and the store keeps a log of the
    queries it was asked. */
module PlaceQueries {
  import opened Wrappers

  /** A place offered for free use, as the free-places stream sends it: the
      place, its `PlaceStatus`, and the login of the guest holding it. */
  datatype FreePlace = FreePlace(placeId: int, status: int, username: Option<string>)

  /** A place its owner may dispose of; the stream only reads its `id`. */
  datatype UserPlace = UserPlace(id: int, number: int)

  /** The answer to a query: rows, `null`, or a rejected promise. */
  datatype Reply<T> = Rows(rows: seq<T>) | NoRows | Throws

  /** The database's answers: the owner places of each login and the list of
      free places. */
  datatype PlaceDb = PlaceDb(userPlaces: string -> Reply<UserPlace>, freePlaces: Reply<FreePlace>)

  datatype Query = UserPlacesQuery(username: string) | FreePlacesQuery

  class PlaceStore {
    const db: PlaceDb
    /** Every query asked so far, oldest first. */
    var queries: seq<Query>

    constructor (db: PlaceDb)
      ensures this.db == db && queries == []
    {
      this.db := db;
      queries := [];
    }

    /** `getUserPlaceList(username)`. */
    method GetUserPlaceList(username: string) returns (r: Reply<UserPlace>)
      modifies this`queries
      ensures r == db.userPlaces(username)
      ensures queries == old(queries) + [UserPlacesQuery(username)]
    {
      r := db.userPlaces(username);
      queries := queries + [UserPlacesQuery(username)];
    }

    /** `getFreePlaceList()`. */
    method GetFreePlaceList() returns (r: Reply<FreePlace>)
      modifies this`queries
      ensures r == db.freePlaces
      ensures queries == old(queries) + [FreePlacesQuery]
    {
      r := db.freePlaces;
      queries := queries + [FreePlacesQuery];
    }
  }
}
