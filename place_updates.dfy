/** The live place-update service (back/src/services/UserPlaceUpdater.ts) and
    its periodic checker (back/src/services/PlaceDateChecker.ts); the two
    refer to each other, so they share a module. The broadcasts run their
    subscribers one after another; each method is proved to make exactly the
    writes and queries the functions of FanOut describe. */
module PlaceUpdates {
  import opened Wrappers
  import opened Js
  import opened ServerErrors
  import opened ApiHelper
  import opened PlaceQueries
  import opened Streams
  import opened FanOut

  /** The stored procedure that expires free-place offers and returns the ids it touched. */
  const CHECK_DATES := "park.e_check_freeplace_dates"

  /** The delay before the next check, in milliseconds. */
  const CHECK_TIMEOUT: nat := 60 * 1000

  /** The ids a check broadcasts: those the expiry procedure returns, when
      it succeeds with a non-empty list; none otherwise. */
  function CheckedIds(gateway: Gateway<Option<seq<int>>>, key: string): (ids: seq<int>)
    ensures var r := ExecuteDbFunction(gateway, DbCall(CHECK_DATES, []), key);
            && (ids != [] <==> r.Success? && r.value.Some? && |r.value.value| > 0)
            && (ids != [] ==> ids == r.value.value)
  {
    var r := ExecuteDbFunction(gateway, DbCall(CHECK_DATES, []), key);
    if r.Success? && r.value.Some? then r.value.value else []
  }

  /** The queries of a check: a `changeManyPlace` broadcast when there are ids, nothing otherwise. */
  function CheckQueries(rl: seq<MyPlaceRes>, fl: seq<FreePlaceRes>, ids: seq<int>): seq<Query> {
    if ids == [] then [] else MyPlacesQueries(rl, Many(ids)) + MassSendQueries(fl)
  }

  /** The writes of a check, in the same way. */
  function CheckWrites(rl: seq<MyPlaceRes>, fl: seq<FreePlaceRes>, ids: seq<int>, db: PlaceDb): seq<Sent> {
    if ids == [] then [] else MyPlacesWrites(rl, Many(ids), db) + MassSendWrites(fl, db.freePlaces)
  }

  class UserPlaceUpdater {
    var resList: seq<MyPlaceRes>
    var freePlList: seq<FreePlaceRes>
    /** The checker the constructor started (the source keeps no reference). */
    ghost var checker: PlaceDateChecker?

    /** The invariant the broadcast theorems of FanOut assume: no stream is
        recorded twice in a list, and no stream is in both lists (every HTTP
        response is a new object, attached by one handler only). */
    ghost predicate Valid()
      reads this
    {
      && Distinct(Conns(resList))
      && Distinct(FreeConns(freePlList))
      && forall c :: c in Conns(resList) ==> c !in FreeConns(freePlList)
    }

    /** Both lists start empty, and a fresh checker is created and started
        with `start()` as written (see PlaceDateChecker.Start): it is marked
        started, but no check runs and none is scheduled. */
    constructor ()
      ensures resList == [] && freePlList == [] && Valid()
      ensures checker != null && fresh(checker)
      ensures checker.myPlUpdater == this && checker.isCheckStarted && checker.timers == []
    {
      resList := [];
      freePlList := [];
      new;
      var c := PlaceDateChecker.StartedAsWritten(this);
      checker := c;
    }

    /** `addConnection`: announce the retry delay, query the owner places,
        record the subscriber with the ids of those places, then send them.
        A rejected query is swallowed after the retry frame. */
    method AddConnection(res: Conn, username: string, store: PlaceStore, net: EventStreams)
      requires Valid() && res !in Conns(resList) && res !in FreeConns(freePlList)
      modifies this`resList, store`queries, net
      ensures Valid()
      ensures store.queries == old(store.queries) + [UserPlacesQuery(username)]
      ensures store.db.userPlaces(username).Throws? ==>
                && resList == old(resList)
                && net.written == old(net.written) + [Sent(res, Retry(RETRY_MS))]
      ensures !store.db.userPlaces(username).Throws? ==>
                && resList == old(resList) + [MyPlaceRes(PlaceIds(store.db.userPlaces(username)), res, username)]
                && net.written == old(net.written) + [Sent(res, Retry(RETRY_MS)), Sent(res, MyPlacesData(Payload(store.db.userPlaces(username))))]
    {
      net.Write(res, Retry(RETRY_MS));
      var placeObject := store.GetUserPlaceList(username);
      if placeObject.Throws? {
        return;
      }
      var r := MyPlaceRes(PlaceIds(placeObject), res, username);
      ConnsSnoc(resList, r);
      DistinctSnoc(Conns(resList), res);
      resList := resList + [r];
      net.Write(res, MyPlacesData(Payload(placeObject)));
    }

    /** The `close` handler of a "my places" stream. */
    method CloseMyPlaces(res: Conn)
      requires Valid()
      modifies this`resList
      ensures Valid()
      ensures resList == SpliceOne(old(resList), FindIndex(Conns(old(resList)), res))
    {
      var k := FindIndex(Conns(resList), res);
      if resList != [] {
        var removed := if k >= 0 then k else |resList| - 1;
        ConnsRemoveAt(resList, removed);
        DistinctRemoveAt(Conns(resList), removed);
      }
      resList := SpliceOne(resList, k);
    }

    /** `addFreeConnection`: announce the retry delay, query the free places,
        record the subscriber and send it its view. A rejected query adds no
        record; a `null` answer adds the record and then fails in the filter,
        so no data frame follows. */
    method AddFreeConnection(res: Conn, username: string, store: PlaceStore, net: EventStreams)
      requires Valid() && res !in Conns(resList) && res !in FreeConns(freePlList)
      modifies this`freePlList, store`queries, net
      ensures Valid()
      ensures store.queries == old(store.queries) + [FreePlacesQuery]
      ensures freePlList == old(freePlList) + (if store.db.freePlaces.Throws? then [] else [FreePlaceRes(res, username)])
      ensures net.written == old(net.written) + [Sent(res, Retry(RETRY_MS))] +
                (if store.db.freePlaces.Rows? then [Sent(res, FreePlacesData(VisibleFreePlaces(store.db.freePlaces.rows, username)))] else [])
    {
      net.Write(res, Retry(RETRY_MS));
      var placeObject := store.GetFreePlaceList();
      if placeObject.Throws? {
        return;
      }
      var r := FreePlaceRes(res, username);
      FreeConnsSnoc(freePlList, r);
      DistinctSnoc(FreeConns(freePlList), res);
      freePlList := freePlList + [r];
      if placeObject.Rows? {
        SendFreePlaceToUser(placeObject.rows, username, res, net);
      }
    }

    /** The `close` handler of a "free places" stream. */
    method CloseFreePlaces(res: Conn)
      requires Valid()
      modifies this`freePlList
      ensures Valid()
      ensures freePlList == SpliceOne(old(freePlList), FindIndex(FreeConns(old(freePlList)), res))
    {
      var k := FindIndex(FreeConns(freePlList), res);
      if freePlList != [] {
        var removed := if k >= 0 then k else |freePlList| - 1;
        FreeConnsRemoveAt(freePlList, removed);
        DistinctRemoveAt(FreeConns(freePlList), removed);
      }
      freePlList := SpliceOne(freePlList, k);
    }

    /** `sendFreePlaceToUser`: the places the subscriber may see, in list order. */
    method SendFreePlaceToUser(placeList: seq<FreePlace>, username: string, res: Conn, net: EventStreams)
      modifies net
      ensures net.written == old(net.written) + [Sent(res, FreePlacesData(VisibleFreePlaces(placeList, username)))]
    {
      var dt := VisibleFreePlaces(placeList, username);
      net.Write(res, FreePlacesData(dt));
    }

    /** `massSendFreePlace`: with at least one subscriber, read the free list
        once and send every subscriber its view of that same list. */
    method MassSendFreePlace(store: PlaceStore, net: EventStreams)
      modifies store`queries, net
      ensures store.queries == old(store.queries) + MassSendQueries(freePlList)
      ensures net.written == old(net.written) + MassSendWrites(freePlList, store.db.freePlaces)
    {
      if |freePlList| > 0 {
        var placeObject := store.GetFreePlaceList();
        if placeObject.Rows? {
          var i := 0;
          while i < |freePlList|
            invariant 0 <= i <= |freePlList|
            invariant net.written == old(net.written) + FreeFanOut(freePlList[..i], placeObject.rows)
            invariant store.queries == old(store.queries) + [FreePlacesQuery]
          {
            var fp := freePlList[i];
            SendFreePlaceToUser(placeObject.rows, fp.username, fp.res, net);
            assert freePlList[..i + 1][..i] == freePlList[..i];
            i := i + 1;
          }
          assert freePlList[..i] == freePlList;
        }
      }
    }

    /** The `forEach` callback of `changePlace`: a subscriber whose snapshot
        holds the id is sent its fresh owner-place list. */
    method ChangePlaceFor(resElem: MyPlaceRes, placeId: int, store: PlaceStore, net: EventStreams)
      modifies store`queries, net
      ensures store.queries == old(store.queries) + MyPlacesQuery(resElem, One(placeId))
      ensures net.written == old(net.written) + MyPlacesWrite(resElem, One(placeId), store.db)
    {
      if IndexOf(resElem.placeList, placeId) >= 0 {
        var placeObject := store.GetUserPlaceList(resElem.username);
        if !placeObject.Throws? {
          net.Write(resElem.res, MyPlacesData(Payload(placeObject)));
        }
      }
    }

    /** `changePlace(id)`: a fresh list to every subscriber whose snapshot
        holds `id`, then the free-place fan-out. */
    method ChangePlace(placeId: int, store: PlaceStore, net: EventStreams)
      modifies store`queries, net
      ensures store.queries == old(store.queries) + MyPlacesQueries(resList, One(placeId)) + MassSendQueries(freePlList)
      ensures net.written == old(net.written) + MyPlacesWrites(resList, One(placeId), store.db) + MassSendWrites(freePlList, store.db.freePlaces)
    {
      var i := 0;
      while i < |resList|
        invariant 0 <= i <= |resList|
        invariant store.queries == old(store.queries) + MyPlacesQueries(resList[..i], One(placeId))
        invariant net.written == old(net.written) + MyPlacesWrites(resList[..i], One(placeId), store.db)
      {
        MyPlacesPrefixStep(resList, One(placeId), store.db, i);
        ChangePlaceFor(resList[i], placeId, store, net);
        i := i + 1;
      }
      assert resList[..i] == resList;
      MassSendFreePlace(store, net);
    }

    /** The `forEach` callback of `changeManyPlace`: the ids are tried in
        order and the first one the snapshot holds sends the fresh list once
        (`break`). */
    method ChangeManyPlaceFor(resElem: MyPlaceRes, placeIds: seq<int>, store: PlaceStore, net: EventStreams)
      modifies store`queries, net
      ensures store.queries == old(store.queries) + MyPlacesQuery(resElem, Many(placeIds))
      ensures net.written == old(net.written) + MyPlacesWrite(resElem, Many(placeIds), store.db)
    {
      var j := 0;
      while j < |placeIds|
        invariant 0 <= j <= |placeIds|
        invariant forall k :: 0 <= k < j ==> placeIds[k] !in resElem.placeList
        invariant net.written == old(net.written) && store.queries == old(store.queries)
      {
        if IndexOf(resElem.placeList, placeIds[j]) >= 0 {
          var placeObject := store.GetUserPlaceList(resElem.username);
          if !placeObject.Throws? {
            net.Write(resElem.res, MyPlacesData(Payload(placeObject)));
          }
          return;
        }
        j := j + 1;
      }
    }

    /** `changeManyPlace(ids)`: a fresh list to every subscriber whose snapshot
        holds one of the ids, once per subscriber, then the free-place fan-out. */
    method ChangeManyPlace(placeIds: seq<int>, store: PlaceStore, net: EventStreams)
      modifies store`queries, net
      ensures store.queries == old(store.queries) + MyPlacesQueries(resList, Many(placeIds)) + MassSendQueries(freePlList)
      ensures net.written == old(net.written) + MyPlacesWrites(resList, Many(placeIds), store.db) + MassSendWrites(freePlList, store.db.freePlaces)
    {
      var i := 0;
      while i < |resList|
        invariant 0 <= i <= |resList|
        invariant store.queries == old(store.queries) + MyPlacesQueries(resList[..i], Many(placeIds))
        invariant net.written == old(net.written) + MyPlacesWrites(resList[..i], Many(placeIds), store.db)
      {
        MyPlacesPrefixStep(resList, Many(placeIds), store.db, i);
        ChangeManyPlaceFor(resList[i], placeIds, store, net);
        i := i + 1;
      }
      assert resList[..i] == resList;
      MassSendFreePlace(store, net);
    }
  }

  /** The static side of UserPlaceUpdater: its lazily created single instance. */
  class UpdaterStatics {
    var single: UserPlaceUpdater?

    constructor ()
      ensures single == null
    {
      single := null;
    }

    /** `UserPlaceUpdater.Instance`: the existing instance, or on first use a
        new one (whose checker is started as written); later calls return the
        same object. */
    method Instance() returns (u: UserPlaceUpdater)
      modifies this
      ensures single == u
      ensures old(single) != null ==> u == old(single)
      ensures old(single) == null ==> fresh(u) && u.resList == [] && u.freePlList == [] && u.Valid()
      ensures old(single) == null ==> u.checker != null && u.checker.isCheckStarted && u.checker.timers == []
    {
      if single == null {
        single := new UserPlaceUpdater();
      }
      u := single;
    }
  }

  class PlaceDateChecker {
    const myPlUpdater: UserPlaceUpdater
    var isCheckStarted: bool
    /** The delays of the `setTimeout(check, …)` calls made so far. */
    var timers: seq<nat>

    constructor (myPlUpdater: UserPlaceUpdater)
      ensures this.myPlUpdater == myPlUpdater && !isCheckStarted && timers == []
    {
      this.myPlUpdater := myPlUpdater;
      isCheckStarted := false;
      timers := [];
    }

    /** `start` as written: raises the flag and nothing else, so `check`
        (private and called from nowhere else) never runs and no timer is
        ever set. */
    method Start()
      modifies this`isCheckStarted
      ensures isCheckStarted
      ensures timers == old(timers)
    {
      if !isCheckStarted {
        isCheckStarted := true;
      }
    }

    /** The source's own sequence `new PlaceDateChecker(u).start()`, as
        written: the checker is started, yet no check ran and none is pending. */
    static method StartedAsWritten(u: UserPlaceUpdater) returns (c: PlaceDateChecker)
      ensures fresh(c) && c.myPlUpdater == u
      ensures c.isCheckStarted && c.timers == []
    {
      c := new PlaceDateChecker(u);
      c.Start();
    }

    /** `start` as evidently intended: the first call runs the first check,
        which then reschedules itself; later calls change nothing. */
    method StartIntended(gateway: Gateway<Option<seq<int>>>, key: string, store: PlaceStore, net: EventStreams)
      modifies this`isCheckStarted, this`timers, store`queries, net
      ensures isCheckStarted
      ensures old(isCheckStarted) ==>
                timers == old(timers) && store.queries == old(store.queries) && net.written == old(net.written)
      ensures !old(isCheckStarted) ==> timers == old(timers) + [CHECK_TIMEOUT]
      ensures !old(isCheckStarted) ==>
                store.queries == old(store.queries) + CheckQueries(myPlUpdater.resList, myPlUpdater.freePlList, CheckedIds(gateway, key))
      ensures !old(isCheckStarted) ==>
                net.written == old(net.written) + CheckWrites(myPlUpdater.resList, myPlUpdater.freePlList, CheckedIds(gateway, key), store.db)
    {
      if !isCheckStarted {
        isCheckStarted := true;
        Check(gateway, key, store, net);
      }
    }

    /** `check`: run the expiry procedure with no parameters, broadcast the
        ids it returns when there are any, and in every outcome (errors are
        swallowed) schedule the next check after CHECK_TIMEOUT. `key` stands
        for the key of an error the call raises. */
    method Check(gateway: Gateway<Option<seq<int>>>, key: string, store: PlaceStore, net: EventStreams)
      modifies this`timers, store`queries, net
      ensures timers == old(timers) + [CHECK_TIMEOUT]
      ensures store.queries == old(store.queries) + CheckQueries(myPlUpdater.resList, myPlUpdater.freePlList, CheckedIds(gateway, key))
      ensures net.written == old(net.written) + CheckWrites(myPlUpdater.resList, myPlUpdater.freePlList, CheckedIds(gateway, key), store.db)
    {
      var placeObjects := CheckedIds(gateway, key);
      if |placeObjects| > 0 {
        myPlUpdater.ChangeManyPlace(placeObjects, store, net);
      }
      timers := timers + [CHECK_TIMEOUT];
    }
  }
}
