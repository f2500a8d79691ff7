/** What the live-update service sends, as functions of its subscriber lists
    and of the database (back/src/services/UserPlaceUpdater.ts). The methods
    of the updater are proved to produce exactly these writes and queries;
    the lemmas here say what each client then receives. */
module FanOut {
  import opened Wrappers
  import opened PlaceModel
  import opened PlaceQueries
  import opened Streams

  /** A "my places" subscriber: the ids of its owner places when it attached,
      its stream, its login. */
  datatype MyPlaceRes = MyPlaceRes(placeList: seq<int>, res: Conn, username: string)

  /** A "free places" subscriber. */
  datatype FreePlaceRes = FreePlaceRes(res: Conn, username: string)

  /* ---------------------------------------------------------------------
     Attaching
     --------------------------------------------------------------------- */

  /** `(placeObject || []).map(el => el.id)`. */
  function PlaceIds(reply: Reply<UserPlace>): (ids: seq<int>)
    ensures reply.Rows? ==> |ids| == |reply.rows| && forall i :: 0 <= i < |ids| ==> ids[i] == reply.rows[i].id
    ensures !reply.Rows? ==> ids == []
  {
    if reply.Rows? then seq(|reply.rows|, i requires 0 <= i < |reply.rows| => reply.rows[i].id) else []
  }

  /** The value `JSON.stringify(placeObject)` renders: the rows, or `null`. */
  function Payload(reply: Reply<UserPlace>): (p: Option<seq<UserPlace>>)
    ensures p.Some? <==> reply.Rows?
    ensures p.Some? ==> p.value == reply.rows
  {
    if reply.Rows? then Some(reply.rows) else None
  }

  /** A snapshot holds an id exactly when one of the queried places has it. */
  lemma PlaceIdsMembers(reply: Reply<UserPlace>, id: int)
    ensures id in PlaceIds(reply) <==> reply.Rows? && exists i :: 0 <= i < |reply.rows| && reply.rows[i].id == id
  {
    if reply.Rows? && id in PlaceIds(reply) {
      var i :| 0 <= i < |PlaceIds(reply)| && PlaceIds(reply)[i] == id;
      assert reply.rows[i].id == id;
    }
  }

  /* ---------------------------------------------------------------------
     Free-place visibility
     --------------------------------------------------------------------- */

  /** A free place is shown to the guest holding it and, while `FREE`, to everybody. */
  predicate VisibleTo(p: FreePlace, username: string)
    ensures p.username == Some(username) ==> VisibleTo(p, username)
  {
    p.username == Some(username) || p.status == FREE
  }

  /** The filter of `sendFreePlaceToUser`. */
  function VisibleFreePlaces(ps: seq<FreePlace>, username: string): (r: seq<FreePlace>)
    ensures |r| <= |ps|
    ensures forall p :: p in r <==> p in ps && VisibleTo(p, username)
  {
    if ps == [] then []
    else (if VisibleTo(ps[0], username) then [ps[0]] else []) + VisibleFreePlaces(ps[1..], username)
  }

  /** Filtering keeps the order: the view of a concatenation is the
      concatenation of the views. */
  lemma {:induction false} VisibleFreePlacesAppend(a: seq<FreePlace>, b: seq<FreePlace>, username: string)
    ensures VisibleFreePlaces(a + b, username) == VisibleFreePlaces(a, username) + VisibleFreePlaces(b, username)
  {
    if a == [] {
      assert a + b == b;
    } else {
      assert (a + b)[0] == a[0] && (a + b)[1..] == a[1..] + b;
      VisibleFreePlacesAppend(a[1..], b, username);
    }
  }

  /** Filtering a view again changes nothing. */
  lemma {:induction false} VisibleFreePlacesIdempotent(ps: seq<FreePlace>, username: string)
    ensures VisibleFreePlaces(VisibleFreePlaces(ps, username), username) == VisibleFreePlaces(ps, username)
  {
    if ps != [] {
      var head := if VisibleTo(ps[0], username) then [ps[0]] else [];
      VisibleFreePlacesIdempotent(ps[1..], username);
      VisibleFreePlacesAppend(head, VisibleFreePlaces(ps[1..], username), username);
      if head != [] {
        assert head[1..] == [];
      }
    }
  }

  /** A list every entry of which is visible is sent whole. */
  lemma {:induction false} VisibleFreePlacesAll(ps: seq<FreePlace>, username: string)
    requires forall i :: 0 <= i < |ps| ==> VisibleTo(ps[i], username)
    ensures VisibleFreePlaces(ps, username) == ps
  {
    if ps != [] {
      VisibleFreePlacesAll(ps[1..], username);
    }
  }

  /* ---------------------------------------------------------------------
     Closing
     --------------------------------------------------------------------- */

  function Conns(rl: seq<MyPlaceRes>): (cs: seq<Conn>)
    ensures |cs| == |rl| && forall i :: 0 <= i < |rl| ==> cs[i] == rl[i].res
  {
    seq(|rl|, i requires 0 <= i < |rl| => rl[i].res)
  }

  function FreeConns(fl: seq<FreePlaceRes>): (cs: seq<Conn>)
    ensures |cs| == |fl| && forall i :: 0 <= i < |fl| ==> cs[i] == fl[i].res
  {
    seq(|fl|, i requires 0 <= i < |fl| => fl[i].res)
  }

  predicate Distinct(cs: seq<Conn>) {
    forall i, j :: 0 <= i < j < |cs| ==> cs[i] != cs[j]
  }

  /** `findIndex(rs => rs.res === c)`: the first position holding `c`, or -1. */
  function FindIndex(cs: seq<Conn>, c: Conn): (k: int)
    ensures -1 <= k < |cs|
    ensures k >= 0 ==> cs[k] == c && c !in cs[..k]
    ensures k == -1 <==> c !in cs
  {
    if cs == [] then -1
    else if cs[0] == c then 0
    else
      var k := FindIndex(cs[1..], c);
      if k == -1 then -1 else k + 1
  }

  /** `splice(start, 1)`: a negative start counts from the end (clamped at 0);
      a start past the end removes nothing. */
  function SpliceOne<T>(s: seq<T>, start: int): (r: seq<T>)
    ensures 0 <= start < |s| ==> r == s[..start] + s[start + 1..]
    ensures start >= |s| ==> r == s
    ensures start < 0 && |s| + start >= 0 ==> r == s[..|s| + start] + s[|s| + start + 1..]
    ensures start < 0 && |s| + start < 0 && s != [] ==> r == s[1..]
  {
    var k := if start < 0 then (if |s| + start < 0 then 0 else |s| + start) else start;
    if k < |s| then s[..k] + s[k + 1..] else s
  }

  /** Closing an attached stream removes exactly its first record; the
      others keep their order. */
  lemma CloseRemovesFirstMatch<R>(rl: seq<R>, cs: seq<Conn>, c: Conn)
    requires |cs| == |rl| && c in cs
    ensures var k := FindIndex(cs, c);
      && 0 <= k < |rl| && cs[k] == c && c !in cs[..k]
      && SpliceOne(rl, k) == rl[..k] + rl[k + 1..]
      && |SpliceOne(rl, k)| == |rl| - 1
  {
  }

  /** With distinct streams, the closed stream has no record left and every
      other record stays. */
  lemma CloseMyPlacesDistinct(rl: seq<MyPlaceRes>, c: Conn)
    requires Distinct(Conns(rl)) && c in Conns(rl)
    ensures var rest := SpliceOne(rl, FindIndex(Conns(rl), c));
      && c !in Conns(rest)
      && Distinct(Conns(rest))
      && forall r :: r in rl && r.res != c ==> r in rest
  {
    var cs := Conns(rl);
    var k := FindIndex(cs, c);
    var rest := SpliceOne(rl, k);
    assert rest == rl[..k] + rl[k + 1..];
    assert |rest| == |rl| - 1;
    var rs := Conns(rest);
    forall i | 0 <= i < |rest|
      ensures rest[i] == rl[if i < k then i else i + 1]
    {
    }
    forall i | 0 <= i < |rs|
      ensures rs[i] != c
    {
      var i' := if i < k then i else i + 1;
      assert rs[i] == cs[i'] && cs[k] == c && i' != k;
    }
    forall i, j | 0 <= i < j < |rs|
      ensures rs[i] != rs[j]
    {
      var i', j' := if i < k then i else i + 1, if j < k then j else j + 1;
      assert rs[i] == cs[i'] && rs[j] == cs[j'] && i' < j';
    }
    forall r | r in rl && r.res != c
      ensures r in rest
    {
      var j :| 0 <= j < |rl| && rl[j] == r;
      assert cs[j] == r.res;
      if j < k { assert rest[j] == r; } else { assert rest[j - 1] == r; }
    }
  }

  /** The streams of a prefix of the list are distinct when the whole list's are. */
  lemma DistinctPrefix(rl: seq<MyPlaceRes>, n: nat)
    requires Distinct(Conns(rl)) && n <= |rl|
    ensures Distinct(Conns(rl[..n]))
  {
    var cs, ps := Conns(rl), Conns(rl[..n]);
    forall i, j | 0 <= i < j < |ps|
      ensures ps[i] != ps[j]
    {
      assert ps[i] == cs[i] && ps[j] == cs[j];
    }
  }

  /** With distinct streams, the last subscriber's stream is not among the earlier ones. */
  lemma LastNotInPrefix(rl: seq<MyPlaceRes>)
    requires Distinct(Conns(rl)) && rl != []
    ensures rl[|rl| - 1].res !in Conns(rl[..|rl| - 1])
  {
    var n := |rl| - 1;
    var cs, ps := Conns(rl), Conns(rl[..n]);
    forall i | 0 <= i < |ps|
      ensures ps[i] != rl[n].res
    {
      assert ps[i] == cs[i] && cs[n] == rl[n].res;
    }
  }

  /** Appending a record appends its stream. */
  lemma ConnsSnoc(rl: seq<MyPlaceRes>, r: MyPlaceRes)
    ensures Conns(rl + [r]) == Conns(rl) + [r.res]
  {
  }

  /** The same for the "free places" records. */
  lemma FreeConnsSnoc(fl: seq<FreePlaceRes>, r: FreePlaceRes)
    ensures FreeConns(fl + [r]) == FreeConns(fl) + [r.res]
  {
  }

  /** Appending a stream not yet present keeps the streams distinct. */
  lemma DistinctSnoc(cs: seq<Conn>, c: Conn)
    requires Distinct(cs) && c !in cs
    ensures Distinct(cs + [c])
  {
  }

  /** Removing one record removes that record's stream from the streams. */
  lemma ConnsRemoveAt(rl: seq<MyPlaceRes>, k: nat)
    requires k < |rl|
    ensures Conns(rl[..k] + rl[k + 1..]) == Conns(rl)[..k] + Conns(rl)[k + 1..]
  {
  }

  /** The same for the "free places" records. */
  lemma FreeConnsRemoveAt(fl: seq<FreePlaceRes>, k: nat)
    requires k < |fl|
    ensures FreeConns(fl[..k] + fl[k + 1..]) == FreeConns(fl)[..k] + FreeConns(fl)[k + 1..]
  {
  }

  /** Removing one stream keeps the others distinct and adds none. */
  lemma DistinctRemoveAt(cs: seq<Conn>, k: nat)
    requires Distinct(cs) && k < |cs|
    ensures Distinct(cs[..k] + cs[k + 1..])
    ensures forall c :: c in cs[..k] + cs[k + 1..] ==> c in cs
  {
    var rs := cs[..k] + cs[k + 1..];
    forall i, j | 0 <= i < j < |rs|
      ensures rs[i] != rs[j]
    {
      var i', j' := if i < k then i else i + 1, if j < k then j else j + 1;
      assert rs[i] == cs[i'] && rs[j] == cs[j'] && i' < j';
    }
  }

  /** Closing a stream that has no record removes the LAST record:
      `findIndex` yields -1 and `splice(-1, 1)` drops the final element. */
  lemma CloseUnknownRemovesLast<R>(rl: seq<R>, cs: seq<Conn>, c: Conn)
    requires |cs| == |rl| && c !in cs
    ensures rl != [] ==> SpliceOne(rl, FindIndex(cs, c)) == rl[..|rl| - 1]
    ensures rl == [] ==> SpliceOne(rl, FindIndex(cs, c)) == []
  {
    if rl != [] {
      assert rl[|rl|..] == [];
    }
  }

  /* ---------------------------------------------------------------------
     Broadcasting a change
     --------------------------------------------------------------------- */

  /** `placeList.indexOf(id)`: the first position of `id`, or -1. */
  function IndexOf(s: seq<int>, x: int): (k: int)
    ensures -1 <= k < |s|
    ensures k >= 0 ==> s[k] == x && x !in s[..k]
    ensures k == -1 <==> x !in s
  {
    if s == [] then -1
    else if s[0] == x then 0
    else
      var k := IndexOf(s[1..], x);
      if k == -1 then -1 else k + 1
  }

  /** The argument of `changePlace` (one id) or of `changeManyPlace` (a list). */
  datatype Change = One(placeId: int) | Many(placeIds: seq<int>)

  /** A subscriber is concerned by a change when its attach-time snapshot
      holds the id, or one of the ids. */
  predicate Concerns(r: MyPlaceRes, ch: Change) {
    match ch
    case One(id) => id in r.placeList
    case Many(ids) => exists k :: 0 <= k < |ids| && ids[k] in r.placeList
  }

  /** The frame one subscriber gets: a fresh owner-place list when concerned,
      nothing when not, and nothing when its query rejects. */
  function MyPlacesWrite(r: MyPlaceRes, ch: Change, db: PlaceDb): seq<Sent> {
    if Concerns(r, ch) && !db.userPlaces(r.username).Throws? then
      [Sent(r.res, MyPlacesData(Payload(db.userPlaces(r.username))))]
    else []
  }

  function MyPlacesQuery(r: MyPlaceRes, ch: Change): seq<Query> {
    if Concerns(r, ch) then [UserPlacesQuery(r.username)] else []
  }

  /** The writes to "my places" subscribers, list order. */
  function MyPlacesWrites(rl: seq<MyPlaceRes>, ch: Change, db: PlaceDb): seq<Sent> {
    if rl == [] then [] else MyPlacesWrites(rl[..|rl| - 1], ch, db) + MyPlacesWrite(rl[|rl| - 1], ch, db)
  }

  function MyPlacesQueries(rl: seq<MyPlaceRes>, ch: Change): seq<Query> {
    if rl == [] then [] else MyPlacesQueries(rl[..|rl| - 1], ch) + MyPlacesQuery(rl[|rl| - 1], ch)
  }

  /** One more subscriber adds its own writes and queries at the end. */
  lemma MyPlacesPrefixStep(rl: seq<MyPlaceRes>, ch: Change, db: PlaceDb, i: nat)
    requires i < |rl|
    ensures MyPlacesWrites(rl[..i + 1], ch, db) == MyPlacesWrites(rl[..i], ch, db) + MyPlacesWrite(rl[i], ch, db)
    ensures MyPlacesQueries(rl[..i + 1], ch) == MyPlacesQueries(rl[..i], ch) + MyPlacesQuery(rl[i], ch)
  {
    assert rl[..i + 1][..i] == rl[..i];
  }

  /** The writes of `massSendFreePlace` given the free list it read. */
  function FreeFanOut(fl: seq<FreePlaceRes>, ps: seq<FreePlace>): seq<Sent> {
    if fl == [] then []
    else FreeFanOut(fl[..|fl| - 1], ps) + [Sent(fl[|fl| - 1].res, FreePlacesData(VisibleFreePlaces(ps, fl[|fl| - 1].username)))]
  }

  /** `massSendFreePlace`: nothing without subscribers; otherwise one query and,
      when it yields rows, each subscriber's view of them (a `null` answer
      fails in the filter and a rejection is caught: no writes). */
  function MassSendWrites(fl: seq<FreePlaceRes>, reply: Reply<FreePlace>): seq<Sent> {
    if fl != [] && reply.Rows? then FreeFanOut(fl, reply.rows) else []
  }

  function MassSendQueries(fl: seq<FreePlaceRes>): (qs: seq<Query>)
    ensures |qs| <= 1
    ensures qs != [] <==> fl != []
  {
    if fl == [] then [] else [FreePlacesQuery]
  }

  /** The free list is queried only for a broadcast with free subscribers, and
      then once; a "my places" query is made per concerned subscriber. */
  lemma {:induction false} MyPlacesQueriesCount(rl: seq<MyPlaceRes>, ch: Change)
    ensures FreePlacesQuery !in MyPlacesQueries(rl, ch)
    ensures forall q :: q in MyPlacesQueries(rl, ch) ==> exists r :: r in rl && Concerns(r, ch) && q == UserPlacesQuery(r.username)
  {
    if rl != [] {
      MyPlacesQueriesCount(rl[..|rl| - 1], ch);
      forall q | q in MyPlacesQueries(rl, ch)
        ensures exists r :: r in rl && Concerns(r, ch) && q == UserPlacesQuery(r.username)
      {
        if q in MyPlacesQueries(rl[..|rl| - 1], ch) {
          var r :| r in rl[..|rl| - 1] && Concerns(r, ch) && q == UserPlacesQuery(r.username);
          assert r in rl;
        } else {
          assert rl[|rl| - 1] in rl;
        }
      }
    }
  }

  /** A stream that is not subscribed gets nothing from a broadcast. */
  lemma {:induction false} MyPlacesWritesOther(rl: seq<MyPlaceRes>, ch: Change, db: PlaceDb, c: Conn)
    requires c !in Conns(rl)
    ensures FramesOf(MyPlacesWrites(rl, ch, db), c) == []
  {
    if rl != [] {
      var init := rl[..|rl| - 1];
      assert Conns(init) == Conns(rl)[..|rl| - 1];
      MyPlacesWritesOther(init, ch, db, c);
      FramesOfAppend(MyPlacesWrites(init, ch, db), MyPlacesWrite(rl[|rl| - 1], ch, db), c);
      assert rl[|rl| - 1].res == Conns(rl)[|rl| - 1];
      if MyPlacesWrite(rl[|rl| - 1], ch, db) != [] {
        FramesOfOther([], MyPlacesWrite(rl[|rl| - 1], ch, db)[0], c);
      }
    }
  }

  /** Each "my places" subscriber (streams distinct) receives exactly one fresh
      list when the change concerns it and its query succeeds, and nothing
      otherwise: never two frames for one change. */
  lemma {:induction false} MyPlacesWritesAt(rl: seq<MyPlaceRes>, ch: Change, db: PlaceDb, k: nat)
    requires Distinct(Conns(rl)) && k < |rl|
    ensures FramesOf(MyPlacesWrites(rl, ch, db), rl[k].res) ==
              if Concerns(rl[k], ch) && !db.userPlaces(rl[k].username).Throws? then
                [MyPlacesData(Payload(db.userPlaces(rl[k].username)))]
              else []
    decreases |rl|
  {
    var n := |rl| - 1;
    var init := rl[..n];
    var c := rl[k].res;
    var w := MyPlacesWrite(rl[n], ch, db);
    assert MyPlacesWrites(rl, ch, db) == MyPlacesWrites(init, ch, db) + w;
    FramesOfAppend(MyPlacesWrites(init, ch, db), w, c);
    if k == n {
      LastNotInPrefix(rl);
      MyPlacesWritesOther(init, ch, db, c);
      if w != [] {
        FramesOfSingle(w[0], c);
      }
    } else {
      DistinctPrefix(rl, n);
      assert init[k] == rl[k];
      MyPlacesWritesAt(init, ch, db, k);
      if w != [] {
        assert Conns(rl)[n] != Conns(rl)[k];
        FramesOfSingle(w[0], c);
      }
    }
  }

  /** A stream that is not a free-places subscriber gets nothing from the free fan-out. */
  lemma {:induction false} FreeFanOutOther(fl: seq<FreePlaceRes>, ps: seq<FreePlace>, c: Conn)
    requires c !in FreeConns(fl)
    ensures FramesOf(FreeFanOut(fl, ps), c) == []
  {
    if fl != [] {
      var n := |fl| - 1;
      assert FreeConns(fl[..n]) == FreeConns(fl)[..n];
      assert fl[n].res == FreeConns(fl)[n];
      FreeFanOutOther(fl[..n], ps, c);
      FramesOfOther(FreeFanOut(fl[..n], ps), Sent(fl[n].res, FreePlacesData(VisibleFreePlaces(ps, fl[n].username))), c);
    }
  }

  /** Each free-places subscriber (streams distinct) receives exactly one
      frame: its own view of the list that was read. */
  lemma {:induction false} FreeFanOutAt(fl: seq<FreePlaceRes>, ps: seq<FreePlace>, k: nat)
    requires Distinct(FreeConns(fl)) && k < |fl|
    ensures FramesOf(FreeFanOut(fl, ps), fl[k].res) == [FreePlacesData(VisibleFreePlaces(ps, fl[k].username))]
    decreases |fl|
  {
    var n := |fl| - 1;
    var init := fl[..n];
    var c := fl[k].res;
    var last := Sent(fl[n].res, FreePlacesData(VisibleFreePlaces(ps, fl[n].username)));
    assert FreeConns(init) == FreeConns(fl)[..n];
    assert FreeFanOut(fl, ps) == FreeFanOut(init, ps) + [last];
    if k == n {
      assert c !in FreeConns(init) by {
        forall i | 0 <= i < n ensures FreeConns(init)[i] != c {
          assert FreeConns(fl)[i] != FreeConns(fl)[n];
        }
      }
      FreeFanOutOther(init, ps, c);
      assert (FreeFanOut(init, ps) + [last])[..|FreeFanOut(init, ps) + [last]| - 1] == FreeFanOut(init, ps);
    } else {
      assert init[k] == fl[k];
      FreeFanOutAt(init, ps, k);
      assert FreeConns(fl)[n] != FreeConns(fl)[k];
      FramesOfOther(FreeFanOut(init, ps), last, c);
    }
  }

  /** `changeManyPlace([id])` concerns the same subscribers as `changePlace(id)`. */
  lemma ManySingletonIsOne(r: MyPlaceRes, id: int)
    ensures Concerns(r, Many([id])) <==> Concerns(r, One(id))
  {
    if Concerns(r, One(id)) {
      assert [id][0] in r.placeList;
    }
  }

  /** `changeManyPlace([])` concerns nobody. */
  lemma ManyEmptyConcernsNobody(r: MyPlaceRes)
    ensures !Concerns(r, Many([]))
  {
  }

  /** A list change concerns a subscriber when either part does. */
  lemma ManyAppend(r: MyPlaceRes, a: seq<int>, b: seq<int>)
    ensures Concerns(r, Many(a + b)) <==> Concerns(r, Many(a)) || Concerns(r, Many(b))
  {
    if Concerns(r, Many(a + b)) {
      var k :| 0 <= k < |a + b| && (a + b)[k] in r.placeList;
      if k < |a| { assert a[k] == (a + b)[k]; } else { assert b[k - |a|] == (a + b)[k]; }
    }
    if Concerns(r, Many(a)) {
      var k :| 0 <= k < |a| && a[k] in r.placeList;
      assert (a + b)[k] == a[k];
    }
    if Concerns(r, Many(b)) {
      var k :| 0 <= k < |b| && b[k] in r.placeList;
      assert (a + b)[|a| + k] == b[k];
    }
  }

  /** A whole broadcast (`changePlace` or `changeManyPlace`), seen from a
      "my places" subscriber: its one fresh list when concerned, else nothing. */
  lemma BroadcastToMyPlaces(rl: seq<MyPlaceRes>, fl: seq<FreePlaceRes>, ch: Change, db: PlaceDb, k: nat)
    requires Distinct(Conns(rl)) && k < |rl| && rl[k].res !in FreeConns(fl)
    ensures FramesOf(MyPlacesWrites(rl, ch, db) + MassSendWrites(fl, db.freePlaces), rl[k].res) ==
              if Concerns(rl[k], ch) && !db.userPlaces(rl[k].username).Throws? then
                [MyPlacesData(Payload(db.userPlaces(rl[k].username)))]
              else []
  {
    FramesOfAppend(MyPlacesWrites(rl, ch, db), MassSendWrites(fl, db.freePlaces), rl[k].res);
    MyPlacesWritesAt(rl, ch, db, k);
    if fl != [] && db.freePlaces.Rows? {
      FreeFanOutOther(fl, db.freePlaces.rows, rl[k].res);
    }
  }

  /** A whole broadcast seen from a free-places subscriber: its view of the
      free list, whatever changed, when the free list could be read. */
  lemma BroadcastToFreePlaces(rl: seq<MyPlaceRes>, fl: seq<FreePlaceRes>, ch: Change, db: PlaceDb, k: nat)
    requires Distinct(FreeConns(fl)) && k < |fl| && fl[k].res !in Conns(rl)
    ensures FramesOf(MyPlacesWrites(rl, ch, db) + MassSendWrites(fl, db.freePlaces), fl[k].res) ==
              if db.freePlaces.Rows? then [FreePlacesData(VisibleFreePlaces(db.freePlaces.rows, fl[k].username))] else []
  {
    FramesOfAppend(MyPlacesWrites(rl, ch, db), MassSendWrites(fl, db.freePlaces), fl[k].res);
    MyPlacesWritesOther(rl, ch, db, fl[k].res);
    if db.freePlaces.Rows? {
      FreeFanOutAt(fl, db.freePlaces.rows, k);
    }
  }

  /** The snapshot taken at attach time decides: a subscriber attached with
      owner places that include `id` gets a fresh list on `changePlace(id)`,
      and one whose places do not include it gets nothing. */
  lemma SnapshotDecides(rl: seq<MyPlaceRes>, reply: Reply<UserPlace>, c: Conn, username: string, id: int, db: PlaceDb)
    requires Distinct(Conns(rl)) && c !in Conns(rl)
    ensures var rl' := rl + [MyPlaceRes(PlaceIds(reply), c, username)];
      FramesOf(MyPlacesWrites(rl', One(id), db), c) ==
        if (reply.Rows? && exists i :: 0 <= i < |reply.rows| && reply.rows[i].id == id) && !db.userPlaces(username).Throws? then
          [MyPlacesData(Payload(db.userPlaces(username)))]
        else []
  {
    var rl' := rl + [MyPlaceRes(PlaceIds(reply), c, username)];
    assert Conns(rl') == Conns(rl) + [c];
    assert Distinct(Conns(rl'));
    PlaceIdsMembers(reply, id);
    MyPlacesWritesAt(rl', One(id), db, |rl|);
  }
}
