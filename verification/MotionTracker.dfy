/**
 * Motion events as they are cached: which ids are remembered, the latest event of each camera, which events count as
 * new, and the bounded caches of thumbnails and stills. Times are compared as ordered values.
 */
module MotionTracker {
  import opened Wrappers

  type Id = string

  const SEEN_LIMIT: nat := 1024
  const THUMBNAIL_LIMIT: nat := 256
  const STILL_LIMIT: nat := 16

  datatype Event = Event(
    id: Id, device: Option<string>, name: string, at: nat, kind: Option<string>, hasMedia: bool,
    thumbnail: Option<string>)

  datatype Motion = Motion(eventId: Id, at: nat, kind: Option<string>, hasMedia: bool)

  // ---------- a bounded map with its insertion order

  datatype Cache<V> = Cache(entries: map<Id, V>, order: seq<Id>)

  ghost predicate Distinct(ids: seq<Id>) {
    forall i, j :: 0 <= i < j < |ids| ==> ids[i] != ids[j]
  }

  /** The queue lists exactly the keys, each once, and never too many. */
  ghost predicate Agrees<V>(c: Cache<V>, limit: nat) {
    && Distinct(c.order) && |c.order| <= limit
    && forall id :: id in c.order <==> id in c.entries
  }

  function Trimmed<V>(c: Cache<V>, limit: nat): Cache<V>
    decreases |c.order|
  {
    if |c.order| <= limit then c else Trimmed(Cache(c.entries - {c.order[0]}, c.order[1..]), limit)
  }

  function Stored<V>(c: Cache<V>, id: Id, value: V, limit: nat): Cache<V> {
    Trimmed(Cache(c.entries[id := value], if id in c.entries then c.order else c.order + [id]), limit)
  }

  lemma StoredWithRoom<V>(c: Cache<V>, id: Id, value: V, limit: nat)
    requires Agrees(c, limit) && limit > 0 && (id in c.entries || |c.order| < limit)
    ensures var s := Stored(c, id, value, limit);
            && Agrees(s, limit) && s.entries == c.entries[id := value]
            && s.order == if id in c.entries then c.order else c.order + [id]
  {
    var s := Cache(c.entries[id := value], if id in c.entries then c.order else c.order + [id]);
    assert Stored(c, id, value, limit) == s;
    hide Stored, Trimmed;
    assert forall x :: x in s.order <==> x in c.order || x == id;
  }

  lemma StoredWhenFull<V>(c: Cache<V>, id: Id, value: V, limit: nat)
    requires Agrees(c, limit) && limit > 0 && id !in c.entries && |c.order| == limit
    ensures var s := Stored(c, id, value, limit);
            && Agrees(s, limit) && s.order == c.order[1..] + [id]
            && s.entries == c.entries[id := value] - {c.order[0]}
  {
    var longer := Cache(c.entries[id := value], c.order + [id]);
    var shorter := Cache(longer.entries - {longer.order[0]}, longer.order[1..]);
    assert |shorter.order| == limit;
    assert Trimmed(longer, limit) == Trimmed(shorter, limit) == shorter;
    hide Stored, Trimmed;
    assert shorter.order == c.order[1..] + [id];
    assert c.order == [c.order[0]] + c.order[1..];
    assert c.order[0] !in c.order[1..];
    assert forall x :: x in shorter.order <==> (x in c.order && x != c.order[0]) || x == id;
  }

  /** Storing keeps the newest `limit` ids by first arrival; what stays keeps its value. */
  lemma StoredAgrees<V>(c: Cache<V>, id: Id, value: V, limit: nat)
    requires Agrees(c, limit) && limit > 0
    ensures var s := Stored(c, id, value, limit);
            && Agrees(s, limit) && id in s.entries && s.entries[id] == value
            && (forall x :: x in s.entries && x != id ==> x in c.entries && s.entries[x] == c.entries[x])
            && s.order == (if id in c.entries then c.order
                           else if |c.order| < limit then c.order + [id] else c.order[1..] + [id])
  {
    if id in c.entries || |c.order| < limit {
      StoredWithRoom(c, id, value, limit);
    } else {
      StoredWhenFull(c, id, value, limit);
      assert c.order[0] in c.order;
    }
    hide Stored;
  }

  // ---------- what a cache holds

  function StoreAll<V>(items: seq<(Id, V)>, limit: nat): Cache<V> {
    if items == [] then Cache(map[], [])
    else
      var (id, value) := items[|items| - 1];
      Stored(StoreAll(items[..|items| - 1], limit), id, value, limit)
  }

  /** The ids that were not in the cache when they were stored. */
  function Arrivals<V>(items: seq<(Id, V)>, limit: nat): seq<Id> {
    if items == [] then []
    else
      var id := items[|items| - 1].0;
      Arrivals(items[..|items| - 1], limit)
      + if id in StoreAll(items[..|items| - 1], limit).entries then [] else [id]
  }

  function Last(ids: seq<Id>, n: nat): seq<Id> {
    if |ids| <= n then ids else ids[|ids| - n..]
  }

  lemma LastAfterAppend(ids: seq<Id>, id: Id, n: nat)
    requires n > 0
    ensures Last(ids + [id], n) == (if |Last(ids, n)| < n then Last(ids, n) else Last(ids, n)[1..]) + [id]
  {
  }

  /** A cache holds the last `limit` arrivals, each with the value stored last. */
  lemma {:induction false} HoldsLastArrivals<V>(items: seq<(Id, V)>, limit: nat)
    requires limit > 0
    ensures var c, arrivals := StoreAll(items, limit), Arrivals(items, limit);
            && Agrees(c, limit) && c.order == Last(arrivals, limit)
            && forall id :: id in c.entries ==> LatestValue(items, id, c.entries[id])
    decreases |items|
  {
    if items != [] {
      var n := |items| - 1;
      HoldsLastArrivals(items[..n], limit);
      HoldsOneMore(items, limit);
    }
  }

  lemma HoldsOneMore<V>(items: seq<(Id, V)>, limit: nat)
    requires limit > 0 && items != []
    requires var init := items[..|items| - 1];
             var c := StoreAll(init, limit);
             && Agrees(c, limit) && c.order == Last(Arrivals(init, limit), limit)
             && forall id :: id in c.entries ==> LatestValue(init, id, c.entries[id])
    ensures var c := StoreAll(items, limit);
            && Agrees(c, limit) && c.order == Last(Arrivals(items, limit), limit)
            && forall id :: id in c.entries ==> LatestValue(items, id, c.entries[id])
  {
    hide StoreAll, Stored, Arrivals, Agrees, Last, LatestValue;
    var init, id, value := items[..|items| - 1], items[|items| - 1].0, items[|items| - 1].1;
    var before, arrivals := StoreAll(init, limit), Arrivals(init, limit);
    StoredAgrees(before, id, value, limit);
    ArrivalsOneMore(items, limit);
    StoreOneMore(items, limit);
    LastAfterAppend(arrivals, id, limit);
    assert arrivals + [] == arrivals;
    AgreesMeans(before, limit);
    forall x | x in StoreAll(items, limit).entries
      ensures LatestValue(items, x, StoreAll(items, limit).entries[x])
    {
      LatestOneMore(items, x, if x == id then value else before.entries[x]);
    }
  }

  lemma AgreesMeans<V>(c: Cache<V>, limit: nat)
    requires Agrees(c, limit)
    ensures |c.order| <= limit
  {
  }

  lemma LatestOneMore<V>(items: seq<(Id, V)>, id: Id, value: V)
    requires items != []
    requires if items[|items| - 1].0 == id then items[|items| - 1].1 == value
             else LatestValue(items[..|items| - 1], id, value)
    ensures LatestValue(items, id, value)
  {
    var n := |items| - 1;
    if items[n].0 == id {
      assert items[n] == (id, value);
    } else {
      var init := items[..n];
      var i :| 0 <= i < n && init[i] == (id, value) && forall j :: i < j < n ==> init[j].0 != id;
      assert items[i] == (id, value) && forall j :: i < j < n ==> items[j] == init[j];
    }
  }

  ghost predicate LatestValue<V>(items: seq<(Id, V)>, id: Id, value: V) {
    exists i :: 0 <= i < |items| && items[i] == (id, value) && forall j :: i < j < |items| ==> items[j].0 != id
  }

  lemma ArrivalsOneMore<V>(items: seq<(Id, V)>, limit: nat)
    requires items != []
    ensures var n := |items| - 1;
            Arrivals(items, limit)
            == Arrivals(items[..n], limit)
               + if items[n].0 in StoreAll(items[..n], limit).entries then [] else [items[n].0]
  {
  }

  lemma StoreOneMore<V>(items: seq<(Id, V)>, limit: nat)
    requires items != []
    ensures var n := |items| - 1;
            StoreAll(items, limit) == Stored(StoreAll(items[..n], limit), items[n].0, items[n].1, limit)
  {
  }

  // ---------- absorbing events

  datatype Tracker = Tracker(
    seen: Cache<()>, warmed: bool, cameras: map<string, Motion>, thumbnails: Cache<string>)

  const EMPTY: Tracker := Tracker(Cache(map[], []), false, map[], Cache(map[], []))

  ghost predicate Valid(t: Tracker) {
    Agrees(t.seen, SEEN_LIMIT) && Agrees(t.thumbnails, THUMBNAIL_LIMIT)
  }

  function CameraKey(e: Event): string {
    if e.device.Some? then e.device.value else e.name
  }

  function WithThumbnail(t: Tracker, e: Event): Tracker {
    if e.thumbnail.None? then t
    else t.(thumbnails := Stored(t.thumbnails, e.id, e.thumbnail.value, THUMBNAIL_LIMIT))
  }

  predicate Newer(t: Tracker, e: Event) {
    CameraKey(e) !in t.cameras || t.cameras[CameraKey(e)].at < e.at
  }

  function AbsorbOne(t0: Tracker, e: Event): Tracker {
    var t := WithThumbnail(t0, e);
    if e.id in t.seen.entries then t
    else
      var remembered := t.(seen := Stored(t.seen, e.id, (), SEEN_LIMIT));
      if Newer(t, e)
      then remembered.(cameras := t.cameras[CameraKey(e) := Motion(e.id, e.at, e.kind, e.hasMedia)])
      else remembered
  }

  function AbsorbAll(t: Tracker, events: seq<Event>): Tracker {
    if events == [] then t else AbsorbOne(AbsorbAll(t, events[..|events| - 1]), events[|events| - 1])
  }

  /** Events whose id was not among the remembered ones when their turn came. */
  function Unseen(t: Tracker, events: seq<Event>): seq<Event> {
    if events == [] then []
    else
      var last := events[|events| - 1];
      Unseen(t, events[..|events| - 1])
      + if last.id in AbsorbAll(t, events[..|events| - 1]).seen.entries then [] else [last]
  }

  /** One poll: the events reported as new are those unseen, once a first poll has been absorbed. */
  function Absorb(t: Tracker, events: seq<Event>): (Tracker, seq<Event>) {
    (AbsorbAll(t, events).(warmed := true), if t.warmed then Unseen(t, events) else [])
  }

  /** What a poller can observe: the latest motions, and which events have a thumbnail. */
  predicate SameView(a: Tracker, b: Tracker) {
    a.cameras == b.cameras && a.thumbnails.entries.Keys == b.thumbnails.entries.Keys
  }

  predicate ViewChanges(t: Tracker, e: Event) {
    || (e.thumbnail.Some? && e.id !in t.thumbnails.entries)
    || (e.id !in t.seen.entries && Newer(t, e))
  }

  /** Some event changes the view when its turn comes. */
  predicate SomethingChanges(t: Tracker, events: seq<Event>) {
    exists i :: 0 <= i < |events| && ViewChanges(AbsorbAll(t, events[..i]), events[i])
  }

  lemma NothingChanges(t: Tracker)
    ensures !SomethingChanges(t, [])
  {
  }

  lemma ChangesOneMore(t: Tracker, events: seq<Event>)
    requires events != []
    ensures var n := |events| - 1;
            SomethingChanges(t, events)
            == (SomethingChanges(t, events[..n]) || ViewChanges(AbsorbAll(t, events[..n]), events[n]))
  {
    hide ViewChanges, AbsorbAll;
    var n := |events| - 1;
    assert forall i :: 0 <= i < n ==> events[..n][..i] == events[..i];
    if SomethingChanges(t, events[..n]) {
      var i :| 0 <= i < n && ViewChanges(AbsorbAll(t, events[..n][..i]), events[..n][i]);
      assert ViewChanges(AbsorbAll(t, events[..i]), events[i]);
    }
    if SomethingChanges(t, events) {
      var i :| 0 <= i < |events| && ViewChanges(AbsorbAll(t, events[..i]), events[i]);
      assert i < n ==> ViewChanges(AbsorbAll(t, events[..n][..i]), events[..n][i]);
    }
  }

  lemma ThumbnailKeepsValid(t: Tracker, e: Event)
    requires Valid(t)
    ensures var s := WithThumbnail(t, e);
            && Valid(s) && s.seen == t.seen && s.cameras == t.cameras && s.warmed == t.warmed
            && (e.thumbnail.None? || e.id in t.thumbnails.entries ==>
                  s.thumbnails.entries.Keys == t.thumbnails.entries.Keys)
  {
    if e.thumbnail.Some? {
      var s := Stored(t.thumbnails, e.id, e.thumbnail.value, THUMBNAIL_LIMIT);
      StoredAgrees(t.thumbnails, e.id, e.thumbnail.value, THUMBNAIL_LIMIT);
      hide Stored;
      if e.id in t.thumbnails.entries {
        assert forall x :: x in s.entries <==> x in s.order;
        assert forall x :: x in t.thumbnails.entries <==> x in t.thumbnails.order;
      }
    }
  }

  lemma OneAbsorbedKeepsValid(t: Tracker, e: Event)
    requires Valid(t)
    ensures Valid(AbsorbOne(t, e)) && e.id in AbsorbOne(t, e).seen.entries
    ensures AbsorbOne(t, e).seen.order
            == if e.id in t.seen.entries then t.seen.order
               else (if |t.seen.order| < SEEN_LIMIT then t.seen.order else t.seen.order[1..]) + [e.id]
    ensures !ViewChanges(t, e) ==> SameView(AbsorbOne(t, e), t)
  {
    ThumbnailKeepsValid(t, e);
    StoredAgrees(t.seen, e.id, (), SEEN_LIMIT);
    hide Agrees, Stored, WithThumbnail;
  }

  lemma {:induction false} AbsorbKeepsValid(t: Tracker, events: seq<Event>)
    requires Valid(t)
    ensures Valid(AbsorbAll(t, events))
    decreases |events|
  {
    hide Valid, AbsorbOne;
    if events != [] {
      AbsorbKeepsValid(t, events[..|events| - 1]);
      OneAbsorbedKeepsValid(AbsorbAll(t, events[..|events| - 1]), events[|events| - 1]);
    }
  }

  // ---------- which thumbnails are kept

  /** The thumbnails that came with events, in order. */
  function Published(events: seq<Event>): seq<(Id, string)> {
    if events == [] then []
    else
      var last := events[|events| - 1];
      Published(events[..|events| - 1]) + if last.thumbnail.Some? then [(last.id, last.thumbnail.value)] else []
  }

  lemma {:induction false} ThumbnailsAreStored(events: seq<Event>)
    ensures AbsorbAll(EMPTY, events).thumbnails == StoreAll(Published(events), THUMBNAIL_LIMIT)
    decreases |events|
  {
    hide Stored, StoreAll, AbsorbOne;
    if events == [] {
      NothingStored();
    } else {
      var init, last := events[..|events| - 1], events[|events| - 1];
      ThumbnailsAreStored(init);
      ThumbnailAfterOne(AbsorbAll(EMPTY, init), last);
      if last.thumbnail.Some? {
        var more := Published(init) + [(last.id, last.thumbnail.value)];
        assert more[..|more| - 1] == Published(init) && Published(events) == more;
        StoreOneMore(more, THUMBNAIL_LIMIT);
      } else {
        assert Published(events) == Published(init) + [] == Published(init);
      }
    }
  }

  lemma NothingStored()
    ensures StoreAll<string>([], THUMBNAIL_LIMIT) == EMPTY.thumbnails
  {
  }

  lemma ThumbnailAfterOne(t: Tracker, e: Event)
    ensures AbsorbOne(t, e).thumbnails
         == if e.thumbnail.None? then t.thumbnails
            else Stored(t.thumbnails, e.id, e.thumbnail.value, THUMBNAIL_LIMIT)
  {
    hide Stored;
  }

  /** Kept are the thumbnails of the last 256 ids to get one, each the last one published. */
  lemma LastThumbnailsAreKept(events: seq<Event>)
    ensures var kept, published := AbsorbAll(EMPTY, events).thumbnails, Published(events);
            var arrivals := Arrivals(published, THUMBNAIL_LIMIT);
            && Agrees(kept, 256) && kept.order == Last(arrivals, 256)
            && forall id :: id in kept.entries ==> LatestValue(published, id, kept.entries[id])
  {
    hide Published, StoreAll, Arrivals, Agrees, LatestValue;
    ThumbnailsAreStored(events);
    HoldsLastArrivals(Published(events), THUMBNAIL_LIMIT);
  }

  // ---------- how long an id is remembered

  function Ids(events: seq<Event>): seq<Id> {
    seq(|events|, i requires 0 <= i < |events| => events[i].id)
  }

  lemma IdsAfterAppend(events: seq<Event>, e: Event)
    ensures Ids(events + [e]) == Ids(events) + [e.id]
  {
  }

  /** The remembered ids are the last 1024 that were taken as new. */
  lemma {:induction false} RemembersLastNewOnes(events: seq<Event>)
    ensures Valid(AbsorbAll(EMPTY, events))
    ensures AbsorbAll(EMPTY, events).seen.order == Last(Ids(Unseen(EMPTY, events)), 1024)
    decreases |events|
  {
    if events != [] {
      var init, last := events[..|events| - 1], events[|events| - 1];
      RemembersLastNewOnes(init);
      var t := AbsorbAll(EMPTY, init);
      OneAbsorbedKeepsValid(t, last);
      var news := Unseen(EMPTY, init);
      assert Unseen(EMPTY, events) == news + if last.id in t.seen.entries then [] else [last];
      assert AbsorbAll(EMPTY, events) == AbsorbOne(t, last);
      LastAfterAppend(Ids(news), last.id, SEEN_LIMIT);
      IdsAfterAppend(news, last);
      hide *;
      assert news + [] == news;
    }
  }

  lemma AmongLast(ids: seq<Id>, n: nat, i: nat)
    requires i < |ids| <= i + n
    ensures ids[i] in Last(ids, n)
  {
    assert Last(ids, n)[if |ids| <= n then i else i - (|ids| - n)] == ids[i];
  }

  /** An id taken as new again was followed by at least 1024 other new ones in between. */
  lemma {:induction false} NewAgainOnlyAfterMany(events: seq<Event>, i: nat, j: nat)
    requires i < j < |Unseen(EMPTY, events)| && Unseen(EMPTY, events)[i].id == Unseen(EMPTY, events)[j].id
    ensures j - i > 1024
    decreases |events|
  {
    var init, last := events[..|events| - 1], events[|events| - 1];
    var news := Unseen(EMPTY, init);
    if j < |news| {
      NewAgainOnlyAfterMany(init, i, j);
    } else {
      RemembersLastNewOnes(init);
      var t := AbsorbAll(EMPTY, init);
      assert last.id !in t.seen.order && Ids(news)[i] == last.id;
      if |news| <= i + SEEN_LIMIT {
        AmongLast(Ids(news), SEEN_LIMIT, i);
      }
    }
  }

  // ---------- the latest motion of each camera

  /** Two events with one id are from one camera and one time. */
  ghost predicate IdsFixEvents(events: seq<Event>) {
    forall e, f :: e in events && f in events && e.id == f.id ==> CameraKey(e) == CameraKey(f) && e.at == f.at
  }

  ghost predicate LatestOf(cameras: map<string, Motion>, events: seq<Event>) {
    && (forall e :: e in events ==> CameraKey(e) in cameras && e.at <= cameras[CameraKey(e)].at)
    && (forall key :: key in cameras ==>
          exists e :: e in events && CameraKey(e) == key
                      && cameras[key] == Motion(e.id, e.at, e.kind, e.hasMedia))
  }

  /** If ids identify events, every camera shows its latest event ever absorbed, however often events repeat. */
  lemma {:induction false} CamerasShowTheLatest(events: seq<Event>)
    requires IdsFixEvents(events)
    ensures LatestOf(AbsorbAll(EMPTY, events).cameras, events)
    ensures forall id :: id in AbsorbAll(EMPTY, events).seen.entries ==> exists e :: e in events && e.id == id
    decreases |events|
  {
    if events != [] {
      var init, last := events[..|events| - 1], events[|events| - 1];
      assert events == init + [last];
      CamerasShowTheLatest(init);
      RemembersLastNewOnes(init);
      var t := AbsorbAll(EMPTY, init);
      LatestAfterOne(t, init, last);
      SeenAfterOne(t, init, last);
    }
  }

  /**
   * The same in terms of the events alone: under the name `key` the latest of those events is shown that carry it as
   * their device, or carry no device and have it as their name, of equally late ones the first; and nothing is shown if
   * there are none.
   */
  lemma DeviceOrNameIsShown(events: seq<Event>, key: string)
    requires forall e, f :: e in events && f in events && e.id == f.id ==>
               e.device == f.device && e.name == f.name && e.at == f.at
    ensures var cameras := AbsorbAll(EMPTY, events).cameras;
            && (key in cameras ==>
                  && FirstShown(cameras[key], events, key)
                  && forall e :: e in events && (e.device == Some(key) || (e.device.None? && e.name == key)) ==>
                       e.at <= cameras[key].at)
            && (key !in cameras ==>
                  forall e :: e in events ==> e.device != Some(key) && (e.device.Some? || e.name != key))
  {
    hide AbsorbAll;
    CamerasShowTheLatest(events);
    if key in AbsorbAll(EMPTY, events).cameras {
      FirstOfTheLatest(events, key);
    }
  }

  /** `m` is the event `e` of the camera `key`. */
  predicate Shown(m: Motion, e: Event, key: string) {
    && (e.device == Some(key) || (e.device.None? && e.name == key))
    && m.eventId == e.id && m.at == e.at && m.kind == e.kind && m.hasMedia == e.hasMedia
  }

  /** `e` is an event of the camera `key` at time `at`. */
  predicate Equals(e: Event, key: string, at: nat) {
    (e.device == Some(key) || (e.device.None? && e.name == key)) && e.at == at
  }

  ghost predicate FirstShown(m: Motion, events: seq<Event>, key: string) {
    exists i :: 0 <= i < |events| && Shown(m, events[i], key)
                && forall j :: 0 <= j < i ==> !Equals(events[j], key, events[i].at)
  }

  lemma {:induction false} FirstOfTheLatest(events: seq<Event>, key: string)
    requires IdsFixEvents(events) && key in AbsorbAll(EMPTY, events).cameras
    ensures FirstShown(AbsorbAll(EMPTY, events).cameras[key], events, key)
    decreases |events|
  {
    hide Newer, FirstShown, AbsorbOne, CameraKey, IdsFixEvents, LatestOf;
    var n := |events| - 1;
    var init, last := events[..n], events[n];
    var t := AbsorbAll(EMPTY, init);
    CamerasAfterOne(t, last);
    IdsFixPrefix(events, n);
    CamerasShowTheLatest(init);
    if last.id !in t.seen.entries && Newer(t, last) && CameraKey(last) == key {
      LaterThanAll(t, init, last);
      ShownAsIs(last);
      LastIsShown(Motion(last.id, last.at, last.kind, last.hasMedia), init, last, key);
      assert events == init + [last];
    } else {
      FirstOfTheLatest(init, key);
      StillShown(t.cameras[key], events, key);
    }
  }

  lemma IdsFixPrefix(events: seq<Event>, n: nat)
    requires IdsFixEvents(events) && n <= |events|
    ensures IdsFixEvents(events[..n])
  {
    assert forall e :: e in events[..n] ==> e in events;
  }

  lemma StillShown(m: Motion, events: seq<Event>, key: string)
    requires events != [] && FirstShown(m, events[..|events| - 1], key)
    ensures FirstShown(m, events, key)
  {
    hide Shown, Equals;
    var init := events[..|events| - 1];
    var i :| 0 <= i < |init| && Shown(m, init[i], key) && forall j :: 0 <= j < i ==> !Equals(init[j], key, init[i].at);
    assert events[i] == init[i] && forall j :: 0 <= j < i ==> events[j] == init[j];
  }

  lemma LastIsShown(m: Motion, init: seq<Event>, last: Event, key: string)
    requires Shown(m, last, key) && forall e :: e in init ==> !Equals(e, key, last.at)
    ensures FirstShown(m, init + [last], key)
  {
    hide Shown, Equals;
    var events := init + [last];
    assert events[|init|] == last && forall j :: 0 <= j < |init| ==> events[j] == init[j] && init[j] in init;
  }

  lemma ShownAsIs(e: Event)
    ensures Shown(Motion(e.id, e.at, e.kind, e.hasMedia), e, CameraKey(e))
  {
  }

  lemma LaterThanAll(t: Tracker, events: seq<Event>, last: Event)
    requires LatestOf(t.cameras, events) && Newer(t, last)
    ensures forall e :: e in events ==> !Equals(e, CameraKey(last), last.at)
  {
  }

  /** A camera's entry after one event: the later of the old entry and the event, if the event is not a repeat. */
  lemma CamerasAfterOne(t: Tracker, e: Event)
    ensures var after := AbsorbOne(t, e).cameras;
            after == if e.id !in t.seen.entries && Newer(t, e)
                     then t.cameras[CameraKey(e) := Motion(e.id, e.at, e.kind, e.hasMedia)] else t.cameras
    ensures AbsorbOne(t, e).seen
            == if e.id in t.seen.entries then t.seen else Stored(t.seen, e.id, (), SEEN_LIMIT)
  {
    hide Stored;
  }

  lemma LatestAfterOne(t: Tracker, events: seq<Event>, last: Event)
    requires LatestOf(t.cameras, events) && IdsFixEvents(events + [last])
    requires last.id in t.seen.entries ==> exists e :: e in events && e.id == last.id
    ensures LatestOf(AbsorbOne(t, last).cameras, events + [last])
  {
    var all := events + [last];
    var cameras := AbsorbOne(t, last).cameras;
    assert last in all && forall e :: e in events ==> e in all;
    if last.id in t.seen.entries {
      var e :| e in events && e.id == last.id;
      assert CameraKey(last) == CameraKey(e) && last.at == e.at;
    }
    CamerasAfterOne(t, last);
    hide Stored, AbsorbOne, IdsFixEvents, CameraKey;
    forall e | e in all
      ensures CameraKey(e) in cameras && e.at <= cameras[CameraKey(e)].at
    {
      assert e in events || e == last;
    }
    hide Newer;
    forall key | key in cameras
      ensures exists e :: e in all && CameraKey(e) == key && cameras[key] == Motion(e.id, e.at, e.kind, e.hasMedia)
    {
      LatestWitness(t, events, last, cameras, key);
    }
  }

  lemma SeenAfterOne(t: Tracker, events: seq<Event>, last: Event)
    requires Agrees(t.seen, SEEN_LIMIT) && forall id :: id in t.seen.entries ==> exists e :: e in events && e.id == id
    ensures forall id :: id in AbsorbOne(t, last).seen.entries ==> exists e :: e in events + [last] && e.id == id
  {
    CamerasAfterOne(t, last);
    StoredAgrees(t.seen, last.id, (), SEEN_LIMIT);
    hide Stored, AbsorbOne, Agrees;
    forall id | id in AbsorbOne(t, last).seen.entries
      ensures exists e :: e in events + [last] && e.id == id
    {
      if id in t.seen.entries {
        var e :| e in events && e.id == id;
        assert e in events + [last];
      } else {
        assert last in events + [last];
      }
    }
  }

  lemma LatestWitness(t: Tracker, events: seq<Event>, last: Event, cameras: map<string, Motion>, key: string)
    requires LatestOf(t.cameras, events) && key in cameras
    requires cameras == t.cameras
             || cameras == t.cameras[CameraKey(last) := Motion(last.id, last.at, last.kind, last.hasMedia)]
    ensures exists e :: e in events + [last] && CameraKey(e) == key
                        && cameras[key] == Motion(e.id, e.at, e.kind, e.hasMedia)
  {
    hide CameraKey;
    if key in t.cameras && cameras[key] == t.cameras[key] {
      var e :| e in events && CameraKey(e) == key && t.cameras[key] == Motion(e.id, e.at, e.kind, e.hasMedia);
      assert e in events + [last];
    } else {
      assert last in events + [last];
    }
  }

  /** Without that, an update of a remembered id is lost. */
  lemma LaterTimeOfSeenIdIsLost(e: Event, later: nat)
    requires e.at < later
    ensures var t := AbsorbAll(EMPTY, [e, e.(at := later)]);
            CameraKey(e) in t.cameras && t.cameras[CameraKey(e)].at == e.at
  {
    StoredAgrees(EMPTY.seen, e.id, (), SEEN_LIMIT);
    assert [e, e.(at := later)][..1] == [e] && [e][..0] == [];
    assert AbsorbAll(EMPTY, [e]) == AbsorbOne(EMPTY, e);
    assert e.id in AbsorbOne(EMPTY, e).seen.entries;
  }

  /** Nothing is new before a first poll has been absorbed; afterwards exactly the unseen events are. */
  lemma NewOnlyAfterWarmUp(t: Tracker, first: seq<Event>, second: seq<Event>)
    requires !t.warmed
    ensures Absorb(t, first).1 == [] && Absorb(Absorb(t, first).0, second).1 == Unseen(Absorb(t, first).0, second)
    ensures forall e :: e in Unseen(Absorb(t, first).0, second) ==> e in second
  {
    UnseenAreEvents(Absorb(t, first).0, second);
  }

  lemma {:induction false} UnseenAreEvents(t: Tracker, events: seq<Event>)
    ensures forall e :: e in Unseen(t, events) ==> e in events
    decreases |events|
  {
    if events != [] {
      UnseenAreEvents(t, events[..|events| - 1]);
    }
  }

  // ---------- the caches in place

  class MotionCache {
    var seen: set<Id>
    var order: seq<Id>
    var warmed: bool
    var cameras: map<string, Motion>
    var thumbnails: map<Id, string>
    var thumbnailOrder: seq<Id>
    var stills: map<Id, string>
    var stillOrder: seq<Id>
    var sequence: nat

    ghost function Abs(): Tracker
      reads this
    {
      Tracker(Cache(map id | id in seen :: (), order), warmed, cameras, Cache(thumbnails, thumbnailOrder))
    }

    constructor ()
      ensures Abs() == EMPTY && Cache(stills, stillOrder) == Cache(map[], []) && sequence == 0
    {
      seen, order, warmed, cameras := {}, [], false, map[];
      thumbnails, thumbnailOrder, stills, stillOrder, sequence := map[], [], map[], [], 0;
    }

    method AddThumbnail(id: Id, thumbnail: string) returns (added: bool)
      modifies `thumbnails, `thumbnailOrder
      ensures added == (id !in old(thumbnails))
      ensures Cache(thumbnails, thumbnailOrder)
              == Stored(old(Cache(thumbnails, thumbnailOrder)), id, thumbnail, THUMBNAIL_LIMIT)
    {
      added := id !in thumbnails;
      thumbnails := thumbnails[id := thumbnail];
      if added {
        thumbnailOrder := thumbnailOrder + [id];
      }
      ghost var longer := Cache(thumbnails, thumbnailOrder);
      while |thumbnailOrder| > THUMBNAIL_LIMIT
        invariant Trimmed(Cache(thumbnails, thumbnailOrder), THUMBNAIL_LIMIT) == Trimmed(longer, THUMBNAIL_LIMIT)
        decreases |thumbnailOrder|
      {
        thumbnails := thumbnails - {thumbnailOrder[0]};
        thumbnailOrder := thumbnailOrder[1..];
      }
    }

    method Remember(id: Id) returns (unseen: bool)
      modifies `seen, `order
      ensures unseen == (id !in old(seen))
      ensures Abs().seen == if unseen then Stored(old(Abs()).seen, id, (), SEEN_LIMIT) else old(Abs()).seen
    {
      unseen := id !in seen;
      if !unseen {
        return;
      }
      seen := seen + {id};
      order := order + [id];
      ghost var longer := Abs().seen;
      assert longer.entries == old(Abs()).seen.entries[id := ()];
      while |order| > SEEN_LIMIT
        invariant Trimmed(Abs().seen, SEEN_LIMIT) == Trimmed(longer, SEEN_LIMIT)
        decreases |order|
      {
        ghost var before := Abs().seen;
        seen := seen - {order[0]};
        order := order[1..];
        assert Abs().seen == Cache(before.entries - {before.order[0]}, before.order[1..]);
      }
    }

    /** One event; `unseen` when its id was not remembered, `changed` when a poller would see a difference. */
    method AbsorbEvent(e: Event) returns (unseen: bool, changed: bool)
      modifies this`seen, this`order, this`cameras, this`thumbnails, this`thumbnailOrder
      ensures Abs() == AbsorbOne(old(Abs()), e)
      ensures unseen == (e.id !in old(Abs()).seen.entries) && changed == ViewChanges(old(Abs()), e)
    {
      hide Stored;
      changed := false;
      if e.thumbnail.Some? {
        changed := AddThumbnail(e.id, e.thumbnail.value);
      }
      unseen := Remember(e.id);
      if unseen {
        var key := CameraKey(e);
        if key !in cameras || cameras[key].at < e.at {
          changed := true;
          cameras := cameras[key := Motion(e.id, e.at, e.kind, e.hasMedia)];
        }
      }
    }

    method AbsorbEvents(events: seq<Event>) returns (news: seq<Event>)
      requires Valid(Abs())
      modifies this`seen, this`order, this`cameras, this`thumbnails, this`thumbnailOrder, this`warmed, this`sequence
      ensures (Abs(), news) == Absorb(old(Abs()), events) && Valid(Abs())
      ensures sequence == old(sequence) + if SomethingChanges(old(Abs()), events) then 1 else 0
      ensures sequence == old(sequence) ==> SameView(Abs(), old(Abs()))
    {
      hide Valid, AbsorbOne, ViewChanges, SomethingChanges;
      var wasWarm := warmed;
      ghost var start := Abs();
      news := [];
      var changed := false;
      NothingChanges(start);
      for i := 0 to |events|
        invariant Abs() == AbsorbAll(start, events[..i]) && warmed == wasWarm && Valid(Abs())
        invariant news == if wasWarm then Unseen(start, events[..i]) else []
        invariant !changed ==> SameView(Abs(), start)
        invariant changed == SomethingChanges(start, events[..i])
        invariant sequence == old(sequence)
      {
        assert events[..i + 1][..i] == events[..i];
        ChangesOneMore(start, events[..i + 1]);
        OneAbsorbedKeepsValid(Abs(), events[i]);
        var unseen, visible := AbsorbEvent(events[i]);
        changed := changed || visible;
        if unseen && wasWarm {
          news := news + [events[i]];
        }
      }
      assert events[..|events|] == events;
      warmed := true;
      if changed {
        sequence := sequence + 1;
      }
      WarmKeepsValid(Abs(), AbsorbAll(start, events));
    }

    /** Stores a still; the cache keeps the sixteen newest. */
    method StoreStill(id: Id, jpeg: string)
      requires Agrees(Cache(stills, stillOrder), STILL_LIMIT)
      modifies `stills, `stillOrder, `sequence
      ensures Cache(stills, stillOrder) == Stored(old(Cache(stills, stillOrder)), id, jpeg, STILL_LIMIT)
      ensures Agrees(Cache(stills, stillOrder), STILL_LIMIT) && id in stills && stills[id] == jpeg
      ensures stillOrder == if id in old(stills) then old(stillOrder)
                            else if |old(stillOrder)| < 16 then old(stillOrder) + [id]
                            else old(stillOrder)[1..] + [id]
      ensures sequence == old(sequence) + 1
    {
      StoredAgrees(Cache(stills, stillOrder), id, jpeg, STILL_LIMIT);
      if id !in stills {
        stillOrder := stillOrder + [id];
      }
      stills := stills[id := jpeg];
      ghost var longer := Cache(stills, stillOrder);
      while |stillOrder| > STILL_LIMIT
        invariant Trimmed(Cache(stills, stillOrder), STILL_LIMIT) == Trimmed(longer, STILL_LIMIT)
        invariant sequence == old(sequence)
        decreases |stillOrder|
      {
        stills := stills - {stillOrder[0]};
        stillOrder := stillOrder[1..];
      }
      sequence := sequence + 1;
    }
  }

  lemma WarmKeepsValid(t: Tracker, s: Tracker)
    requires t == s.(warmed := true)
    ensures Valid(s) == Valid(t)
  {
  }
}
