/** The chart's event registry `_eventsDB` (src/oligophony.js:130-180): a
    dictionary from event name to a record of subscribers, a dispatch
    counter, a one-time flag and the last arguments. Subscribers are
    opaque identifiers; a call of a subscriber is recorded as an
    `Invocation`. The registry is generic in the type `A` of the
    arguments. */
module Events {

  type SubscriberId = nat

  datatype EventRecord<A> = EventRecord(
    funcs: seq<SubscriberId>,
    dispatchCount: nat,
    oneTime: bool,
    args: A)

  /** One call of subscriber `subscriber` with `args`. */
  datatype Invocation<A> = Invocation(subscriber: SubscriberId, args: A)

  type Registry<A> = map<string, EventRecord<A>>

  /** A newly registered event: no subscribers, never dispatched, the
      empty arguments `blank`. */
  function NewRecord<A>(oneTime: bool, blank: A): EventRecord<A>
  {
    EventRecord([], 0, oneTime, blank)
  }

  /** `createEvent(name, oneTime)`: registers `name` unless it is already
      registered. */
  function Register<A>(db: Registry<A>, name: string, oneTime: bool, blank: A): (r: Registry<A>)
    ensures name in r && r.Keys == db.Keys + {name}
    ensures forall n :: n in db ==> r[n] == db[n]
    ensures name !in db ==> r[name] == NewRecord(oneTime, blank)
  {
    if name in db then db else db[name := NewRecord(oneTime, blank)]
  }

  /** Registering is idempotent: a second registration, with either flag,
      changes nothing. */
  lemma RegisterIdempotent<A>(db: Registry<A>, name: string, first: bool, second: bool, blank: A)
    ensures Register(Register(db, name, first, blank), name, second, blank)
            == Register(db, name, first, blank)
  {
  }

  /** The registry after `onEvent(name, id)`, with the calls it makes. */
  datatype Subscribed<A> = Subscribed(db: Registry<A>, invoked: seq<Invocation<A>>)

  /** `onEvent(name, id)`: registers `name` as a continuous event when it
      is unknown; then replays the last arguments to `id` at once if the
      event is one-time and has been dispatched, and otherwise appends
      `id` to its subscribers. */
  function Subscribe<A>(db: Registry<A>, name: string, id: SubscriberId, blank: A): (r: Subscribed<A>)
    ensures name in r.db && r.db.Keys == db.Keys + {name}
    ensures forall n :: n in db && n != name ==> r.db[n] == db[n]
  {
    var db1 := Register(db, name, false, blank);
    var e := db1[name];
    if e.oneTime && e.dispatchCount != 0 then Subscribed(db1, [Invocation(id, e.args)])
    else Subscribed(db1[name := e.(funcs := e.funcs + [id])], [])
  }

  /** Subscribing to an unknown name creates a continuous event whose only
      subscriber is `id`, and calls nothing. */
  lemma SubscribeUnknown<A>(db: Registry<A>, name: string, id: SubscriberId, blank: A)
    requires name !in db
    ensures Subscribe(db, name, id, blank) == Subscribed(db[name := EventRecord([id], 0, false, blank)], [])
  {
    var e := NewRecord(false, blank);
    assert e.funcs + [id] == [id];
    assert db[name := e][name := e.(funcs := e.funcs + [id])] == db[name := EventRecord([id], 0, false, blank)];
  }

  /** On a registered event the subscriber is either appended to the end
      of the list, calling nothing, or (one-time and already dispatched)
      called once with the stored arguments and not added. */
  lemma SubscribeKnown<A>(db: Registry<A>, name: string, id: SubscriberId, blank: A)
    requires name in db
    ensures var e := db[name];
            var r := Subscribe(db, name, id, blank);
            if e.oneTime && e.dispatchCount != 0
            then r.db == db && r.invoked == [Invocation(id, e.args)]
            else r.db == db[name := e.(funcs := e.funcs + [id])] && r.invoked == []
  {
  }

  /** Calls `ids` in order, each once, with `args`. */
  function Fanout<A>(ids: seq<SubscriberId>, args: A): (r: seq<Invocation<A>>)
    ensures |r| == |ids|
    ensures forall k :: 0 <= k < |ids| ==> r[k] == Invocation(ids[k], args)
  {
    if ids == [] then [] else [Invocation(ids[0], args)] + Fanout(ids[1..], args)
  }

  /** The registry after `dispatchEvent(name, args)`, with the calls it
      makes and its boolean result. */
  datatype Dispatched<A> = Dispatched(db: Registry<A>, invoked: seq<Invocation<A>>, found: bool)

  /** `dispatchEvent(name, args)`. */
  function Dispatch<A>(db: Registry<A>, name: string, args: A): (r: Dispatched<A>)
    ensures r.found <==> name in db
    ensures r.db.Keys == db.Keys
    ensures |r.invoked| == if name in db then |db[name].funcs| else 0
    ensures name in db ==> r.db[name].args == args
  {
    if name !in db then Dispatched(db, [], false)
    else Dispatched(db[name := db[name].(args := args)], Fanout(db[name].funcs, args), true)
  }

  /** Dispatching an unknown name reports false and changes nothing. */
  lemma DispatchUnknown<A>(db: Registry<A>, name: string, args: A)
    requires name !in db
    ensures Dispatch(db, name, args) == Dispatched(db, [], false)
  {
  }

  /** Dispatching a registered event reports true, stores `args`, calls
      every subscriber once in subscription order with `args`, and leaves
      the subscribers, the flag and the dispatch counter as they were: the
      counter is never incremented. No other event changes. */
  lemma DispatchKnown<A>(db: Registry<A>, name: string, args: A)
    requires name in db
    ensures var r := Dispatch(db, name, args);
            && r.found
            && r.db.Keys == db.Keys
            && r.db[name] == EventRecord(db[name].funcs, db[name].dispatchCount, db[name].oneTime, args)
            && (forall n :: n in db && n != name ==> r.db[n] == db[n])
            && |r.invoked| == |db[name].funcs|
            && (forall k :: 0 <= k < |r.invoked| ==>
                  r.invoked[k].subscriber == db[name].funcs[k] && r.invoked[k].args == args)
  {
  }

  /** No event has ever been counted as dispatched. */
  ghost predicate NeverCounted<A>(db: Registry<A>)
  {
    forall n :: n in db ==> db[n].dispatchCount == 0
  }

  /** Nothing in the registry increments a dispatch counter. */
  lemma CountersStayZero<A>(db: Registry<A>, name: string, oneTime: bool, id: SubscriberId, args: A, blank: A)
    requires NeverCounted(db)
    ensures NeverCounted(Register(db, name, oneTime, blank))
    ensures NeverCounted(Subscribe(db, name, id, blank).db)
    ensures NeverCounted(Dispatch(db, name, args).db)
  {
  }

  /** Hence the replay branch of `onEvent` is unreachable: every
      subscriber is appended and none is called on subscription. */
  lemma ReplayUnreachable<A>(db: Registry<A>, name: string, id: SubscriberId, blank: A)
    requires NeverCounted(db)
    ensures var r := Subscribe(db, name, id, blank);
            var before := Register(db, name, false, blank)[name];
            && r.invoked == []
            && r.db[name].funcs == before.funcs + [id]
  {
  }

  /** A one-time event that has been dispatched with `a` does not replay
      `a` to a later subscriber, contrary to the documentation of
      `createEvent` (src/oligophony.js:134): the subscriber is queued for
      the next dispatch instead. */
  lemma LateOneTimeSubscriberIsQueued<A>(db: Registry<A>, name: string, a: A, id: SubscriberId, blank: A)
    requires NeverCounted(db) && name !in db
    ensures var d1 := Register(db, name, true, blank);
            var d2 := Dispatch(d1, name, a).db;
            var r := Subscribe(d2, name, id, blank);
            && r.invoked == []
            && r.db[name] == EventRecord([id], 0, true, a)
  {
  }
}
