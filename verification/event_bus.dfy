/**
 * frontend/core/EventBus.js: a synchronous publish/subscribe hub. Each event name maps to a
 * Set of callbacks, kept here as a duplicate-free sequence in insertion order (the order a
 * JavaScript Set iterates in). Callbacks are opaque values of type `C`; running one is
 * modelled by recording it, and which callbacks throw is a parameter of `Emit`.
 */
module Events {
  import opened Seqs

  type EventName = string

  /** The callbacks registered for `e`; an event with no entry has none. */
  function Get<C>(m: map<EventName, seq<C>>, e: EventName): (r: seq<C>)
    ensures e !in m ==> r == []
    ensures e in m ==> r == m[e]
  {
    if e in m then m[e] else []
  }

  /** Every entry is a Set: no callback twice. */
  ghost predicate SetValued<C>(m: map<EventName, seq<C>>) {
    forall e | e in m :: NoDup(m[e])
  }

  /** on / once: create the entry if missing, then add the callback to its Set. */
  function Subscribed<C(==,!new)>(m: map<EventName, seq<C>>, e: EventName, c: C)
    : (r: map<EventName, seq<C>>)
    ensures r.Keys == m.Keys + {e}
    ensures forall x | x in Get(r, e) :: x == c || x in Get(m, e)
    ensures c in Get(r, e)
    ensures forall e2 | e2 in m && e2 != e :: r[e2] == m[e2]
  {
    m[e := PushNew(Get(m, e), c)]
  }

  /** off: delete the callback from the event's Set when the entry exists. */
  function Unsubscribed<C(==,!new)>(m: map<EventName, seq<C>>, e: EventName, c: C)
    : (r: map<EventName, seq<C>>)
    ensures r.Keys == m.Keys
    ensures c !in Get(r, e)
    ensures forall x | x in Get(r, e) :: x in Get(m, e)
    ensures forall e2 | e2 in m && e2 != e :: r[e2] == m[e2]
  {
    if e in m then m[e := Without(m[e], c)] else m
  }

  /** The callbacks of `cs` that are in `throwing`, in the order they ran. */
  function Throwers<C(==)>(cs: seq<C>, throwing: set<C>): (r: seq<C>)
    ensures forall x | x in r :: x in cs && x in throwing
    ensures forall x | x in cs && x in throwing :: x in r
  {
    if cs == [] then []
    else
      var last := cs[|cs| - 1];
      Throwers(cs[..|cs| - 1], throwing) + (if last in throwing then [last] else [])
  }

  /** Reporting keeps the running order: the failures of a split list are those of each half. */
  lemma {:induction false} ThrowersAppend<C>(a: seq<C>, b: seq<C>, throwing: set<C>)
    ensures Throwers(a + b, throwing) == Throwers(a, throwing) + Throwers(b, throwing)
    decreases |b|
  {
    if b == [] {
      assert a + b == a;
    } else {
      var init, last := b[..|b| - 1], b[|b| - 1];
      ThrowersAppend(a, init, throwing);
      assert (a + b)[..|a + b| - 1] == a + init && (a + b)[|a + b| - 1] == last;
    }
  }

  lemma SubscribedKeepsSets<C(!new)>(m: map<EventName, seq<C>>, e: EventName, c: C)
    requires SetValued(m)
    ensures SetValued(Subscribed(m, e, c))
  {
    PushNewKeepsNoDup(Get(m, e), c);
  }

  lemma UnsubscribedKeepsSets<C(!new)>(m: map<EventName, seq<C>>, e: EventName, c: C)
    requires SetValued(m)
    ensures SetValued(Unsubscribed(m, e, c))
  {
    if e in m {
      WithoutKeepsNoDup(m[e], c);
    }
  }

  /** Registering the same callback twice counts once. */
  lemma SubscribeTwice<C(!new)>(m: map<EventName, seq<C>>, e: EventName, c: C)
    ensures Subscribed(Subscribed(m, e, c), e, c) == Subscribed(m, e, c)
    ensures |Get(Subscribed(m, e, c), e)| == |Get(m, e)| + (if c in Get(m, e) then 0 else 1)
  {
  }

  /** off for a callback that is not registered changes nothing. */
  lemma UnsubscribeAbsent<C(!new)>(m: map<EventName, seq<C>>, e: EventName, c: C)
    requires c !in Get(m, e)
    ensures Unsubscribed(m, e, c) == m
  {
  }

  /** The function on returns undoes the registration when `c` was new. */
  lemma UnsubscribeUndoesSubscribe<C(!new)>(m: map<EventName, seq<C>>, e: EventName, c: C)
    requires e in m && c !in m[e]
    ensures Unsubscribed(Subscribed(m, e, c), e, c) == m
  {
    WithoutOfNew(m[e], c);
  }

  /** Filtering out an element that is absent after appending it gives back the original. */
  lemma {:induction false} WithoutOfNew<C(!new)>(s: seq<C>, c: C)
    requires c !in s
    ensures Without(s + [c], c) == s
  {
    if s != [] {
      assert (s + [c])[1..] == s[1..] + [c];
      WithoutOfNew(s[1..], c);
    } else {
      assert Without([c], c) == Without([], c);
    }
  }

  /** What `on` returns: calling it runs off(event, callback). */
  datatype Subscription<C> = Subscription(event: EventName, callback: C)

  class EventBus<C(==,!new)> {
    var listeners: map<EventName, seq<C>>
    var onceListeners: map<EventName, seq<C>>

    ghost predicate Valid()
      reads this
    {
      SetValued(listeners) && SetValued(onceListeners)
    }

    constructor ()
      ensures listeners == map[] && onceListeners == map[]
      ensures Valid()
    {
      listeners := map[];
      onceListeners := map[];
    }

    method On(event: EventName, callback: C) returns (s: Subscription<C>)
      requires Valid()
      modifies this
      ensures Valid()
      ensures listeners == Subscribed(old(listeners), event, callback)
      ensures onceListeners == old(onceListeners)
      ensures s == Subscription(event, callback)
    {
      SubscribedKeepsSets(listeners, event, callback);
      if event !in listeners {
        listeners := listeners[event := []];
      }
      listeners := listeners[event := PushNew(listeners[event], callback)];
      s := Subscription(event, callback);
    }

    method Off(event: EventName, callback: C)
      requires Valid()
      modifies this
      ensures Valid()
      ensures listeners == Unsubscribed(old(listeners), event, callback)
      ensures onceListeners == old(onceListeners)
    {
      UnsubscribedKeepsSets(listeners, event, callback);
      if event in listeners {
        listeners := listeners[event := Without(listeners[event], callback)];
      }
    }

    /** Calling the function on returned. */
    method Unsubscribe(s: Subscription<C>)
      requires Valid()
      modifies this
      ensures Valid()
      ensures listeners == Unsubscribed(old(listeners), s.event, s.callback)
      ensures onceListeners == old(onceListeners)
    {
      Off(s.event, s.callback);
    }

    method Once(event: EventName, callback: C)
      requires Valid()
      modifies this
      ensures Valid()
      ensures onceListeners == Subscribed(old(onceListeners), event, callback)
      ensures listeners == old(listeners)
    {
      SubscribedKeepsSets(onceListeners, event, callback);
      if event !in onceListeners {
        onceListeners := onceListeners[event := []];
      }
      onceListeners := onceListeners[event := PushNew(onceListeners[event], callback)];
    }

    /**
     * emit: every persistent callback of the event and then every once-callback runs, in
     * registration order; a throwing one is logged in `failed` and the loop goes on. The
     * once-entry is deleted afterwards. Re-entrant calls from inside a callback are not
     * modelled.
     */
    method Emit(event: EventName, throwing: set<C>) returns (invoked: seq<C>, failed: seq<C>)
      requires Valid()
      modifies this
      ensures Valid()
      ensures invoked == Get(old(listeners), event) + Get(old(onceListeners), event)
      ensures failed == Throwers(invoked, throwing)
      ensures listeners == old(listeners)
      ensures onceListeners == old(onceListeners) - {event}
    {
      invoked, failed := [], [];
      var persistent := Get(listeners, event);
      var i := 0;
      while i < |persistent|
        invariant 0 <= i <= |persistent|
        invariant invoked == persistent[..i]
        invariant unchanged(this)
        invariant failed == Throwers(invoked, throwing)
      {
        assert persistent[..i + 1] == persistent[..i] + [persistent[i]];
        invoked, failed := Run(invoked, failed, persistent[i], throwing);
        i := i + 1;
      }
      assert invoked == persistent;
      if event in onceListeners {
        var once := onceListeners[event];
        var j := 0;
        while j < |once|
          invariant 0 <= j <= |once|
          invariant invoked == persistent + once[..j]
          invariant unchanged(this)
          invariant failed == Throwers(invoked, throwing)
        {
          assert once[..j + 1] == once[..j] + [once[j]];
          AppendAssoc(persistent, once[..j], [once[j]]);
          invoked, failed := Run(invoked, failed, once[j], throwing);
          j := j + 1;
        }
        assert invoked == persistent + once;
        onceListeners := onceListeners - {event};
      } else {
        assert onceListeners - {event} == onceListeners;
      }
    }

    /** The try/catch around one callback. */
    static method Run(invoked: seq<C>, failed: seq<C>, c: C, throwing: set<C>)
      returns (invoked': seq<C>, failed': seq<C>)
      requires failed == Throwers(invoked, throwing)
      ensures invoked' == invoked + [c]
      ensures failed' == Throwers(invoked', throwing)
    {
      invoked' := invoked + [c];
      assert invoked'[..|invoked'| - 1] == invoked;
      failed' := if c in throwing then failed + [c] else failed;
    }

    method Clear()
      modifies this
      ensures Valid()
      ensures listeners == map[] && onceListeners == map[]
    {
      listeners := map[];
      onceListeners := map[];
    }

    method ClearEvent(event: EventName)
      requires Valid()
      modifies this
      ensures Valid()
      ensures listeners == old(listeners) - {event}
      ensures onceListeners == old(onceListeners) - {event}
    {
      listeners := listeners - {event};
      onceListeners := onceListeners - {event};
    }

    /** listenerCount: persistent plus once-callbacks. */
    function ListenerCount(event: EventName): (n: nat)
      reads this
      ensures n == |Get(listeners, event)| + |Get(onceListeners, event)|
    {
      (if event in listeners then |listeners[event]| else 0) +
      (if event in onceListeners then |onceListeners[event]| else 0)
    }
  }
}
