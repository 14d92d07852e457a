/** The simulated login state of the demo: one boolean flag and an ordered list
    of listener callbacks that are told the new flag after every toggle.

    Callbacks are foreign code, so the model treats each one as an opaque
    identity (`CallbackId`) and records every invocation in a ghost log of
    `Notification`s instead of running it. */
module FakeAuth {

  /** The identity of a registered callback (JavaScript reference equality). */
  datatype CallbackId = CallbackId(ref: nat)

  /** One invocation `callback(value)` made while notifying listeners. */
  datatype Notification = Notification(callback: CallbackId, value: bool)

  /** The value returned by `onLoginChange`: the unsubscribe closure captures
      only the callback it was created for. */
  datatype Subscription = Subscription(callback: CallbackId)

  /** The abstract state of the store: the flag and the listener list. */
  datatype Store = Store(loggedIn: bool, listeners: seq<CallbackId>)

  /** The state at module load: logged out, no listeners. */
  const Initial := Store(false, [])

  // ---------------------------------------------------------------------------
  // Notification

  /** The calls `listeners.forEach(fn => fn(v))` makes, in order. */
  function Broadcast(listeners: seq<CallbackId>, v: bool): (r: seq<Notification>)
    ensures |r| == |listeners|
    ensures forall i :: 0 <= i < |r| ==> r[i] == Notification(listeners[i], v)
  {
    if listeners == [] then []
    else [Notification(listeners[0], v)] + Broadcast(listeners[1..], v)
  }

  /** The values a given callback received, in the order it received them. */
  function ReceivedBy(log: seq<Notification>, cb: CallbackId): seq<bool>
  {
    if log == [] then []
    else (if log[0].callback == cb then [log[0].value] else []) + ReceivedBy(log[1..], cb)
  }

  /** How many entries of the listener list are `cb`. */
  function Registrations(listeners: seq<CallbackId>, cb: CallbackId): (k: nat)
    ensures k <= |listeners|
  {
    if listeners == [] then 0
    else (if listeners[0] == cb then 1 else 0) + Registrations(listeners[1..], cb)
  }

  /** A callback is registered exactly when it is in the listener list. */
  lemma {:induction false} RegisteredIffListed(listeners: seq<CallbackId>, cb: CallbackId)
    ensures Registrations(listeners, cb) > 0 <==> cb in listeners
  {
    if listeners != [] {
      RegisteredIffListed(listeners[1..], cb);
      assert listeners == [listeners[0]] + listeners[1..];
    }
  }

  lemma {:induction false} ReceivedByAppend(a: seq<Notification>, b: seq<Notification>, cb: CallbackId)
    ensures ReceivedBy(a + b, cb) == ReceivedBy(a, cb) + ReceivedBy(b, cb)
  {
    if a == [] {
      assert a + b == b;
    } else {
      assert (a + b)[0] == a[0] && (a + b)[1..] == a[1..] + b;
      ReceivedByAppend(a[1..], b, cb);
    }
  }

  /** A callback registered k times is called k times by one broadcast, each
      time with the broadcast value. */
  lemma {:induction false} BroadcastReachesEachRegistration(listeners: seq<CallbackId>, v: bool, cb: CallbackId)
    ensures ReceivedBy(Broadcast(listeners, v), cb) == seq(Registrations(listeners, cb), _ => v)
  {
    if listeners != [] {
      var rest := listeners[1..];
      BroadcastReachesEachRegistration(rest, v, cb);
      assert Broadcast(listeners, v)[1..] == Broadcast(rest, v);
    }
  }

  // ---------------------------------------------------------------------------
  // toggleLogin

  /** The state after `toggleLogin`. */
  function Toggled(s: Store): Store
  {
    s.(loggedIn := !s.loggedIn)
  }

  /** The calls `toggleLogin` makes: every listener, with the new flag. */
  function ToggleNotifications(s: Store): seq<Notification>
  {
    Broadcast(s.listeners, Toggled(s).loggedIn)
  }

  /** A toggle negates the flag, keeps the listener list, and calls each
      listener entry exactly once, in registration order, with the new flag. */
  lemma ToggleNotifiesEveryListenerOnce(s: Store)
    ensures Toggled(s).loggedIn == !s.loggedIn
    ensures Toggled(s).listeners == s.listeners
    ensures |ToggleNotifications(s)| == |s.listeners|
    ensures forall i :: 0 <= i < |s.listeners| ==>
              ToggleNotifications(s)[i].callback == s.listeners[i]
              && ToggleNotifications(s)[i].value == Toggled(s).loggedIn
  {
  }

  /** Two toggles restore the state; the listeners first hear the negated flag
      and then the original one. */
  lemma ToggleTwiceRestores(s: Store, cb: CallbackId)
    ensures Toggled(Toggled(s)) == s
    ensures ReceivedBy(ToggleNotifications(s) + ToggleNotifications(Toggled(s)), cb)
         == seq(Registrations(s.listeners, cb), _ => !s.loggedIn) + seq(Registrations(s.listeners, cb), _ => s.loggedIn)
  {
    ReceivedByAppend(ToggleNotifications(s), ToggleNotifications(Toggled(s)), cb);
    BroadcastReachesEachRegistration(s.listeners, !s.loggedIn, cb);
    BroadcastReachesEachRegistration(s.listeners, s.loggedIn, cb);
  }

  // ---------------------------------------------------------------------------
  // onLoginChange and its unsubscribe closure

  /** The state after `onLoginChange(cb)`: `cb` is pushed at the end. */
  function Subscribed(s: Store, cb: CallbackId): Store
  {
    s.(listeners := s.listeners + [cb])
  }

  /** `listeners.indexOf(cb)`: the first position of `cb`, or -1. */
  function IndexOf(listeners: seq<CallbackId>, cb: CallbackId): (i: int)
    ensures -1 <= i < |listeners|
    ensures i == -1 <==> cb !in listeners
    ensures 0 <= i ==> listeners[i] == cb && forall j :: 0 <= j < i ==> listeners[j] != cb
  {
    if listeners == [] then -1
    else if listeners[0] == cb then 0
    else
      var j := IndexOf(listeners[1..], cb);
      if j == -1 then -1
      else j + 1
  }

  /** A position holding `cb` with no `cb` before it is what `indexOf` finds. */
  lemma IndexOfIsFirstOccurrence(listeners: seq<CallbackId>, cb: CallbackId, k: int)
    requires 0 <= k < |listeners| && listeners[k] == cb && forall j :: 0 <= j < k ==> listeners[j] != cb
    ensures IndexOf(listeners, cb) == k
  {
  }

  /** The body of the unsubscribe closure on the list:
      `index = indexOf(cb); if (index > -1) splice(index, 1)`. */
  function RemoveFirst(listeners: seq<CallbackId>, cb: CallbackId): (r: seq<CallbackId>)
    ensures |r| == if cb in listeners then |listeners| - 1 else |listeners|
    ensures cb !in listeners ==> r == listeners
  {
    var index := IndexOf(listeners, cb);
    if index > -1 then listeners[..index] + listeners[index + 1..] else listeners
  }

  /** Reference definition: drop the first `cb`, keep everything else in order. */
  function DropFirst(listeners: seq<CallbackId>, cb: CallbackId): seq<CallbackId>
  {
    if listeners == [] then []
    else if listeners[0] == cb then listeners[1..]
    else [listeners[0]] + DropFirst(listeners[1..], cb)
  }

  /** Past an entry that is not `cb`, the closure's removal happens in the rest. */
  lemma RemoveFirstSkipsOther(head: CallbackId, rest: seq<CallbackId>, cb: CallbackId)
    requires head != cb
    ensures RemoveFirst([head] + rest, cb) == [head] + RemoveFirst(rest, cb)
  {
    var listeners := [head] + rest;
    assert listeners[1..] == rest;
    var j := IndexOf(rest, cb);
    if j != -1 {
      assert IndexOf(listeners, cb) == j + 1;
      assert listeners[..j + 1] == [head] + rest[..j];
      assert listeners[j + 2..] == rest[j + 1..];
    }
  }

  /** `indexOf` + `splice` removes exactly the first occurrence and keeps the
      relative order of every other entry. */
  lemma {:induction false} RemoveFirstIsDropFirst(listeners: seq<CallbackId>, cb: CallbackId)
    ensures RemoveFirst(listeners, cb) == DropFirst(listeners, cb)
  {
    if listeners != [] && listeners[0] != cb {
      assert listeners == [listeners[0]] + listeners[1..];
      RemoveFirstIsDropFirst(listeners[1..], cb);
      RemoveFirstSkipsOther(listeners[0], listeners[1..], cb);
    }
  }

  /** The reference removal takes one `cb` away, if there is one, and nothing else. */
  lemma {:induction false} DropFirstTakesOne(listeners: seq<CallbackId>, cb: CallbackId, x: CallbackId)
    ensures Registrations(DropFirst(listeners, cb), x)
         == if x == cb && Registrations(listeners, cb) > 0 then Registrations(listeners, x) - 1 else Registrations(listeners, x)
  {
    if listeners != [] && listeners[0] != cb {
      DropFirstTakesOne(listeners[1..], cb, x);
      assert ([listeners[0]] + DropFirst(listeners[1..], cb))[1..] == DropFirst(listeners[1..], cb);
    }
  }

  /** One unsubscribe call takes away one registration of its callback, if any
      is left, and no registration of any other callback. */
  lemma RemoveFirstTakesOneRegistration(listeners: seq<CallbackId>, cb: CallbackId, x: CallbackId)
    ensures Registrations(RemoveFirst(listeners, cb), x)
         == if x == cb && Registrations(listeners, cb) > 0 then Registrations(listeners, x) - 1 else Registrations(listeners, x)
  {
    RemoveFirstIsDropFirst(listeners, cb);
    DropFirstTakesOne(listeners, cb, x);
  }

  /** The state after calling the unsubscribe closure made for `cb`. */
  function Unsubscribed(s: Store, cb: CallbackId): Store
  {
    s.(listeners := RemoveFirst(s.listeners, cb))
  }

  /** Unsubscribing right after subscribing undoes the subscription when the
      callback was not registered before; otherwise it removes the EARLIER
      registration and the new one stays at the end. */
  lemma SubscribeThenUnsubscribe(s: Store, cb: CallbackId)
    ensures Unsubscribed(Subscribed(s, cb), cb)
         == if cb in s.listeners then Subscribed(Unsubscribed(s, cb), cb) else s
  {
    var ls := s.listeners;
    RemoveFirstIsDropFirst(ls + [cb], cb);
    RemoveFirstIsDropFirst(ls, cb);
    DropFirstOfPushed(ls, cb);
  }

  /** The reference removal on a list with `cb` pushed at the end. */
  lemma {:induction false} DropFirstOfPushed(listeners: seq<CallbackId>, cb: CallbackId)
    ensures DropFirst(listeners + [cb], cb)
         == if cb in listeners then DropFirst(listeners, cb) + [cb] else listeners
  {
    if listeners == [] {
      assert [] + [cb] == [cb];
    } else {
      assert (listeners + [cb])[1..] == listeners[1..] + [cb];
      DropFirstOfPushed(listeners[1..], cb);
    }
  }

  /** The list after calling the same unsubscribe closure n times. */
  function RemoveRepeatedly(listeners: seq<CallbackId>, cb: CallbackId, n: nat): seq<CallbackId>
  {
    if n == 0 then listeners else RemoveFirst(RemoveRepeatedly(listeners, cb, n - 1), cb)
  }

  /** Each call of one unsubscribe closure removes one remaining registration
      of its callback: n calls remove min(n, k) of k registrations. */
  lemma {:induction false} RepeatedUnsubscribe(listeners: seq<CallbackId>, cb: CallbackId, n: nat)
    ensures Registrations(RemoveRepeatedly(listeners, cb, n), cb)
         == if n <= Registrations(listeners, cb) then Registrations(listeners, cb) - n else 0
  {
    if n > 0 {
      var prev := RemoveRepeatedly(listeners, cb, n - 1);
      RepeatedUnsubscribe(listeners, cb, n - 1);
      RemoveFirstTakesOneRegistration(prev, cb, cb);
      var p := Registrations(prev, cb);
      assert Registrations(RemoveRepeatedly(listeners, cb, n), cb) == if p > 0 then p - 1 else 0;
    }
  }

  /** However often it is called, an unsubscribe closure removes no
      registration of any other callback. */
  lemma {:induction false} RepeatedUnsubscribeSparesOthers(listeners: seq<CallbackId>, cb: CallbackId, n: nat, other: CallbackId)
    requires other != cb
    ensures Registrations(RemoveRepeatedly(listeners, cb, n), other) == Registrations(listeners, other)
  {
    if n > 0 {
      RepeatedUnsubscribeSparesOthers(listeners, cb, n - 1, other);
      RemoveFirstTakesOneRegistration(RemoveRepeatedly(listeners, cb, n - 1), cb, other);
    }
  }

  /** After n calls of one unsubscribe closure the list has lost at most n entries and gained none. */
  lemma {:induction false} RepeatedUnsubscribeLength(listeners: seq<CallbackId>, cb: CallbackId, n: nat)
    ensures |listeners| - n <= |RemoveRepeatedly(listeners, cb, n)| <= |listeners|
  {
    if n > 0 {
      RepeatedUnsubscribeLength(listeners, cb, n - 1);
    }
  }

  // ---------------------------------------------------------------------------
  // The module-level state, as an object

  /** The module's `isLoggedIn` flag and `listeners` array, with a ghost log of
      every listener invocation. */
  class LoginStore {
    var isLoggedIn: bool
    var listeners: seq<CallbackId>
    ghost var notified: seq<Notification>

    ghost function State(): Store
      reads this
    {
      Store(isLoggedIn, listeners)
    }

    /** Module initialisation. */
    constructor ()
      ensures State() == Initial && notified == []
    {
      isLoggedIn := false;
      listeners := [];
      notified := [];
    }

    /** `toggleLogin`: flip the flag, then call every listener with it. */
    method ToggleLogin()
      modifies this
      ensures State() == Toggled(old(State()))
      ensures notified == old(notified) + ToggleNotifications(old(State()))
    {
      isLoggedIn := !isLoggedIn;
      // updateLoginUI() only touches the page.
      // `calls` records the forEach invocations in the order they are made.
      ghost var calls: seq<Notification> := [];
      var i := 0;
      while i < |listeners|
        invariant 0 <= i <= |listeners|
        invariant calls == Broadcast(listeners[..i], isLoggedIn)
        modifies {}
      {
        BroadcastOneMore(listeners, i, isLoggedIn);
        calls := calls + [Notification(listeners[i], isLoggedIn)];
        i := i + 1;
      }
      assert listeners[..i] == listeners;
      notified := notified + calls;
    }

    /** `getIsLoggedIn`. */
    method GetIsLoggedIn() returns (b: bool)
      ensures b == isLoggedIn
    {
      b := isLoggedIn;
    }

    /** `onLoginChange(cb)`: push `cb` and hand back its unsubscribe closure. */
    method OnLoginChange(cb: CallbackId) returns (sub: Subscription)
      modifies this
      ensures State() == Subscribed(old(State()), cb)
      ensures notified == old(notified)
      ensures sub.callback == cb
    {
      listeners := listeners + [cb];
      sub := Subscription(cb);
    }

    /** Calling the unsubscribe closure `sub`. */
    method Unsubscribe(sub: Subscription)
      modifies this
      ensures State() == Unsubscribed(old(State()), sub.callback)
      ensures notified == old(notified)
    {
      var index := IndexOf(listeners, sub.callback);
      if index > -1 {
        listeners := listeners[..index] + listeners[index + 1..];
      }
    }
  }

  /** Notifying one more listener extends the calls made so far by one. */
  lemma BroadcastOneMore(listeners: seq<CallbackId>, i: nat, v: bool)
    requires i < |listeners|
    ensures Broadcast(listeners[..i + 1], v) == Broadcast(listeners[..i], v) + [Notification(listeners[i], v)]
  {
    assert |Broadcast(listeners[..i + 1], v)| == i + 1;
  }

  // ---------------------------------------------------------------------------
  // Clients: what a consumer of the store can rely on, from the contracts alone

  /** Listeners registered A, B, C are called A, B, C, all with the new flag;
      after B unsubscribes only A and C are called, in that order. */
  method OrderAndUnsubscribeScenario()
  {
    var a, b, c := CallbackId(0), CallbackId(1), CallbackId(2);
    var store := new LoginStore();
    var flag := store.GetIsLoggedIn();
    assert !flag;
    var subA := store.OnLoginChange(a);
    var subB := store.OnLoginChange(b);
    var subC := store.OnLoginChange(c);
    store.ToggleLogin();
    assert store.notified == [Notification(a, true), Notification(b, true), Notification(c, true)];
    store.Unsubscribe(subB);
    assert store.listeners == [a, c];
    store.ToggleLogin();
    assert store.notified[3..] == [Notification(a, false), Notification(c, false)];
  }

  /** A callback registered twice is called twice per toggle, and each call of
      its unsubscribe closure removes one registration; once none is left the
      closure removes nothing. */
  method DuplicateRegistrationScenario()
  {
    var a, c := CallbackId(0), CallbackId(2);
    var store := new LoginStore();
    var sub1 := store.OnLoginChange(a);
    var subC := store.OnLoginChange(c);
    var sub2 := store.OnLoginChange(a);
    store.ToggleLogin();
    assert store.notified == [Notification(a, true), Notification(c, true), Notification(a, true)];
    store.Unsubscribe(sub2);
    assert store.listeners == [c, a];
    store.Unsubscribe(sub2);
    assert store.listeners == [c];
    store.Unsubscribe(sub2);
    assert store.listeners == [c];
  }

  /** One observer sees `true` and then `false` over two toggles, and the
      store ends logged out again. */
  method EndToEndScenario()
  {
    var store := new LoginStore();
    var o := CallbackId(7);
    var subO := store.OnLoginChange(o);
    store.ToggleLogin();
    store.ToggleLogin();
    var flag := store.GetIsLoggedIn();
    assert !flag;
    assert store.notified == [Notification(o, true), Notification(o, false)];
  }
}
