/**
 * The publish/subscribe mixin: a Subscribable keeps a table from command id
 * to the ordered list of Subscriptions registered under it ("_all" is the
 * catch-all list), and notify dispatches a message to them in list order.
 * Each Subscription carries a filter over the message arguments and, per
 * command id, a one-shot wait handle that `fire` resolves and `wait_for`
 * arms, awaits and re-arms.
 *
 * Handler methods found by name (`handle_<id>`) are modelled by the set of
 * ids a Receiver handles; calling a handler is recorded as a Call in the
 * trace that notify returns.
 */
module Subscriptions {
  import opened Wrappers

  /** The Python values a message carries, as far as the model tells them apart. */
  datatype Value = Str(s: string) | Int(i: int) | Nil

  /** The message dict {"command_id": ..., "arguments": [...]}. */
  datatype Message = Message(commandId: Value, arguments: seq<Value>)

  /** The catch-all command id. */
  const ALL: string := "_all"

  /** notify's `assert isinstance(command_id, str)` failing. */
  datatype Error = AssertionError

  /** An object that subscribes; `handlers` holds each id c it has a `handle_c` method for. */
  class Receiver {
    const handlers: set<string>

    constructor (handlers: set<string>)
      ensures this.handlers == handlers
    {
      this.handlers := handlers;
    }
  }

  /** One call `receiver.handle_<commandId>(arguments)`. */
  datatype Call = Call(receiver: Receiver, commandId: string, arguments: seq<Value>)

  /** A wait handle (an asyncio future); a command id without a handle is simply absent. */
  datatype Emission = Pending | Resolved | Cancelled

  /** How a suspended `wait_for` ends when the event loop wakes it, or that it does not. */
  datatype WaitOutcome = Fired | StillWaiting | TimedOut | CancelledError

  type Filter = seq<Value> -> bool

  type Table = map<string, seq<Subscription>>

  function Lookup(t: Table, k: string): seq<Subscription>
  {
    if k in t then t[k] else []
  }

  /** The ids a subscription is registered under: `None` means the catch-all only. */
  function RegisteredIds(commandIds: Option<seq<string>>): seq<string>
  {
    if commandIds.None? then [ALL] else commandIds.value
  }

  /** The ids unsubscribe works on: `None` and the empty list both mean the catch-all. */
  function RemovalIds(commandIds: Option<seq<string>>): (ids: seq<string>)
    ensures ids != []
    ensures commandIds.None? || commandIds.value == [] ==> ids == [ALL]
    ensures commandIds.Some? && commandIds.value != [] ==> ids == commandIds.value
  {
    if commandIds.None? || commandIds.value == [] then [ALL] else commandIds.value
  }

  /** The table after `sub` is appended under each id of `ids` in turn. */
  function Registered(t: Table, ids: seq<string>, sub: Subscription): (r: Table)
    ensures forall k :: k in r <==> k in t || k in ids
  {
    if ids == [] then t
    else
      var t' := Registered(t, ids[..|ids| - 1], sub);
      var k := ids[|ids| - 1];
      t'[k := Lookup(t', k) + [sub]]
  }

  /** The list with every subscription of `r` removed, the others kept in order. */
  function Without(l: seq<Subscription>, r: Receiver): (kept: seq<Subscription>)
    ensures |kept| <= |l|
    ensures forall i :: 0 <= i < |kept| ==> kept[i] in l && kept[i].receiver != r
  {
    if l == [] then []
    else
      var last := l[|l| - 1];
      Without(l[..|l| - 1], r) + (if last.receiver == r then [] else [last])
  }

  /** The table after the lists of the present ids among `ids` are filtered by receiver. */
  function Unsubscribed(t: Table, ids: seq<string>, r: Receiver): (u: Table)
    ensures u.Keys == t.Keys
  {
    if ids == [] then t
    else
      var t' := Unsubscribed(t, ids[..|ids| - 1], r);
      var k := ids[|ids| - 1];
      if k in t' then t'[k := Without(t'[k], r)] else t'
  }

  /** The subscriptions notify fires for command id `c`, in firing order. */
  function Targets(t: Table, c: string): seq<Subscription>
    requires ALL in t
  {
    Lookup(t, c) + t[ALL]
  }

  /** The subscriptions a notify with this command id fires: none when the id is not a string. */
  function NotifyTargets(t: Table, commandId: Value): seq<Subscription>
    requires ALL in t
  {
    if commandId.Str? then Targets(t, commandId.s) else []
  }

  /** The handler call one accepted firing of `s` makes, if the receiver has the handler. */
  function CallsOf(s: Subscription, c: string, args: seq<Value>): (calls: seq<Call>)
  {
    if s.filter(args) && c in s.receiver.handlers then [Call(s.receiver, c, args)] else []
  }

  /** The calls made by firing each subscription of `targets` in turn. */
  function Dispatch(targets: seq<Subscription>, c: string, args: seq<Value>): (calls: seq<Call>)
    ensures |calls| <= |targets|
    ensures forall i :: 0 <= i < |calls| ==> calls[i].commandId == c && calls[i].arguments == args
  {
    if targets == [] then []
    else Dispatch(targets[..|targets| - 1], c, args) + CallsOf(targets[|targets| - 1], c, args)
  }

  /** A subscription's wait handles after one firing for `c` with the filter's verdict `accepted`. */
  function AfterFire(accepted: bool, e: map<string, Emission>, c: string): (e': map<string, Emission>)
    ensures e'.Keys == e.Keys
    ensures forall k :: k in e && k != c ==> e'[k] == e[k]
  {
    if accepted && c in e && e[c] == Pending then e[c := Resolved] else e
  }

  class Subscription {
    const source: Subscribable
    const receiver: Receiver
    const commandIds: seq<string>
    const filter: Filter
    var emissions: map<string, Emission>

    /** A missing filter accepts every argument list. */
    constructor (source: Subscribable, receiver: Receiver, commandIds: seq<string>, filter: Option<Filter>)
      ensures this.source == source && this.receiver == receiver && this.commandIds == commandIds
      ensures filter.None? ==> forall args :: this.filter(args)
      ensures filter.Some? ==> forall args :: this.filter(args) == filter.value(args)
      ensures emissions == map[]
    {
      this.source := source;
      this.receiver := receiver;
      this.commandIds := commandIds;
      if filter.None? {
        this.filter := (args: seq<Value>) => true;
      } else {
        this.filter := filter.value;
      }
      this.emissions := map[];
    }

    /** Leaving the context unsubscribes the receiver from the ids this subscription was made with. */
    method Exit()
      requires source.Valid()
      modifies source
      ensures source.Valid()
      ensures source.subscriptions
           == Unsubscribed(old(source.subscriptions), RemovalIds(Some(commandIds)), receiver)
      ensures source.emissions == old(source.emissions)
    {
      source.Unsubscribe(receiver, Some(commandIds));
    }

    /**
     * When the filter accepts, resolves this id's handle if it is pending and
     * calls the receiver's handler if it has one; when it rejects, does nothing.
     */
    method Fire(c: string, args: seq<Value>) returns (calls: seq<Call>)
      modifies this
      ensures emissions == AfterFire(filter(args), old(emissions), c)
      ensures calls == CallsOf(this, c, args)
    {
      calls := [];
      if filter(args) {
        if c in emissions && emissions[c] == Pending {
          emissions := emissions[c := Resolved];
        }
        if c in receiver.handlers {
          calls := [Call(receiver, c, args)];
        }
      }
    }

    /** The part of `wait_for` before it suspends: a handle is created only if none exists. */
    method ArmWait(c: string)
      modifies this
      ensures c in emissions
      ensures c in old(emissions) ==> emissions == old(emissions)
      ensures c !in old(emissions) ==> emissions == old(emissions)[c := Pending]
    {
      if c !in emissions {
        emissions := emissions[c := Pending];
      }
    }

    /**
     * The part of `wait_for` after the event loop wakes it: a resolved handle
     * returns and is replaced by a fresh pending one; a pending handle whose
     * deadline passed is cancelled (asyncio.wait_for cancels what it waits on)
     * and the wait times out without re-arming; a cancelled handle raises
     * CancelledError; a pending handle before its deadline keeps waiting.
     */
    method ResumeWait(c: string, deadlinePassed: bool) returns (r: WaitOutcome)
      requires c in emissions
      modifies this
      ensures old(emissions[c]) == Resolved ==> r == Fired && emissions == old(emissions)[c := Pending]
      ensures old(emissions[c]) == Cancelled ==> r == CancelledError && emissions == old(emissions)
      ensures old(emissions[c]) == Pending && deadlinePassed ==>
                r == TimedOut && emissions == old(emissions)[c := Cancelled]
      ensures old(emissions[c]) == Pending && !deadlinePassed ==>
                r == StillWaiting && emissions == old(emissions)
    {
      match emissions[c]
      case Resolved =>
        r := Fired;
        emissions := emissions[c := Pending];
      case Cancelled =>
        r := CancelledError;
      case Pending =>
        if deadlinePassed {
          r := TimedOut;
          emissions := emissions[c := Cancelled];
        } else {
          r := StillWaiting;
        }
    }
  }

  class Subscribable {
    var subscriptions: Table
    /** Created empty by the constructor and never used afterwards. */
    var emissions: map<string, Emission>

    ghost predicate Valid()
      reads this
    {
      ALL in subscriptions
    }

    constructor ()
      ensures Valid()
      ensures subscriptions == map[ALL := []] && emissions == map[]
    {
      subscriptions := map[ALL := []];
      emissions := map[];
    }

    method Subscribe(receiver: Receiver, commandIds: Option<seq<string>>, filter: Option<Filter>)
      returns (sub: Subscription)
      requires Valid()
      modifies this
      ensures Valid() && fresh(sub)
      ensures sub.source == this && sub.receiver == receiver
      ensures sub.commandIds == RegisteredIds(commandIds) && sub.emissions == map[]
      ensures filter.None? ==> forall args :: sub.filter(args)
      ensures filter.Some? ==> forall args :: sub.filter(args) == filter.value(args)
      ensures subscriptions == Registered(old(subscriptions), sub.commandIds, sub)
      ensures emissions == old(emissions)
    {
      var ids := RegisteredIds(commandIds);
      sub := new Subscription(this, receiver, ids, filter);
      var i := 0;
      while i < |ids|
        invariant 0 <= i <= |ids|
        invariant subscriptions == Registered(old(subscriptions), ids[..i], sub)
        invariant ALL in subscriptions
        invariant sub.emissions == map[] && emissions == old(emissions)
      {
        var k := ids[i];
        if k in subscriptions {
          subscriptions := subscriptions[k := subscriptions[k] + [sub]];
        } else {
          assert Lookup(subscriptions, k) + [sub] == [sub];
          subscriptions := subscriptions[k := [sub]];
        }
        assert ids[..i + 1][..i] == ids[..i];
        assert ids[..i + 1][i] == k;
        i := i + 1;
      }
      assert ids[..|ids|] == ids;
    }

    /**
     * Fires the subscriptions under the message's command id in registration
     * order, then every catch-all subscription in order.
     */
    method Notify(m: Message) returns (r: Result<seq<Call>, Error>)
      requires Valid()
      modifies NotifyTargets(subscriptions, m.commandId)
      ensures !m.commandId.Str? ==> r == Failure(AssertionError)
      ensures m.commandId.Str? ==>
                r == Success(Dispatch(Targets(subscriptions, m.commandId.s), m.commandId.s, m.arguments))
      ensures m.commandId.Str? ==>
                forall s :: s in Targets(subscriptions, m.commandId.s) ==>
                  s.emissions == AfterFire(s.filter(m.arguments), old(s.emissions), m.commandId.s)
    {
      if !m.commandId.Str? {
        return Failure(AssertionError);
      }
      var c := m.commandId.s;
      // The loop over the id's own list and the loop over the catch-all list
      // run back to back: one pass over the two lists joined.
      var targets := Lookup(subscriptions, c) + subscriptions[ALL];
      var calls := FireEach(targets, c, m.arguments);
      r := Success(calls);
    }

    /**
     * Removes every subscription of `receiver` from the list of each listed id
     * that is present; `None` and the empty list mean the catch-all.
     */
    method Unsubscribe(receiver: Receiver, commandIds: Option<seq<string>>)
      requires Valid()
      modifies this
      ensures Valid()
      ensures subscriptions == Unsubscribed(old(subscriptions), RemovalIds(commandIds), receiver)
      ensures emissions == old(emissions)
    {
      var ids := RemovalIds(commandIds);
      var i := 0;
      while i < |ids|
        invariant 0 <= i <= |ids|
        invariant subscriptions == Unsubscribed(old(subscriptions), ids[..i], receiver)
        invariant ALL in subscriptions
        invariant emissions == old(emissions)
      {
        var k := ids[i];
        if k in subscriptions {
          subscriptions := subscriptions[k := Without(subscriptions[k], receiver)];
        }
        assert ids[..i + 1][..i] == ids[..i];
        i := i + 1;
      }
      assert ids[..|ids|] == ids;
    }
  }

  /** One of notify's two loops: fire each subscription of `subs` in turn. */
  method FireEach(subs: seq<Subscription>, c: string, args: seq<Value>) returns (calls: seq<Call>)
    modifies subs
    ensures calls == Dispatch(subs, c, args)
    ensures forall s :: s in subs ==> s.emissions == AfterFire(s.filter(args), old(s.emissions), c)
  {
    calls := [];
    ghost var fired: set<Subscription> := {};
    var i := 0;
    while i < |subs|
      invariant 0 <= i <= |subs|
      invariant calls == Dispatch(subs[..i], c, args)
      invariant forall j :: 0 <= j < i ==> subs[j] in fired
      invariant forall s :: s in subs ==>
                  s.emissions == if s in fired then AfterFire(s.filter(args), old(s.emissions), c)
                                 else old(s.emissions)
    {
      var sub := subs[i];
      AfterFireIdempotent(sub.filter(args), old(sub.emissions), c);
      var made := sub.Fire(c, args);
      fired := fired + {sub};
      calls := calls + made;
      assert subs[..i + 1] == subs[..i] + [sub];
      i := i + 1;
    }
    assert subs[..|subs|] == subs;
  }

  /** A second firing with the same verdict changes nothing: a handle is resolved at most once. */
  lemma AfterFireIdempotent(accepted: bool, e: map<string, Emission>, c: string)
    ensures AfterFire(accepted, AfterFire(accepted, e, c), c) == AfterFire(accepted, e, c)
  {
  }

  /** Dispatching a concatenation makes the first list's calls, then the second's. */
  lemma {:induction false} DispatchAppend(l1: seq<Subscription>, l2: seq<Subscription>, c: string, args: seq<Value>)
    ensures Dispatch(l1 + l2, c, args) == Dispatch(l1, c, args) + Dispatch(l2, c, args)
    decreases |l2|
  {
    if l2 != [] {
      var l2' := l2[..|l2| - 1];
      assert (l1 + l2)[..|l1 + l2| - 1] == l1 + l2';
      DispatchAppend(l1, l2', c, args);
    } else {
      assert l1 + l2 == l1;
    }
  }

  /**
   * After registering `sub` under `ids`, the table has a list for exactly the
   * old ids and the listed ones, and each list is the old one (empty if it was
   * missing) followed by `sub` once per occurrence of its id in `ids`; a list
   * whose id is not listed is unchanged.
   */
  lemma {:induction false} RegisteredAt(t: Table, ids: seq<string>, sub: Subscription, k: string)
    ensures k in Registered(t, ids, sub) <==> k in t || k in ids
    ensures k in Registered(t, ids, sub) ==>
              Registered(t, ids, sub)[k] == Lookup(t, k) + seq(multiset(ids)[k], _ => sub)
  {
    if ids != [] {
      var init := ids[..|ids| - 1];
      var last := ids[|ids| - 1];
      assert ids == init + [last];
      assert multiset(ids) == multiset(init) + multiset{last};
      RegisteredAt(t, init, sub, k);
      if k == last {
        var n := multiset(init)[k];
        assert seq(n + 1, _ => sub) == seq(n, _ => sub) + [sub];
      }
    } else {
      assert seq(0, _ => sub) == [];
    }
  }

  /** A filtered list holds exactly the subscriptions of other receivers, as often as before. */
  lemma {:induction false} WithoutCount(l: seq<Subscription>, r: Receiver, s: Subscription)
    ensures multiset(Without(l, r))[s] == if s.receiver == r then 0 else multiset(l)[s]
  {
    if l != [] {
      var init := l[..|l| - 1];
      assert l == init + [l[|l| - 1]];
      WithoutCount(init, r, s);
    }
  }

  /** Filtering keeps relative order: it distributes over concatenation. */
  lemma {:induction false} WithoutAppend(l1: seq<Subscription>, l2: seq<Subscription>, r: Receiver)
    ensures Without(l1 + l2, r) == Without(l1, r) + Without(l2, r)
    decreases |l2|
  {
    if l2 == [] {
      assert l1 + l2 == l1;
    } else {
      var init := l2[..|l2| - 1];
      assert (l1 + l2)[..|l1 + l2| - 1] == l1 + init;
      WithoutAppend(l1, init, r);
    }
  }

  /** Filtering twice by the same receiver is filtering once. */
  lemma {:induction false} WithoutIdempotent(l: seq<Subscription>, r: Receiver)
    ensures Without(Without(l, r), r) == Without(l, r)
  {
    if l != [] {
      var init := l[..|l| - 1];
      var last := l[|l| - 1];
      WithoutIdempotent(init, r);
      WithoutAppend(Without(init, r), if last.receiver == r then [] else [last], r);
    }
  }

  /**
   * Unsubscribing keeps the table's ids; each listed id that is present loses
   * every subscription of `r` (the rest in order), every other list is unchanged.
   */
  lemma {:induction false} UnsubscribedAt(t: Table, ids: seq<string>, r: Receiver, k: string)
    ensures Unsubscribed(t, ids, r).Keys == t.Keys
    ensures k in t ==> Unsubscribed(t, ids, r)[k] == if k in ids then Without(t[k], r) else t[k]
  {
    if ids != [] {
      var init := ids[..|ids| - 1];
      var last := ids[|ids| - 1];
      assert ids == init + [last];
      UnsubscribedAt(t, init, r, k);
      UnsubscribedAt(t, init, r, last);
      if k == last && k in t && k in init {
        WithoutIdempotent(t[k], r);
      }
    }
  }

  /**
   * A call appears in a dispatch exactly when it is for the dispatched id and
   * arguments, its receiver handles that id, and some subscription of that
   * receiver in the list accepts the arguments.
   */
  lemma {:induction false} DispatchCalls(l: seq<Subscription>, c: string, args: seq<Value>, x: Call)
    ensures x in Dispatch(l, c, args) <==>
              x.commandId == c && x.arguments == args && c in x.receiver.handlers &&
              exists s :: s in l && s.receiver == x.receiver && s.filter(args)
  {
    if l != [] {
      var init := l[..|l| - 1];
      var last := l[|l| - 1];
      assert l == init + [last];
      DispatchCalls(init, c, args, x);
    }
  }

  /**
   * notify calls the handlers of the subscriptions under the message's own id
   * first, then those of the catch-all list; a message whose id is "_all"
   * reaches every catch-all subscription twice.
   */
  lemma NotifyOrder(t: Table, c: string, args: seq<Value>)
    requires ALL in t
    ensures Dispatch(Targets(t, c), c, args) == Dispatch(Lookup(t, c), c, args) + Dispatch(t[ALL], c, args)
    ensures c == ALL ==>
              Dispatch(Targets(t, c), c, args) == Dispatch(t[ALL], c, args) + Dispatch(t[ALL], c, args)
  {
    DispatchAppend(Lookup(t, c), t[ALL], c, args);
  }

  /**
   * A fire between two waits on the same id resolves the handle the first wait
   * re-armed, so the second wait returns at once, even past its deadline.
   */
  method FireBetweenWaits(c: string, args: seq<Value>) returns (first: WaitOutcome, second: WaitOutcome)
    ensures first == Fired && second == Fired
  {
    var bus := new Subscribable();
    var receiver := new Receiver({});
    var sub := bus.Subscribe(receiver, Some([c]), None);
    sub.ArmWait(c);
    var calls1 := sub.Fire(c, args);
    first := sub.ResumeWait(c, false);
    var calls2 := sub.Fire(c, args);
    sub.ArmWait(c);
    second := sub.ResumeWait(c, true);
  }

  /**
   * A wait that times out leaves its cancelled handle in place: a later fire
   * does not resolve it and the next wait on that id raises CancelledError.
   */
  method TimeoutLeavesCancelledHandle(c: string, args: seq<Value>) returns (first: WaitOutcome, second: WaitOutcome)
    ensures first == TimedOut && second == CancelledError
  {
    var bus := new Subscribable();
    var receiver := new Receiver({});
    var sub := bus.Subscribe(receiver, Some([c]), None);
    sub.ArmWait(c);
    first := sub.ResumeWait(c, true);
    var calls := sub.Fire(c, args);
    sub.ArmWait(c);
    second := sub.ResumeWait(c, false);
  }

  /** A message whose command id is literally "_all" reaches a catch-all handler twice. */
  method CatchAllMessageTwice(args: seq<Value>) returns (receiver: Receiver, r: Result<seq<Call>, Error>)
    ensures r == Success([Call(receiver, ALL, args), Call(receiver, ALL, args)])
  {
    var bus := new Subscribable();
    receiver := new Receiver({ALL});
    var sub := bus.Subscribe(receiver, None, None);
    RegisteredAt(map[ALL := []], [ALL], sub, ALL);
    assert multiset([ALL])[ALL] == 1;
    assert seq(1, _ => sub) == [sub];
    assert bus.subscriptions[ALL] == [sub];
    assert Targets(bus.subscriptions, ALL) == [sub, sub];
    var call := Call(receiver, ALL, args);
    assert CallsOf(sub, ALL, args) == [call];
    assert [sub][..0] == [];
    assert Dispatch([sub], ALL, args) == [call];
    assert [sub, sub][..1] == [sub];
    assert Dispatch([sub, sub], ALL, args) == [call] + [call] == [call, call];
    ghost var t := bus.subscriptions;
    r := bus.Notify(Message(Str(ALL), args));
    assert bus.subscriptions == t;
  }

  /**
   * Leaving a subscription made with an empty id list (registered nowhere)
   * still unsubscribes its receiver from the catch-all list, removing the
   * receiver's other, catch-all subscription too.
   */
  method ExitWithNoIdsDropsCatchAll() returns (before: seq<Subscription>, after: seq<Subscription>)
    ensures |before| == 1 && after == []
  {
    var bus := new Subscribable();
    var receiver := new Receiver({});
    var everything := bus.Subscribe(receiver, None, None);
    var nothing := bus.Subscribe(receiver, Some([]), None);
    before := bus.subscriptions[ALL];
    ghost var table := bus.subscriptions;
    nothing.Exit();
    after := bus.subscriptions[ALL];
    UnsubscribedAt(table, [ALL], receiver, ALL);
    assert [everything][..0] == [];
  }
}
