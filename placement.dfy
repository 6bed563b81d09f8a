/**
 * A placement handle (`TJPlacement`): its construction, the listener closures
 * that `requestContent` and `showContent` register on the shared
 * `TapjoyPlacement` channel, the per-placement forwards to the native module,
 * and the entry-point index mapping.
 *
 * The closures are modelled by `Step`; one envelope reaching every live
 * listener of the placement is `Dispatch`. The class `Placement` runs the
 * same behaviour imperatively and is proved to agree with them.
 */
module TJPlacement {
  import opened Common
  import opened Channel
  import opened Native

  /** Event names of the placement lifecycle, also used for the notifications. */
  const RequestDidSucceed: string := "requestDidSucceed"
  const RequestDidFail: string := "requestDidFail"
  const ContentIsReady: string := "contentIsReady"
  const ContentDidAppear: string := "contentDidAppear"
  const ContentDidDisappear: string := "contentDidDisappear"

  /** Which call registered a listener. */
  datatype Kind = Request | Show

  type Listener = Subscription<Kind>

  /**
   * One notification emitted to the placement's observers. The observers
   * receive the placement itself; `error` is what they read in its `error`
   * property at the moment of emission.
   */
  datatype Notification = Notification(name: string, error: Option<string>)

  /** The observable state of a placement: its error, its live listeners, and every notification emitted so far. */
  datatype State = State(error: Option<string>, live: seq<Listener>, log: seq<Notification>)

  /** What the closures' `if`/`else if` chain on `event.name` recognises. */
  datatype Tag = Succeeded | Failed | Ready | Appeared | Disappeared | Unrecognised

  function TagOf(name: string): Tag
  {
    if name == RequestDidSucceed then Succeeded
    else if name == RequestDidFail then Failed
    else if name == ContentIsReady then Ready
    else if name == ContentDidAppear then Appeared
    else if name == ContentDidDisappear then Disappeared
    else Unrecognised
  }

  /** The names a listener of kind `k` reacts to; it ignores every other name. */
  predicate Reacts(k: Kind, name: string)
  {
    var t := TagOf(name);
    match k
    case Request => t == Succeeded || t == Failed || t == Ready
    case Show => t == Appeared || t == Disappeared
  }

  /** The names on which a listener of kind `k` removes itself, given the native availability answer. */
  predicate Ends(k: Kind, name: string, available: bool)
  {
    var t := TagOf(name);
    match k
    case Request => (t == Succeeded && !available) || t == Failed || t == Ready
    case Show => t == Disappeared
  }

  /** The listener closure `l` handling envelope `ev`; `available` is what `isContentAvailable()` answers. */
  function Step(s: State, l: Listener, ev: Event, available: bool): State
  {
    var t := TagOf(ev.name);
    match l.kind
    case Request =>
      if t == Succeeded then
        State(s.error, if available then s.live else Without(s.live, l.id),
              s.log + [Notification(RequestDidSucceed, s.error)])
      else if t == Failed then
        State(ev.error, Without(s.live, l.id), s.log + [Notification(RequestDidFail, ev.error)])
      else if t == Ready then
        State(s.error, Without(s.live, l.id), s.log + [Notification(ContentIsReady, s.error)])
      else s
    case Show =>
      if t == Appeared then
        State(s.error, s.live, s.log + [Notification(ContentDidAppear, s.error)])
      else if t == Disappeared then
        State(s.error, Without(s.live, l.id), s.log + [Notification(ContentDidDisappear, s.error)])
      else s
  }

  /** The listeners `ls` (a snapshot taken when the envelope arrives) handling `ev` in order. */
  function Deliver(s: State, ls: seq<Listener>, ev: Event, available: bool): State
    decreases |ls|
  {
    if ls == [] then s
    else Step(Deliver(s, ls[..|ls| - 1], ev, available), ls[|ls| - 1], ev, available)
  }

  /** One envelope reaching every live listener of the placement; nothing filters on `ev.placement`. */
  function Dispatch(s: State, ev: Event, available: bool): State
  {
    Deliver(s, s.live, ev, available)
  }

  /** How many of `ls` react to `name`. */
  function Reacting(ls: seq<Listener>, name: string): (n: nat)
    ensures n <= |ls|
  {
    if ls == [] then 0
    else Reacting(ls[..|ls| - 1], name) + (if Reacts(ls[|ls| - 1].kind, name) then 1 else 0)
  }

  /** Some listener reacts exactly when the count is positive. */
  lemma {:induction false} ReactingPositive(ls: seq<Listener>, name: string)
    ensures Reacting(ls, name) > 0 <==> exists l :: l in ls && Reacts(l.kind, name)
  {
    if ls != [] {
      var p, last := ls[..|ls| - 1], ls[|ls| - 1];
      assert ls == p + [last];
      ReactingPositive(p, name);
      assert forall l :: l in ls <==> l in p || l == last;
    }
  }

  /** The listeners of `ls` that stay subscribed after handling `name`, in order. */
  function Survivors(ls: seq<Listener>, name: string, available: bool): (r: seq<Listener>)
    ensures forall l :: l in r ==> l in ls && !Ends(l.kind, name, available)
  {
    if ls == [] then []
    else
      var last := ls[|ls| - 1];
      assert forall l :: l in ls[..|ls| - 1] ==> l in ls;
      Survivors(ls[..|ls| - 1], name, available) + (if Ends(last.kind, name, available) then [] else [last])
  }

  /** Every listener whose name does not end it survives. */
  lemma {:induction false} SurvivorsKeep(ls: seq<Listener>, name: string, available: bool, l: Listener)
    requires l in ls && !Ends(l.kind, name, available)
    ensures l in Survivors(ls, name, available)
  {
    var p, last := ls[..|ls| - 1], ls[|ls| - 1];
    assert ls == p + [last];
    if l != last {
      SurvivorsKeep(p, name, available, l);
    }
  }

  /** The placement's error after `ev` reached `ls`: only a failure that some request listener heard writes it. */
  function ErrorAfter(error: Option<string>, ls: seq<Listener>, ev: Event): Option<string>
  {
    if TagOf(ev.name) == Failed && Reacting(ls, ev.name) > 0 then ev.error else error
  }

  /** `count` copies of the notification `n`. */
  function Repeat(n: Notification, count: nat): (r: seq<Notification>)
    ensures |r| == count && forall i :: 0 <= i < count ==> r[i] == n
  {
    seq(count, _ => n)
  }

  /** The native call a listener makes while handling `name`: a success makes a request listener ask for availability. */
  function Query(placement: string, l: Listener, name: string): seq<Op>
  {
    if l.kind == Request && TagOf(name) == Succeeded then [IsContentAvailable(placement)] else []
  }

  /** The native calls the listeners `ls` make while handling `name`, in order. */
  function Queries(placement: string, ls: seq<Listener>, name: string): seq<Op>
    decreases |ls|
  {
    if ls == [] then []
    else Queries(placement, ls[..|ls| - 1], name) + Query(placement, ls[|ls| - 1], name)
  }

  /** Delivering to one more listener is one more step. */
  lemma DeliverSnoc(s: State, ls: seq<Listener>, l: Listener, ev: Event, available: bool)
    ensures Deliver(s, ls + [l], ev, available) == Step(Deliver(s, ls, ev, available), l, ev, available)
  {
    assert (ls + [l])[..|ls|] == ls;
  }

  /** The prefix of a snapshot one position longer: one more step, and that listener's native calls after the rest. */
  lemma DeliverNext(s: State, placement: string, ls: seq<Listener>, i: nat, ev: Event, available: bool)
    requires i < |ls|
    ensures Deliver(s, ls[..i + 1], ev, available) == Step(Deliver(s, ls[..i], ev, available), ls[i], ev, available)
    ensures Queries(placement, ls[..i + 1], ev.name) == Queries(placement, ls[..i], ev.name) + Query(placement, ls[i], ev.name)
  {
    assert ls[..i + 1][..i] == ls[..i];
  }

  lemma RepeatSnoc(n: Notification, count: nat)
    ensures Repeat(n, count) + [n] == Repeat(n, count + 1)
  {
  }

  /** One listener's closure in closed form: the error it writes, whether it leaves, and what it emits. */
  lemma StepShape(s: State, l: Listener, ev: Event, available: bool)
    ensures Step(s, l, ev, available)
         == (var e := if TagOf(ev.name) == Failed && Reacts(l.kind, ev.name) then ev.error else s.error;
             State(e,
                   if Ends(l.kind, ev.name, available) then Without(s.live, l.id) else s.live,
                   s.log + (if Reacts(l.kind, ev.name) then [Notification(ev.name, e)] else [])))
  {
  }

  /** The listener at position `k` holds a handle no other listener of `ls` holds. */
  lemma HandleIsOwn(ls: seq<Listener>, k: nat, sp: seq<Listener>)
    requires UniqueIds(ls) && k < |ls|
    requires forall x :: x in sp ==> x in ls[..k]
    ensures forall x :: x in sp ==> x.id != ls[k].id
    ensures forall x :: x in ls[k + 1..] ==> x.id != ls[k].id
  {
    forall x | x in sp ensures x.id != ls[k].id {
      var j :| 0 <= j < k && ls[..k][j] == x;
      assert ls[j] == x;
    }
    forall x | x in ls[k + 1..] ensures x.id != ls[k].id {
      var j :| 0 <= j < |ls[k + 1..]| && ls[k + 1..][j] == x;
      assert ls[k + 1 + j] == x;
    }
  }

  /** Removing the listener at position `k` from the survivors before it and the listeners after it. */
  lemma RemoveOwn(ls: seq<Listener>, k: nat, sp: seq<Listener>)
    requires UniqueIds(ls) && k < |ls|
    requires forall x :: x in sp ==> x in ls[..k]
    ensures Without(sp + ls[k..], ls[k].id) == sp + ls[k + 1..]
  {
    var l := ls[k];
    HandleIsOwn(ls, k, sp);
    assert ls[k..] == [l] + ls[k + 1..];
    WithoutConcat(sp, [l] + ls[k + 1..], l.id);
    WithoutConcat([l], ls[k + 1..], l.id);
    WithoutSelf(l);
    WithoutAbsent(sp, l.id);
    WithoutAbsent(ls[k + 1..], l.id);
  }

  /**
   * The state after the first `k` listeners of the snapshot `ls` handled `ev`:
   * the survivors among them and the untouched rest are live, and one
   * notification named `ev.name` was emitted per reacting listener, each
   * carrying the error as it stands after the envelope.
   */
  function Expected(e: Option<string>, ls: seq<Listener>, log: seq<Notification>,
                    ev: Event, available: bool, k: nat): State
    requires k <= |ls|
  {
    var err := ErrorAfter(e, ls[..k], ev);
    State(err, Survivors(ls[..k], ev.name, available) + ls[k..],
          log + Repeat(Notification(ev.name, err), Reacting(ls[..k], ev.name)))
  }

  /** The survivors of the first `k` listeners, one listener further on. */
  lemma SurvivorsStep(ls: seq<Listener>, k: nat, name: string, available: bool)
    requires 0 < k <= |ls|
    ensures Survivors(ls[..k], name, available)
         == Survivors(ls[..k - 1], name, available) + (if Ends(ls[k - 1].kind, name, available) then [] else [ls[k - 1]])
  {
    assert ls[..k][..k - 1] == ls[..k - 1] && ls[..k][k - 1] == ls[k - 1];
  }

  /** The reacting count of the first `k` listeners, one listener further on. */
  lemma ReactingStep(ls: seq<Listener>, k: nat, name: string)
    requires 0 < k <= |ls|
    ensures Reacting(ls[..k], name) == Reacting(ls[..k - 1], name) + (if Reacts(ls[k - 1].kind, name) then 1 else 0)
  {
    assert ls[..k][..k - 1] == ls[..k - 1] && ls[..k][k - 1] == ls[k - 1];
  }

  /** The error one position on: a failure heard by a request listener writes it. */
  lemma StepError(e: Option<string>, ls: seq<Listener>, ev: Event, k: nat)
    requires 0 < k <= |ls|
    ensures ErrorAfter(e, ls[..k], ev)
         == if TagOf(ev.name) == Failed && Reacts(ls[k - 1].kind, ev.name) then ev.error else ErrorAfter(e, ls[..k - 1], ev)
  {
    ReactingStep(ls, k, ev.name);
  }

  /** The live listeners one position on, when the listener at `k - 1` removes itself. */
  lemma StepLiveEnds(ls: seq<Listener>, name: string, available: bool, k: nat)
    requires UniqueIds(ls) && 0 < k <= |ls| && Ends(ls[k - 1].kind, name, available)
    ensures Without(Survivors(ls[..k - 1], name, available) + ls[k - 1..], ls[k - 1].id)
         == Survivors(ls[..k], name, available) + ls[k..]
  {
    var sp := Survivors(ls[..k - 1], name, available);
    SurvivorsStep(ls, k, name, available);
    assert Survivors(ls[..k], name, available) == sp + [];
    assert sp + [] == sp;
    RemoveOwn(ls, k - 1, sp);
    assert k - 1 + 1 == k;
  }

  /** Moving the element at `k - 1` from the front of the rest to the end of `a`. */
  lemma ShiftOne<T>(a: seq<T>, ls: seq<T>, k: nat)
    requires 0 < k <= |ls|
    ensures a + ls[k - 1..] == (a + [ls[k - 1]]) + ls[k..]
  {
    assert ls[k - 1..] == [ls[k - 1]] + ls[k..];
  }

  /** The live listeners one position on, when the listener at `k - 1` stays. */
  lemma StepLiveStays(ls: seq<Listener>, name: string, available: bool, k: nat)
    requires 0 < k <= |ls| && !Ends(ls[k - 1].kind, name, available)
    ensures Survivors(ls[..k - 1], name, available) + ls[k - 1..]
         == Survivors(ls[..k], name, available) + ls[k..]
  {
    SurvivorsStep(ls, k, name, available);
    ShiftOne(Survivors(ls[..k - 1], name, available), ls, k);
  }

  /** The notifications one position on: a reacting listener adds one more. */
  lemma StepLog(e: Option<string>, ls: seq<Listener>, log: seq<Notification>, ev: Event, k: nat)
    requires 0 < k <= |ls|
    ensures (var before := ErrorAfter(e, ls[..k - 1], ev);
             var after := ErrorAfter(e, ls[..k], ev);
             log + Repeat(Notification(ev.name, before), Reacting(ls[..k - 1], ev.name))
                 + (if Reacts(ls[k - 1].kind, ev.name) then [Notification(ev.name, after)] else []))
         == log + Repeat(Notification(ev.name, ErrorAfter(e, ls[..k], ev)), Reacting(ls[..k], ev.name))
  {
    ReactingStep(ls, k, ev.name);
    var after := ErrorAfter(e, ls[..k], ev);
    if Reacts(ls[k - 1].kind, ev.name) {
      RepeatSnoc(Notification(ev.name, after), Reacting(ls[..k - 1], ev.name));
    }
  }

  /** One more listener of the snapshot handling `ev` moves the expected state one position on. */
  lemma DeliverStep(e: Option<string>, ls: seq<Listener>, log: seq<Notification>,
                    ev: Event, available: bool, k: nat)
    requires UniqueIds(ls) && 0 < k <= |ls|
    ensures Step(Expected(e, ls, log, ev, available, k - 1), ls[k - 1], ev, available)
         == Expected(e, ls, log, ev, available, k)
  {
    var prev := Expected(e, ls, log, ev, available, k - 1);
    StepShape(prev, ls[k - 1], ev, available);
    StepError(e, ls, ev, k);
    if Ends(ls[k - 1].kind, ev.name, available) {
      StepLiveEnds(ls, ev.name, available, k);
    } else {
      StepLiveStays(ls, ev.name, available, k);
    }
    StepLog(e, ls, log, ev, k);
  }

  /** Delivering `ev` to the first `k` listeners of the snapshot `ls` yields the expected state. */
  lemma {:induction false} DeliverPrefix(e: Option<string>, ls: seq<Listener>, log: seq<Notification>,
                                         ev: Event, available: bool, k: nat)
    requires UniqueIds(ls) && k <= |ls|
    ensures Deliver(State(e, ls, log), ls[..k], ev, available) == Expected(e, ls, log, ev, available, k)
  {
    if k == 0 {
      assert ls[..0] == [] && ls[0..] == ls;
    } else {
      DeliverPrefix(e, ls, log, ev, available, k - 1);
      assert ls[..k][..k - 1] == ls[..k - 1] && ls[..k][k - 1] == ls[k - 1];
      DeliverStep(e, ls, log, ev, available, k);
    }
  }

  /** The whole effect of one envelope on a placement whose listeners hold distinct handles. */
  lemma DispatchOutcome(s: State, ev: Event, available: bool)
    requires UniqueIds(s.live)
    ensures Dispatch(s, ev, available)
         == State(ErrorAfter(s.error, s.live, ev),
                  Survivors(s.live, ev.name, available),
                  s.log + Repeat(Notification(ev.name, ErrorAfter(s.error, s.live, ev)), Reacting(s.live, ev.name)))
  {
    DeliverPrefix(s.error, s.live, s.log, ev, available, |s.live|);
    assert s.live[..|s.live|] == s.live && s.live[|s.live|..] == [];
    assert s == State(s.error, s.live, s.log);
  }

  /** A request listener hearing `requestDidFail`: it is gone, the error is the envelope's, and every notification carries it. */
  lemma RequestFailureRecordsError(s: State, l: Listener, ev: Event, available: bool)
    requires UniqueIds(s.live) && l in s.live && l.kind == Request && ev.name == RequestDidFail
    ensures Dispatch(s, ev, available).error == ev.error
    ensures l !in Dispatch(s, ev, available).live
    ensures Dispatch(s, ev, available).log
         == s.log + Repeat(Notification(RequestDidFail, ev.error), Reacting(s.live, RequestDidFail))
    ensures Reacting(s.live, RequestDidFail) >= 1
  {
    DispatchOutcome(s, ev, available);
    ReactingPositive(s.live, RequestDidFail);
  }

  /** A request listener hearing `contentIsReady`: it is gone whatever the availability, and the error is untouched. */
  lemma ContentReadyEndsRequest(s: State, l: Listener, ev: Event, available: bool)
    requires UniqueIds(s.live) && l in s.live && l.kind == Request && ev.name == ContentIsReady
    ensures Dispatch(s, ev, available).error == s.error
    ensures l !in Dispatch(s, ev, available).live
    ensures Dispatch(s, ev, available).log
         == s.log + Repeat(Notification(ContentIsReady, s.error), Reacting(s.live, ContentIsReady))
    ensures Reacting(s.live, ContentIsReady) >= 1
  {
    DispatchOutcome(s, ev, available);
    ReactingPositive(s.live, ContentIsReady);
  }

  /** A request listener hearing `requestDidSucceed` always emits, and stays subscribed exactly when content is available. */
  lemma RequestSuccessKeepsListenerIffAvailable(s: State, l: Listener, ev: Event, available: bool)
    requires UniqueIds(s.live) && l in s.live && l.kind == Request && ev.name == RequestDidSucceed
    ensures l in Dispatch(s, ev, available).live <==> available
    ensures Dispatch(s, ev, available).error == s.error
    ensures Dispatch(s, ev, available).log
         == s.log + Repeat(Notification(RequestDidSucceed, s.error), Reacting(s.live, RequestDidSucceed))
    ensures Reacting(s.live, RequestDidSucceed) >= 1
  {
    DispatchOutcome(s, ev, available);
    ReactingPositive(s.live, RequestDidSucceed);
    if available {
      SurvivorsKeep(s.live, ev.name, available, l);
    }
  }

  /** Only `requestDidFail`, heard by some request listener, writes the error; anything else leaves it as it was. */
  lemma ErrorWrittenOnlyOnFailure(s: State, ev: Event, available: bool)
    requires UniqueIds(s.live)
    ensures ev.name != RequestDidFail ==> Dispatch(s, ev, available).error == s.error
    ensures Dispatch(s, ev, available).error != s.error ==>
              ev.name == RequestDidFail && exists l :: l in s.live && l.kind == Request
  {
    DispatchOutcome(s, ev, available);
    ReactingPositive(s.live, ev.name);
  }

  /** A name no live listener reacts to changes nothing: no notification, no removal, no error write. */
  lemma {:induction false} IgnoredEvent(s: State, ls: seq<Listener>, ev: Event, available: bool)
    requires forall l :: l in ls ==> !Reacts(l.kind, ev.name)
    ensures Deliver(s, ls, ev, available) == s
  {
    if ls != [] {
      var p := ls[..|ls| - 1];
      assert ls[|ls| - 1] in ls;
      forall l | l in p ensures !Reacts(l.kind, ev.name) {
        assert l in ls;
      }
      IgnoredEvent(s, p, ev, available);
    }
  }

  /** The placement named in an envelope plays no part: every placement's listeners treat it alike. */
  lemma {:induction false} NoPlacementFilter(s: State, ls: seq<Listener>, ev: Event, other: string, available: bool)
    ensures Deliver(s, ls, ev, available) == Deliver(s, ls, ev.(placement := other), available)
  {
    if ls != [] {
      NoPlacementFilter(s, ls[..|ls| - 1], ev, other, available);
    }
  }

  /** A lone listener that has removed itself never emits again, whatever arrives next. */
  lemma LoneListenerRetires(s: State, l: Listener, ev: Event, available: bool, next: Event, nextAvailable: bool)
    requires s.live == [l] && Ends(l.kind, ev.name, available)
    ensures Dispatch(s, ev, available).live == []
    ensures Dispatch(Dispatch(s, ev, available), next, nextAvailable) == Dispatch(s, ev, available)
  {
    DispatchOutcome(s, ev, available);
  }

  /** `showContent` then `contentDidAppear` then `contentDidDisappear`: exactly two notifications, and the listener is removed only by the second. */
  lemma ShowAppearThenDisappear(s: State, id: nat, appear: Event, disappear: Event, a1: bool, a2: bool)
    requires s.live == [Subscription(id, Show)]
    requires appear.name == ContentDidAppear && disappear.name == ContentDidDisappear
    ensures Dispatch(s, appear, a1).live == s.live
    ensures Dispatch(Dispatch(s, appear, a1), disappear, a2)
         == State(s.error, [], s.log + [Notification(ContentDidAppear, s.error), Notification(ContentDidDisappear, s.error)])
  {
    var l := Subscription(id, Show);
    assert TagOf(appear.name) == Appeared && TagOf(disappear.name) == Disappeared;
    DeliverSnoc(s, [], l, appear, a1);
    var mid := Step(s, l, appear, a1);
    assert mid.live == [l];
    DeliverSnoc(mid, [], l, disappear, a2);
    WithoutSelf(l);
  }

  /** The index `Array.prototype.indexOf` gives: the first position of `v`, or -1 when it is absent. */
  function IndexOf<E(==)>(values: seq<E>, v: E): (r: int)
    ensures -1 <= r < |values|
    ensures r == -1 <==> v !in values
    ensures 0 <= r ==> values[r] == v && v !in values[..r]
  {
    if values == [] then -1
    else if values[0] == v then 0
    else
      var i := IndexOf(values[1..], v);
      assert values == [values[0]] + values[1..];
      if i == -1 then -1
      else
        assert values[..i + 1] == [values[0]] + values[1..][..i];
        i + 1
  }

  /** Indexing the ordered entry-point list: out of range gives `undefined`. */
  function EntryAt<E>(values: seq<E>, index: int): Option<E>
  {
    if 0 <= index < |values| then Some(values[index]) else None
  }

  /** No entry point appears twice in the list. */
  predicate Distinct<E(==)>(values: seq<E>)
  {
    forall i, j :: 0 <= i < j < |values| ==> values[i] != values[j]
  }

  /**
   * The entry-point round trip: a listed value comes back from the index it
   * is sent as; an unlisted value is sent as -1, which maps back to `undefined`;
   * in a list without repeats every in-range index comes back as itself.
   */
  lemma EntryPointRoundTrip<E(!new)>(values: seq<E>, v: E, index: int)
    ensures v in values ==> EntryAt(values, IndexOf(values, v)) == Some(v)
    ensures v !in values ==> IndexOf(values, v) == -1 && EntryAt(values, IndexOf(values, v)) == None
    ensures EntryAt(values, index) == None <==> index < 0 || |values| <= index
    ensures Distinct(values) && 0 <= index < |values| ==> IndexOf(values, values[index]) == index
  {
  }

  /** A placement handle; its listeners are the live subscriptions its own closures hold on the shared `TapjoyPlacement` channel. */
  class Placement {
    const name: string
    const native: NativeModule
    var error: Option<string>
    var listeners: seq<Listener>
    var nextId: nat
    var notifications: seq<Notification>

    ghost predicate Valid()
      reads this
    {
      UniqueIds(listeners) && forall l :: l in listeners ==> l.id < nextId
    }

    function Model(): State
      reads this
    {
      State(error, listeners, notifications)
    }

    /** Creates the handle and registers the placement with the native module, once per construction. */
    constructor (name: string, native: NativeModule)
      modifies native
      ensures Valid()
      ensures this.name == name && this.native == native
      ensures Model() == State(None, [], [])
      ensures native.trace == old(native.trace) + [CreatePlacement(name)]
    {
      this.name := name;
      this.native := native;
      error := None;
      listeners := [];
      nextId := 0;
      notifications := [];
      native.trace := native.trace + [CreatePlacement(name)];
    }

    /** Subscribes a request listener, then asks the native module for content. */
    method RequestContent()
      requires Valid()
      modifies this, native
      ensures Valid()
      ensures Model() == old(Model()).(live := old(listeners) + [Subscription(old(nextId), Request)])
      ensures native.trace == old(native.trace) + [RequestPlacement(name)]
    {
      listeners := listeners + [Subscription(nextId, Request)];
      nextId := nextId + 1;
      native.trace := native.trace + [RequestPlacement(name)];
    }

    /** Subscribes a show listener, then asks the native module to show the content. */
    method ShowContent()
      requires Valid()
      modifies this, native
      ensures Valid()
      ensures Model() == old(Model()).(live := old(listeners) + [Subscription(old(nextId), Show)])
      ensures native.trace == old(native.trace) + [ShowPlacement(name)]
    {
      listeners := listeners + [Subscription(nextId, Show)];
      nextId := nextId + 1;
      native.trace := native.trace + [ShowPlacement(name)];
    }

    /** Notifies the placement's observers; they see the error as it stands now. */
    method Emit(tag: string)
      modifies this
      ensures Model() == old(Model()).(log := old(notifications) + [Notification(tag, error)])
      ensures nextId == old(nextId)
    {
      notifications := notifications + [Notification(tag, error)];
    }

    /** `subscription.remove()` for the listener holding handle `id`. */
    method Unsubscribe(id: nat)
      requires Valid()
      modifies this
      ensures Valid()
      ensures Model() == old(Model()).(live := Without(old(listeners), id))
      ensures nextId == old(nextId)
    {
      WithoutUnique(listeners, id);
      WithoutMembers(listeners, id);
      listeners := Without(listeners, id);
    }

    /** The closure of listener `l` run on `ev`; `answer` is what the native availability query returns. */
    method HandleEvent(l: Listener, ev: Event, answer: bool)
      requires Valid()
      modifies this, native
      ensures Valid() && nextId == old(nextId)
      ensures Model() == Step(old(Model()), l, ev, answer)
      ensures native.trace == old(native.trace) + Query(name, l, ev.name)
    {
      match l.kind
      case Request =>
        if ev.name == RequestDidSucceed {
          var available := IsContentAvailable(answer);
          if !available {
            Unsubscribe(l.id);
          }
          Emit(RequestDidSucceed);
        } else if ev.name == RequestDidFail {
          Unsubscribe(l.id);
          error := ev.error;
          Emit(RequestDidFail);
        } else if ev.name == ContentIsReady {
          Unsubscribe(l.id);
          Emit(ContentIsReady);
        }
      case Show =>
        if ev.name == ContentDidAppear {
          Emit(ContentDidAppear);
        } else if ev.name == ContentDidDisappear {
          Unsubscribe(l.id);
          Emit(ContentDidDisappear);
        }
    }

    /** The channel delivering `ev` to every listener live when it arrives, in subscription order. */
    method Receive(ev: Event, answer: bool)
      requires Valid()
      modifies this, native
      ensures Valid()
      ensures Model() == Dispatch(old(Model()), ev, answer)
      ensures native.trace == old(native.trace) + Queries(name, old(listeners), ev.name)
    {
      var snapshot := listeners;
      ghost var start := Model();
      ghost var trace := native.trace;
      var i := 0;
      while i < |snapshot|
        invariant 0 <= i <= |snapshot|
        invariant Valid()
        invariant Model() == Deliver(start, snapshot[..i], ev, answer)
        invariant native.trace == trace + Queries(name, snapshot[..i], ev.name)
      {
        DeliverNext(start, name, snapshot, i, ev, answer);
        HandleEvent(snapshot[i], ev, answer);
        i := i + 1;
      }
      assert snapshot[..i] == snapshot;
    }

    /** Forwards `isContentReady(name)`; the native answer is returned as is. */
    method IsContentReady(answer: bool) returns (r: bool)
      modifies native
      ensures r == answer
      ensures native.trace == old(native.trace) + [Op.IsContentReady(name)]
    {
      native.trace := native.trace + [Op.IsContentReady(name)];
      r := answer;
    }

    /** Forwards `isContentAvailable(name)`; the native answer is returned as is. */
    method IsContentAvailable(answer: bool) returns (r: bool)
      modifies native
      ensures r == answer
      ensures native.trace == old(native.trace) + [Op.IsContentAvailable(name)]
    {
      native.trace := native.trace + [Op.IsContentAvailable(name)];
      r := answer;
    }

    /** Forwards the balance with the arguments reordered to (balance, currency, placement); no range check. */
    method SetCurrencyBalance(currencyId: string, currencyBalance: real, reply: Outcome<()>) returns (r: Outcome<()>)
      modifies native
      ensures r == reply
      ensures native.trace == old(native.trace) + [Op.SetCurrencyBalance(currencyBalance, currencyId, name)]
    {
      native.trace := native.trace + [Op.SetCurrencyBalance(currencyBalance, currencyId, name)];
      r := reply;
    }

    /** Forwards `getPlacementCurrencyBalance(currency, placement)`. */
    method GetCurrencyBalance(currencyId: string, reply: Outcome<real>) returns (r: Outcome<real>)
      modifies native
      ensures r == reply
      ensures native.trace == old(native.trace) + [GetPlacementCurrencyBalance(currencyId, name)]
    {
      native.trace := native.trace + [GetPlacementCurrencyBalance(currencyId, name)];
      r := reply;
    }

    /** Forwards the required amount; no range check. */
    method SetRequiredAmount(amount: real, currencyId: string, reply: Outcome<()>) returns (r: Outcome<()>)
      modifies native
      ensures r == reply
      ensures native.trace == old(native.trace) + [Op.SetRequiredAmount(amount, currencyId, name)]
    {
      native.trace := native.trace + [Op.SetRequiredAmount(amount, currencyId, name)];
      r := reply;
    }

    /** Forwards `getRequiredAmount(currency, placement)`. */
    method GetRequiredAmount(currencyId: string, reply: Outcome<real>) returns (r: Outcome<real>)
      modifies native
      ensures r == reply
      ensures native.trace == old(native.trace) + [Op.GetRequiredAmount(currencyId, name)]
    {
      native.trace := native.trace + [Op.GetRequiredAmount(currencyId, name)];
      r := reply;
    }

    /** Sends the position of `entryPoint` in the ordered list, -1 when it is not listed. */
    method SetEntryPoint<E(==)>(entryPoints: seq<E>, entryPoint: E)
      modifies native
      ensures native.trace == old(native.trace) + [Op.SetEntryPoint(name, IndexOf(entryPoints, entryPoint))]
      ensures entryPoint !in entryPoints ==> native.trace[|native.trace| - 1].index == -1
    {
      native.trace := native.trace + [Op.SetEntryPoint(name, IndexOf(entryPoints, entryPoint))];
    }

    /** Maps the native index back to an entry point, `undefined` when out of range; a native rejection propagates. */
    method GetEntryPoint<E>(entryPoints: seq<E>, reply: Outcome<int>) returns (r: Outcome<Option<E>>)
      modifies native
      ensures reply.Threw? ==> r == Threw(reply.message)
      ensures reply.Returned? ==> r == Returned(EntryAt(entryPoints, reply.value))
      ensures native.trace == old(native.trace) + [Op.GetEntryPoint(name)]
    {
      native.trace := native.trace + [Op.GetEntryPoint(name)];
      match reply
      case Threw(m) => r := Threw(m);
      case Returned(i) => r := Returned(EntryAt(entryPoints, i));
    }
  }

  /** Two handles with the same name are two registrations: the native module sees two create calls. */
  method CreateTwice(native: NativeModule, name: string) returns (p: Placement, q: Placement)
    modifies native
    ensures p != q && p.name == name && q.name == name
    ensures native.trace == old(native.trace) + [CreatePlacement(name), CreatePlacement(name)]
  {
    p := new Placement(name, native);
    q := new Placement(name, native);
  }
}
