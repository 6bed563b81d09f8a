/**
 * The `Tapjoy` facade: the linking-error proxy standing in for a missing
 * native module, `connect` with its one-shot warning listener on the
 * `Tapjoy` channel, and the static methods that forward to the native module.
 *
 * `NativeModule?` is the native module as the host exposes it: `null` when
 * the package is not linked, in which case every access goes to the proxy
 * and throws.
 */
module Tapjoy {
  import opened Common
  import opened Channel
  import opened Native

  /** The host operating system, as `Platform.select` sees it. */
  datatype Platform = Ios | Android | Macos | Windows | Web

  const LinkingHeader: string := "The package 'tapjoy-react-native-sdk' doesn't seem to be linked. Make sure: \n\n"
  const PodInstallLine: string := "- You have run 'pod install'\n"
  const LinkingCauses: string := "- You rebuilt the app after installing the package\n- You are not using Expo Go\n"

  /** The message every access to the unlinked module throws; the `pod install` hint is selected for iOS only. */
  function LinkingError(os: Platform): (m: string)
    ensures |m| == |LinkingHeader| + |LinkingCauses| + (if os == Ios then |PodInstallLine| else 0)
    ensures m[..|LinkingHeader|] == LinkingHeader
    ensures m[|m| - |LinkingCauses|..] == LinkingCauses
    ensures m[|LinkingHeader|..|m| - |LinkingCauses|] == (if os == Ios then PodInstallLine else "")
  {
    LinkingHeader + (if os == Ios then PodInstallLine else "") + LinkingCauses
  }

  /** What a forwarded call yields: the native outcome when the module is linked, the linking error otherwise. */
  function Forward<R>(linked: bool, os: Platform, reply: Outcome<R>): Outcome<R>
  {
    if linked then reply else Threw(LinkingError(os))
  }

  /** No native answer can mask a missing module, and a linked module's answer passes through untouched. */
  lemma ForwardPassesThrough<R>(linked: bool, os: Platform, reply: Outcome<R>)
    ensures !linked ==> Forward(linked, os, reply).Threw? && Forward(linked, os, reply).message == LinkingError(os)
    ensures linked ==> Forward(linked, os, reply) == reply
  {
  }

  /** `TapjoyAPI.<op>`: the call reaches the native module only when it is linked. */
  method Invoke<R>(native: NativeModule?, os: Platform, op: Op, reply: Outcome<R>) returns (r: Outcome<R>)
    modifies native
    ensures r == Forward(native != null, os, reply)
    ensures native != null ==> native.trace == old(native.trace) + [op]
  {
    if native == null {
      r := Threw(LinkingError(os));
    } else {
      native.trace := native.trace + [op];
      r := reply;
    }
  }

  /** Whether `connect` was given an `onWarning` callback. */
  datatype Handler = NoCallback | Callback

  type WarningListener = Subscription<Handler>

  /**
   * Whether listener `l` throws on this delivery: it has a callback, and that
   * callback throws on this call. `throwing` holds the handles whose callback
   * throws this time; each delivery has its own set, so a callback may throw
   * on one warning and return on the next.
   */
  predicate Throws(l: WarningListener, throwing: set<nat>)
  {
    l.kind == Callback && l.id in throwing
  }

  /** No listener of `ls` throws on this delivery. */
  predicate NoneThrows(ls: seq<WarningListener>, throwing: set<nat>)
  {
    forall i :: 0 <= i < |ls| ==> !Throws(ls[i], throwing)
  }

  /** One invocation of the `onWarning` callback of the listener holding `subscriber`, with the envelope. */
  datatype CallbackCall = CallbackCall(subscriber: nat, event: Event)

  /** The `Tapjoy` channel: live warning listeners and every callback invocation so far. */
  datatype WarningState = WarningState(live: seq<WarningListener>, calls: seq<CallbackCall>)

  /** What delivering an envelope leaves: the channel, and whether a callback threw out of the delivery. */
  datatype Delivery = Delivery(state: WarningState, threw: bool)

  /**
   * The warning closure `l` handling `ev`. On the warning name it calls back
   * (if it has a callback) and then removes itself; a callback that throws
   * skips the removal, and the exception leaves the delivery.
   */
  function WarnStep(s: WarningState, l: WarningListener, ev: Event, warningName: string, throwing: set<nat>): Delivery
  {
    if ev.name != warningName then Delivery(s, false)
    else if l.kind == NoCallback then Delivery(WarningState(Without(s.live, l.id), s.calls), false)
    else if l.id in throwing then Delivery(WarningState(s.live, s.calls + [CallbackCall(l.id, ev)]), true)
    else Delivery(WarningState(Without(s.live, l.id), s.calls + [CallbackCall(l.id, ev)]), false)
  }

  /**
   * The listeners `ls` (a snapshot taken when the envelope arrives) handling
   * `ev` in order; once a callback has thrown, the rest are not reached.
   */
  function WarnDeliver(s: WarningState, ls: seq<WarningListener>, ev: Event, warningName: string, throwing: set<nat>): Delivery
    decreases |ls|
  {
    if ls == [] then Delivery(s, false)
    else
      var d := WarnDeliver(s, ls[..|ls| - 1], ev, warningName, throwing);
      if d.threw then d else WarnStep(d.state, ls[|ls| - 1], ev, warningName, throwing)
  }

  /** One envelope reaching every live warning listener. */
  function Warn(s: WarningState, ev: Event, warningName: string, throwing: set<nat>): Delivery
  {
    WarnDeliver(s, s.live, ev, warningName, throwing)
  }

  /** The callback invocations a warning `ev` causes in `ls`, all of which it reaches: one per listener that has a callback, in order. */
  function CallbacksFor(ls: seq<WarningListener>, ev: Event): (r: seq<CallbackCall>)
    ensures |r| <= |ls|
    ensures forall i :: 0 <= i < |r| ==> r[i].event == ev
    decreases |ls|
  {
    if ls == [] then []
    else
      var last := ls[|ls| - 1];
      CallbacksFor(ls[..|ls| - 1], ev) + (if last.kind == Callback then [CallbackCall(last.id, ev)] else [])
  }

  /** Among listeners a warning reaches, it calls back exactly those that were given a callback. */
  lemma {:induction false} CallbacksMatchListeners(ls: seq<WarningListener>, ev: Event, id: nat)
    ensures CallbackCall(id, ev) in CallbacksFor(ls, ev) <==> Subscription(id, Callback) in ls
  {
    if ls != [] {
      var p, last := ls[..|ls| - 1], ls[|ls| - 1];
      assert ls == p + [last];
      CallbacksMatchListeners(p, ev, id);
    }
  }

  /** The listener at position `k - 1` removing itself leaves the listeners after it. */
  lemma WarnRemoveOwn(ls: seq<WarningListener>, k: nat)
    requires UniqueIds(ls) && 0 < k <= |ls|
    ensures Without(ls[k - 1..], ls[k - 1].id) == ls[k..]
  {
    var l := ls[k - 1];
    forall x | x in ls[k..] ensures x.id != l.id {
      var j :| 0 <= j < |ls[k..]| && ls[k..][j] == x;
      assert ls[k + j] == x;
    }
    assert ls[k - 1..] == [l] + ls[k..];
    WithoutConcat([l], ls[k..], l.id);
    WithoutSelf(l);
    WithoutAbsent(ls[k..], l.id);
  }

  /** The callbacks of the first `k` listeners, one listener further on. */
  lemma CallbacksStep(ls: seq<WarningListener>, ev: Event, k: nat)
    requires 0 < k <= |ls|
    ensures CallbacksFor(ls[..k], ev)
         == CallbacksFor(ls[..k - 1], ev) + (if ls[k - 1].kind == Callback then [CallbackCall(ls[k - 1].id, ev)] else [])
  {
    assert ls[..k][..k - 1] == ls[..k - 1] && ls[..k][k - 1] == ls[k - 1];
  }

  /** A prefix of the snapshot one position longer, when nothing has thrown yet: one more step. */
  lemma WarnNext(s: WarningState, ls: seq<WarningListener>, i: nat, ev: Event, warningName: string, throwing: set<nat>)
    requires i < |ls| && !WarnDeliver(s, ls[..i], ev, warningName, throwing).threw
    ensures WarnDeliver(s, ls[..i + 1], ev, warningName, throwing)
         == WarnStep(WarnDeliver(s, ls[..i], ev, warningName, throwing).state, ls[i], ev, warningName, throwing)
  {
    assert ls[..i + 1][..i] == ls[..i];
  }

  /** Once a callback has thrown, the listeners after it change nothing. */
  lemma {:induction false} ThrewStays(s: WarningState, ls: seq<WarningListener>, i: nat, ev: Event, warningName: string, throwing: set<nat>)
    requires i <= |ls| && WarnDeliver(s, ls[..i], ev, warningName, throwing).threw
    ensures WarnDeliver(s, ls, ev, warningName, throwing) == WarnDeliver(s, ls[..i], ev, warningName, throwing)
  {
    if i == |ls| {
      assert ls[..i] == ls;
    } else {
      var p := ls[..|ls| - 1];
      assert p[..i] == ls[..i];
      ThrewStays(s, p, i, ev, warningName, throwing);
    }
  }

  /**
   * After the first `k` listeners of `ls`, none of them throwing, handled a
   * warning, the rest are live and each of the `k` called back once if it could.
   */
  lemma {:induction false} WarnPrefix(ls: seq<WarningListener>, calls: seq<CallbackCall>, ev: Event, warningName: string,
                                      throwing: set<nat>, k: nat)
    requires UniqueIds(ls) && k <= |ls| && ev.name == warningName
    requires forall i :: 0 <= i < k ==> !Throws(ls[i], throwing)
    ensures WarnDeliver(WarningState(ls, calls), ls[..k], ev, warningName, throwing)
         == Delivery(WarningState(ls[k..], calls + CallbacksFor(ls[..k], ev)), false)
  {
    if k == 0 {
      assert ls[..0] == [] && ls[0..] == ls;
    } else {
      var s0 := WarningState(ls, calls);
      WarnPrefix(ls, calls, ev, warningName, throwing, k - 1);
      var prev := WarnDeliver(s0, ls[..k - 1], ev, warningName, throwing);
      WarnNext(s0, ls, k - 1, ev, warningName, throwing);
      WarnRemoveOwn(ls, k);
      CallbacksStep(ls, ev, k);
      var own := if ls[k - 1].kind == Callback then [CallbackCall(ls[k - 1].id, ev)] else [];
      assert prev.state == WarningState(ls[k - 1..], calls + CallbacksFor(ls[..k - 1], ev));
      assert WarnStep(prev.state, ls[k - 1], ev, warningName, throwing)
          == Delivery(WarningState(ls[k..], (calls + CallbacksFor(ls[..k - 1], ev)) + own), false);
      assert (calls + CallbacksFor(ls[..k - 1], ev)) + own == calls + CallbacksFor(ls[..k], ev);
    }
  }

  /** Any other name leaves every listener of `ls` in place and calls nothing. */
  lemma {:induction false} OtherNameIgnored(s: WarningState, ls: seq<WarningListener>, ev: Event, warningName: string,
                                            throwing: set<nat>)
    requires ev.name != warningName
    ensures WarnDeliver(s, ls, ev, warningName, throwing) == Delivery(s, false)
  {
    if ls != [] {
      OtherNameIgnored(s, ls[..|ls| - 1], ev, warningName, throwing);
    }
  }

  /**
   * When no callback throws, a warning removes every warning listener and
   * calls back exactly those that were given a callback, once each; any other
   * name changes nothing.
   */
  lemma WarningOutcome(s: WarningState, ev: Event, warningName: string, throwing: set<nat>)
    requires UniqueIds(s.live)
    ensures ev.name == warningName && NoneThrows(s.live, throwing) ==>
              Warn(s, ev, warningName, throwing) == Delivery(WarningState([], s.calls + CallbacksFor(s.live, ev)), false)
    ensures ev.name != warningName ==> Warn(s, ev, warningName, throwing) == Delivery(s, false)
  {
    if ev.name == warningName {
      if NoneThrows(s.live, throwing) {
        WarnPrefix(s.live, s.calls, ev, warningName, throwing, |s.live|);
        assert s.live[..|s.live|] == s.live && s.live[|s.live|..] == [];
        assert s == WarningState(s.live, s.calls);
      }
    } else {
      OtherNameIgnored(s, s.live, ev, warningName, throwing);
    }
  }

  /**
   * When the callback at position `k` is the first that throws, a warning
   * removes the `k` listeners before it, calls back those of them with a
   * callback and then the thrower, and leaves the thrower and every listener
   * after it live and unreached; the exception leaves the delivery.
   */
  lemma WarningThrows(s: WarningState, ev: Event, warningName: string, throwing: set<nat>, k: nat)
    requires UniqueIds(s.live) && ev.name == warningName
    requires k < |s.live| && Throws(s.live[k], throwing)
    requires forall i :: 0 <= i < k ==> !Throws(s.live[i], throwing)
    ensures Warn(s, ev, warningName, throwing)
         == Delivery(WarningState(s.live[k..], s.calls + CallbacksFor(s.live[..k + 1], ev)), true)
  {
    var ls := s.live;
    var s0 := WarningState(ls, s.calls);
    assert s == s0;
    WarnPrefix(ls, s.calls, ev, warningName, throwing, k);
    WarnNext(s0, ls, k, ev, warningName, throwing);
    CallbacksStep(ls, ev, k + 1);
    assert (s.calls + CallbacksFor(ls[..k], ev)) + [CallbackCall(ls[k].id, ev)]
        == s.calls + CallbacksFor(ls[..k + 1], ev);
    ThrewStays(s0, ls, k + 1, ev, warningName, throwing);
  }

  /** After one warning in which no callback threw, nothing listens: whatever arrives next changes nothing. */
  lemma SecondWarningSilent(s: WarningState, first: Event, next: Event, warningName: string,
                            throwing: set<nat>, nextThrowing: set<nat>)
    requires UniqueIds(s.live) && NoneThrows(s.live, throwing) && first.name == warningName
    ensures Warn(s, first, warningName, throwing).state.live == []
    ensures Warn(Warn(s, first, warningName, throwing).state, next, warningName, nextThrowing)
         == Delivery(Warn(s, first, warningName, throwing).state, false)
  {
    WarningOutcome(s, first, warningName, throwing);
  }

  /** A lone `connect` listener whose callback returns: one warning calls it exactly once with the envelope and removes it. */
  lemma WarningCallsBackOnce(s: WarningState, id: nat, ev: Event, warningName: string, throwing: set<nat>)
    requires s.live == [Subscription(id, Callback)] && id !in throwing && ev.name == warningName
    ensures Warn(s, ev, warningName, throwing) == Delivery(WarningState([], s.calls + [CallbackCall(id, ev)]), false)
  {
    WarningOutcome(s, ev, warningName, throwing);
    assert [Subscription(id, Callback)][..0] == [];
  }

  /** A lone `connect` listener without a callback: a warning only removes it. */
  lemma WarningWithoutCallback(s: WarningState, id: nat, ev: Event, warningName: string, throwing: set<nat>)
    requires s.live == [Subscription(id, NoCallback)] && ev.name == warningName
    ensures Warn(s, ev, warningName, throwing) == Delivery(WarningState([], s.calls), false)
  {
    WarningOutcome(s, ev, warningName, throwing);
    assert [Subscription(id, NoCallback)][..0] == [];
  }

  /**
   * A lone `connect` listener whose callback throws is not removed, so the
   * next warning calls it again; that call removes it exactly when the
   * callback returns this time.
   */
  lemma ThrowingCallbackStays(s: WarningState, id: nat, first: Event, next: Event, warningName: string,
                              throwing: set<nat>, nextThrowing: set<nat>)
    requires s.live == [Subscription(id, Callback)] && id in throwing
    requires first.name == warningName && next.name == warningName
    ensures Warn(s, first, warningName, throwing) == Delivery(WarningState(s.live, s.calls + [CallbackCall(id, first)]), true)
    ensures Warn(Warn(s, first, warningName, throwing).state, next, warningName, nextThrowing)
         == Delivery(WarningState(if id in nextThrowing then s.live else [],
                                  s.calls + [CallbackCall(id, first), CallbackCall(id, next)]),
                     id in nextThrowing)
  {
    var l := Subscription(id, Callback);
    WarnNext(s, [l], 0, first, warningName, throwing);
    assert [l][..1] == [l] && [l][..0] == [];
    var mid := WarningState(s.live, s.calls + [CallbackCall(id, first)]);
    WarnNext(mid, [l], 0, next, warningName, nextThrowing);
    WithoutSelf(l);
    assert mid.calls + [CallbackCall(id, next)] == s.calls + [CallbackCall(id, first), CallbackCall(id, next)];
  }

  /** The subscriptions `connect` calls hold on the `Tapjoy` channel. */
  class WarningChannel {
    /** The value of the connect-warning event name. */
    const warningName: string
    var listeners: seq<WarningListener>
    var nextId: nat
    var calls: seq<CallbackCall>

    ghost predicate Valid()
      reads this
    {
      UniqueIds(listeners) && forall l :: l in listeners ==> l.id < nextId
    }

    function Model(): WarningState
      reads this
    {
      WarningState(listeners, calls)
    }

    constructor (warningName: string)
      ensures Valid() && this.warningName == warningName
      ensures Model() == WarningState([], [])
    {
      this.warningName := warningName;
      listeners := [];
      nextId := 0;
      calls := [];
    }

    /** Registers a warning listener and returns its handle. */
    method Subscribe(handler: Handler) returns (id: nat)
      requires Valid()
      modifies this
      ensures Valid()
      ensures id == old(nextId)
      ensures Model() == old(Model()).(live := old(listeners) + [Subscription(id, handler)])
    {
      id := nextId;
      listeners := listeners + [Subscription(id, handler)];
      nextId := nextId + 1;
    }

    /**
     * The closure `connect` registers, run on `ev`; `throwing` says whose
     * callback throws this time, and `threw` is whether this one did.
     */
    method HandleEvent(l: WarningListener, ev: Event, throwing: set<nat>) returns (threw: bool)
      requires Valid()
      modifies this
      ensures Valid() && nextId == old(nextId)
      ensures Delivery(Model(), threw) == WarnStep(old(Model()), l, ev, warningName, throwing)
    {
      threw := false;
      if ev.name == warningName {
        if l.kind == Callback {
          calls := calls + [CallbackCall(l.id, ev)];
          threw := l.id in throwing;
        }
        if !threw {
          WithoutUnique(listeners, l.id);
          WithoutMembers(listeners, l.id);
          listeners := Without(listeners, l.id);
        }
      }
    }

    /**
     * The channel delivering `ev` to every warning listener live when it
     * arrives, until a callback throws; `threw` is whether one did.
     */
    method Receive(ev: Event, throwing: set<nat>) returns (threw: bool)
      requires Valid()
      modifies this
      ensures Valid()
      ensures Delivery(Model(), threw) == Warn(old(Model()), ev, warningName, throwing)
    {
      var snapshot := listeners;
      ghost var start := Model();
      threw := false;
      var i := 0;
      while i < |snapshot| && !threw
        invariant 0 <= i <= |snapshot|
        invariant Valid()
        invariant Delivery(Model(), threw) == WarnDeliver(start, snapshot[..i], ev, warningName, throwing)
      {
        WarnNext(start, snapshot, i, ev, warningName, throwing);
        threw := HandleEvent(snapshot[i], ev, throwing);
        i := i + 1;
      }
      if threw {
        ThrewStays(start, snapshot, i, ev, warningName, throwing);
      } else {
        assert snapshot[..i] == snapshot;
      }
    }
  }

  /**
   * `Tapjoy.connect`: the warning listener is registered first, so it stays
   * registered even when the native call then throws; the result is exactly
   * what the native call yields.
   */
  method Connect<R>(channel: WarningChannel, native: NativeModule?, os: Platform,
                    sdkKey: string, flags: map<string, string>, onWarning: Handler, reply: Outcome<R>)
    returns (r: Outcome<R>)
    requires channel.Valid()
    modifies channel, native
    ensures channel.Valid()
    ensures channel.Model() == old(channel.Model()).(live := old(channel.listeners) + [Subscription(old(channel.nextId), onWarning)])
    ensures r == Forward(native != null, os, reply)
    ensures native != null ==> native.trace == old(native.trace) + [Op.Connect(sdkKey, flags)]
  {
    var _ := channel.Subscribe(onWarning);
    r := Invoke(native, os, Op.Connect(sdkKey, flags), reply);
  }

  /** `Tapjoy.isConnected`. */
  method IsConnected(native: NativeModule?, os: Platform, reply: Outcome<bool>) returns (r: Outcome<bool>)
    modifies native
    ensures r == Forward(native != null, os, reply)
    ensures native != null ==> native.trace == old(native.trace) + [Op.IsConnected]
  {
    r := Invoke(native, os, Op.IsConnected, reply);
  }

  /** `Tapjoy.getCurrencyBalance`: the native currency-name/amount answer, unchanged. */
  method GetCurrencyBalance<R>(native: NativeModule?, os: Platform, reply: Outcome<R>) returns (r: Outcome<R>)
    modifies native
    ensures r == Forward(native != null, os, reply)
    ensures native != null ==> native.trace == old(native.trace) + [Op.GetCurrencyBalance]
  {
    r := Invoke(native, os, Op.GetCurrencyBalance, reply);
  }

  /** `Tapjoy.spendCurrency`: the amount reaches the native module as given, with no local check. */
  method SpendCurrency<R>(native: NativeModule?, os: Platform, amount: real, reply: Outcome<R>) returns (r: Outcome<R>)
    modifies native
    ensures r == Forward(native != null, os, reply)
    ensures native != null ==> native.trace == old(native.trace) + [Op.SpendCurrency(amount)]
  {
    r := Invoke(native, os, Op.SpendCurrency(amount), reply);
  }

  /** `Tapjoy.awardCurrency`: the amount reaches the native module as given, with no local check. */
  method AwardCurrency<R>(native: NativeModule?, os: Platform, amount: real, reply: Outcome<R>) returns (r: Outcome<R>)
    modifies native
    ensures r == Forward(native != null, os, reply)
    ensures native != null ==> native.trace == old(native.trace) + [Op.AwardCurrency(amount)]
  {
    r := Invoke(native, os, Op.AwardCurrency(amount), reply);
  }

  /** `Tapjoy.trackPurchase`: fire and forget. */
  method TrackPurchase(native: NativeModule?, os: Platform, currencyCode: string, price: real) returns (r: Outcome<()>)
    modifies native
    ensures r == Forward(native != null, os, Returned(()))
    ensures native != null ==> native.trace == old(native.trace) + [Op.TrackPurchase(currencyCode, price)]
  {
    r := Invoke(native, os, Op.TrackPurchase(currencyCode, price), Returned(()));
  }

  /** `Tapjoy.setDebugEnabled`: fire and forget. */
  method SetDebugEnabled(native: NativeModule?, os: Platform, enable: bool) returns (r: Outcome<()>)
    modifies native
    ensures r == Forward(native != null, os, Returned(()))
    ensures native != null ==> native.trace == old(native.trace) + [Op.SetDebugEnabled(enable)]
  {
    r := Invoke(native, os, Op.SetDebugEnabled(enable), Returned(()));
  }

  /** `Tapjoy.setUserId`: the native answer, unchanged. */
  method SetUserId<R>(native: NativeModule?, os: Platform, userId: string, reply: Outcome<R>) returns (r: Outcome<R>)
    modifies native
    ensures r == Forward(native != null, os, reply)
    ensures native != null ==> native.trace == old(native.trace) + [Op.SetUserId(userId)]
  {
    r := Invoke(native, os, Op.SetUserId(userId), reply);
  }

  /** `Tapjoy.getUserId`. */
  method GetUserId<R>(native: NativeModule?, os: Platform, reply: Outcome<R>) returns (r: Outcome<R>)
    modifies native
    ensures r == Forward(native != null, os, reply)
    ensures native != null ==> native.trace == old(native.trace) + [Op.GetUserId]
  {
    r := Invoke(native, os, Op.GetUserId, reply);
  }

  /** `Tapjoy.setUserLevel`: fire and forget. */
  method SetUserLevel(native: NativeModule?, os: Platform, userLevel: real) returns (r: Outcome<()>)
    modifies native
    ensures r == Forward(native != null, os, Returned(()))
    ensures native != null ==> native.trace == old(native.trace) + [Op.SetUserLevel(userLevel)]
  {
    r := Invoke(native, os, Op.SetUserLevel(userLevel), Returned(()));
  }

  /** `Tapjoy.getUserLevel`. */
  method GetUserLevel<R>(native: NativeModule?, os: Platform, reply: Outcome<R>) returns (r: Outcome<R>)
    modifies native
    ensures r == Forward(native != null, os, reply)
    ensures native != null ==> native.trace == old(native.trace) + [Op.GetUserLevel]
  {
    r := Invoke(native, os, Op.GetUserLevel, reply);
  }

  /** `Tapjoy.setMaxLevel`: fire and forget. */
  method SetMaxLevel(native: NativeModule?, os: Platform, maxUserLevel: real) returns (r: Outcome<()>)
    modifies native
    ensures r == Forward(native != null, os, Returned(()))
    ensures native != null ==> native.trace == old(native.trace) + [Op.SetMaxLevel(maxUserLevel)]
  {
    r := Invoke(native, os, Op.SetMaxLevel(maxUserLevel), Returned(()));
  }

  /** `Tapjoy.getMaxLevel`. */
  method GetMaxLevel<R>(native: NativeModule?, os: Platform, reply: Outcome<R>) returns (r: Outcome<R>)
    modifies native
    ensures r == Forward(native != null, os, reply)
    ensures native != null ==> native.trace == old(native.trace) + [Op.GetMaxLevel]
  {
    r := Invoke(native, os, Op.GetMaxLevel, reply);
  }

  /** `Tapjoy.setUserSegment`: the segment code is forwarded as given. */
  method SetUserSegment(native: NativeModule?, os: Platform, segment: int) returns (r: Outcome<()>)
    modifies native
    ensures r == Forward(native != null, os, Returned(()))
    ensures native != null ==> native.trace == old(native.trace) + [Op.SetUserSegment(segment)]
  {
    r := Invoke(native, os, Op.SetUserSegment(segment), Returned(()));
  }

  /** `Tapjoy.getUserSegment`. */
  method GetUserSegment<R>(native: NativeModule?, os: Platform, reply: Outcome<R>) returns (r: Outcome<R>)
    modifies native
    ensures r == Forward(native != null, os, reply)
    ensures native != null ==> native.trace == old(native.trace) + [Op.GetUserSegment]
  {
    r := Invoke(native, os, Op.GetUserSegment, reply);
  }

  /** `Tapjoy.setUserTags`: fire and forget. */
  method SetUserTags(native: NativeModule?, os: Platform, tags: seq<string>) returns (r: Outcome<()>)
    modifies native
    ensures r == Forward(native != null, os, Returned(()))
    ensures native != null ==> native.trace == old(native.trace) + [Op.SetUserTags(tags)]
  {
    r := Invoke(native, os, Op.SetUserTags(tags), Returned(()));
  }

  /** `Tapjoy.getUserTags`. */
  method GetUserTags<R>(native: NativeModule?, os: Platform, reply: Outcome<R>) returns (r: Outcome<R>)
    modifies native
    ensures r == Forward(native != null, os, reply)
    ensures native != null ==> native.trace == old(native.trace) + [Op.GetUserTags]
  {
    r := Invoke(native, os, Op.GetUserTags, reply);
  }

  /** `Tapjoy.clearUserTags`: fire and forget. */
  method ClearUserTags(native: NativeModule?, os: Platform) returns (r: Outcome<()>)
    modifies native
    ensures r == Forward(native != null, os, Returned(()))
    ensures native != null ==> native.trace == old(native.trace) + [Op.ClearUserTags]
  {
    r := Invoke(native, os, Op.ClearUserTags, Returned(()));
  }

  /** `Tapjoy.addUserTag`: fire and forget. */
  method AddUserTag(native: NativeModule?, os: Platform, tag: string) returns (r: Outcome<()>)
    modifies native
    ensures r == Forward(native != null, os, Returned(()))
    ensures native != null ==> native.trace == old(native.trace) + [Op.AddUserTag(tag)]
  {
    r := Invoke(native, os, Op.AddUserTag(tag), Returned(()));
  }

  /** `Tapjoy.removeUserTag`: fire and forget. */
  method RemoveUserTag(native: NativeModule?, os: Platform, tag: string) returns (r: Outcome<()>)
    modifies native
    ensures r == Forward(native != null, os, Returned(()))
    ensures native != null ==> native.trace == old(native.trace) + [Op.RemoveUserTag(tag)]
  {
    r := Invoke(native, os, Op.RemoveUserTag(tag), Returned(()));
  }
}
