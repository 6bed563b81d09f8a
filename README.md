# Tapjoy React Native SDK: placement and connect listeners in Dafny

This project models the script-side core of the Tapjoy React Native SDK and
proves what its event handling does.

- **`TJPlacement`** (`placement.dfy`). A placement handle is a class.
  - Constructing one registers it with the native module.
  - `requestContent` and `showContent` each subscribe a new listener closure
    to the shared `TapjoyPlacement` channel, then call the native module.
  - A closure reacts to its own event names. It emits a notification to the
    placement's observers, may write `error`, and removes its own
    subscription on a terminal name.
  - The other placement methods forward to the native module.
  - `setEntryPoint` and `getEntryPoint` map an entry point to and from its
    position in the ordered entry-point list.
- **`Tapjoy`** (`tapjoy.dfy`). This is the static facade.
  - `TapjoyAPI` is the native module, or a proxy that throws a fixed linking
    message on every access when the module is missing.
  - `connect` subscribes a one-shot warning listener on the `Tapjoy`
    channel before it calls the native `connect`.
  - The remaining static methods forward to `TapjoyAPI`.
- **Shared modules.** `channel.dfy` holds the channel envelopes and
  subscriptions. A subscription is removed by its handle. `native.dfy` holds
  the native module, which records every call it receives in a trace.
  `common.dfy` holds `Option` (a JavaScript `undefined`) and `Outcome` (a
  returned value, or a thrown error or rejection).

The listener behaviour has two forms:

- As values: `Step` is one closure handling one envelope. `Deliver` is a
  snapshot of listeners handling it in subscription order. `Dispatch` is one
  envelope reaching every live listener. `WarnStep`, `WarnDeliver` and
  `Warn` are the same for `connect`.
- As classes: `Placement.Receive` and `WarningChannel.Receive` run the same
  behaviour in place, with a loop over the snapshot of live listeners. They
  are proved to end in exactly the state the value functions give.

Two lemmas describe a whole envelope in closed form. `DispatchOutcome` gives
the error, the surviving listeners and the appended notifications.
`RequestFailureRecordsError`, `ContentReadyEndsRequest`,
`RequestSuccessKeepsListenerIffAvailable`, `ErrorWrittenOnlyOnFailure` and
`LoneListenerRetires` are corollaries of it; `ShowAppearThenDisappear` and
`IgnoredEvent` are proved directly from `Deliver`. `WarningOutcome` and
`WarningThrows` do the same for `connect`.

The code never compares `event.placement` with the handle's name. Every
placement's listeners therefore react to every placement's envelopes.
`NoPlacementFilter` states this.

The numbers the source passes around are modelled as `real` or `int`.

`spendCurrency` and `awardCurrency` do no local check on the amount: it
reaches the native module as given (`SpendCurrency`, `AwardCurrency`).

The `onWarning` callback of `connect` is called before the listener removes
itself. A callback that throws therefore leaves its listener live, and the
exception leaves the channel's delivery loop, so later warning listeners do
not receive that envelope. Whether a callback throws is an input of each
delivery, the set `throwing` of handles whose callback throws this time, so a
callback may throw on one warning and return on the next. `WarningThrows` and
`ThrowingCallbackStays` state what happens when a callback throws, and the
one-shot lemmas state what happens when none does.

## Model

| member | source | states |
|---|---|---|
| Channel.WithoutMembers | src/TJPlacement.ts:65 | after removal, a subscription is live if and only if it was live before and does not hold the removed handle |
| Channel.WithoutUnique | src/TJPlacement.ts:70 | removing a subscription keeps the live handles distinct |
| TJPlacement.Placement.constructor | src/TJPlacement.ts:48-53 | a new handle has the given name, no error, no listeners and no notifications, and the native module receives exactly one `createPlacement(name)` |
| TJPlacement.CreateTwice | src/TJPlacement.ts:48-53 | two handles with the same name are distinct objects, and the native module receives two `createPlacement(name)` calls (no deduplication) |
| TJPlacement.Placement.RequestContent | src/TJPlacement.ts:58-81 | appends one fresh request listener to the live listeners, leaves error and notifications unchanged, then issues `requestPlacement(name)` |
| TJPlacement.Placement.ShowContent | src/TJPlacement.ts:86-100 | appends one fresh show listener, leaves error and notifications unchanged, then issues `showPlacement(name)` |
| TJPlacement.Placement.Emit | src/TJPlacement.ts:67 | appends one notification that carries the error as it stands at emission |
| TJPlacement.Placement.Unsubscribe | src/TJPlacement.ts:65 | removes the listener holding the handle and keeps the handle invariant |
| TJPlacement.Placement.HandleEvent | src/TJPlacement.ts:61-97 | running one closure on an envelope yields exactly `Step`; only a request listener hearing `requestDidSucceed` calls `isContentAvailable(name)` |
| TJPlacement.Placement.Receive | src/TJPlacement.ts:58-100 | delivering an envelope to the snapshot of live listeners, in subscription order, yields exactly `Dispatch`, and the native module sees each listener's availability query in that order |
| TJPlacement.ReactingPositive | src/TJPlacement.ts:61-97 | the reacting count is positive if and only if some live listener reacts to the name |
| TJPlacement.SurvivorsKeep | src/TJPlacement.ts:61-97 | a listener that the name does not end stays live |
| TJPlacement.DispatchOutcome | src/TJPlacement.ts:58-100 | one envelope: the error becomes the envelope's error exactly when it is `requestDidFail` and some request listener hears it; the survivors are the listeners the name does not end, in order; one notification of that name per reacting listener is appended, each carrying the resulting error |
| TJPlacement.RequestFailureRecordsError | src/TJPlacement.ts:68-72 | on `requestDidFail` the request listener is gone, the error is the envelope's error, and at least one `requestDidFail` is emitted; every such notification carries the new error |
| TJPlacement.ContentReadyEndsRequest | src/TJPlacement.ts:73-77 | on `contentIsReady` the request listener is gone whatever the availability, the error is unchanged, and at least one `contentIsReady` is emitted |
| TJPlacement.RequestSuccessKeepsListenerIffAvailable | src/TJPlacement.ts:62-67 | on `requestDidSucceed` the request listener stays if and only if content is available; the error is unchanged, and at least one `requestDidSucceed` is always emitted |
| TJPlacement.ShowAppearThenDisappear | src/TJPlacement.ts:90-96 | for a lone show listener, `contentDidAppear` keeps it, and `contentDidDisappear` then removes it; exactly two notifications result |
| TJPlacement.IgnoredEvent | src/TJPlacement.ts:61-78 | a name that no listener reacts to changes nothing: no notification, no removal, no error write |
| TJPlacement.ErrorWrittenOnlyOnFailure | src/TJPlacement.ts:71 | only `requestDidFail`, heard by a request listener, changes the error; every other name leaves it as it was |
| TJPlacement.LoneListenerRetires | src/TJPlacement.ts:63-76 | a lone listener that removed itself leaves no listener, so nothing that arrives later changes the placement |
| TJPlacement.NoPlacementFilter | src/TJPlacement.ts:61-78 | the envelope's placement field plays no part in what the listeners do |
| TJPlacement.IndexOf | src/TJPlacement.ts:170 | the position sent is -1 if and only if the entry point is not listed; otherwise it is the first position holding the entry point |
| TJPlacement.EntryPointRoundTrip | src/TJPlacement.ts:169-183 | a listed entry point comes back from the index it is sent as; an unlisted one is sent as -1 and comes back as `undefined`; an index maps to `undefined` if and only if it is out of range; in a list without repeats every in-range index comes back as itself |
| TJPlacement.Placement.SetEntryPoint | src/TJPlacement.ts:169-171 | sends `setEntryPoint(name, index)`, with -1 for an unlisted entry point |
| TJPlacement.Placement.GetEntryPoint | src/TJPlacement.ts:179-183 | maps the native index to the listed entry point, or to `undefined` when out of range; a native rejection propagates |
| TJPlacement.Placement.IsContentReady | src/TJPlacement.ts:107-109 | returns the native answer for `isContentReady(name)` |
| TJPlacement.Placement.IsContentAvailable | src/TJPlacement.ts:116-118 | returns the native answer for `isContentAvailable(name)` |
| TJPlacement.Placement.SetCurrencyBalance | src/TJPlacement.ts:126-131 | sends (balance, currency, placement), in that order, with no range check, and returns the native outcome |
| TJPlacement.Placement.GetCurrencyBalance | src/TJPlacement.ts:139-141 | sends `getPlacementCurrencyBalance(currency, name)` and returns the native outcome |
| TJPlacement.Placement.SetRequiredAmount | src/TJPlacement.ts:149-151 | sends (amount, currency, placement) with no range check and returns the native outcome |
| TJPlacement.Placement.GetRequiredAmount | src/TJPlacement.ts:159-161 | sends `getRequiredAmount(currency, name)` and returns the native outcome |
| Tapjoy.LinkingError | src/Tapjoy.ts:5-9 | the linking message is the fixed header, then the `pod install` hint on iOS and nothing elsewhere, then the fixed causes |
| Tapjoy.ForwardPassesThrough | src/Tapjoy.ts:11-20 | with the module missing every forwarded call throws the linking message; with it linked the native outcome passes through unchanged |
| Tapjoy.Invoke | src/Tapjoy.ts:11-20 | a call through `TapjoyAPI` reaches the native module only when it is linked, and otherwise throws the linking message |
| Tapjoy.WarningChannel.constructor | src/Tapjoy.ts:36 | the `Tapjoy` channel starts with no listeners and no callback calls |
| Tapjoy.WarningChannel.Subscribe | src/Tapjoy.ts:37-45 | appends one listener with a fresh handle and keeps every handle distinct |
| Tapjoy.WarningChannel.HandleEvent | src/Tapjoy.ts:39-44 | running the warning closure yields exactly `WarnStep`: on the warning name it calls back (if it has a callback) and then removes itself; a callback that throws on this call skips the removal and reports the throw |
| Tapjoy.WarningChannel.Receive | src/Tapjoy.ts:37-45 | delivering an envelope to the snapshot of live warning listeners, stopping at the first callback that throws, yields exactly `Warn`, including whether a callback threw |
| Tapjoy.CallbacksMatchListeners | src/Tapjoy.ts:41 | among the listeners a warning reaches (all of them when no callback throws, the first k+1 when the callback at position k is the first to throw), a handle is called back if and only if its listener has a callback |
| Tapjoy.WarningOutcome | src/Tapjoy.ts:40-43 | when no callback throws, a warning removes every warning listener and calls back exactly those with a callback, once each, in order; any other name changes nothing |
| Tapjoy.WarningThrows | src/Tapjoy.ts:40-43 | when the callback at position k is the first that throws, the listeners before it are removed and called back if they have a callback, the thrower is called and stays live, the listeners after it are not reached, and the delivery ends by the throw |
| Tapjoy.OtherNameIgnored | src/Tapjoy.ts:40 | an envelope with any other name leaves the listeners in place and calls nothing |
| Tapjoy.SecondWarningSilent | src/Tapjoy.ts:42 | after one warning in which no callback threw, nothing listens, so whatever arrives next produces no callback and changes nothing |
| Tapjoy.WarningCallsBackOnce | src/Tapjoy.ts:41-42 | a lone listener whose callback returns on this warning: the warning calls it exactly once, with the envelope, and removes it |
| Tapjoy.WarningWithoutCallback | src/Tapjoy.ts:41-42 | a lone listener without a callback: a warning only removes it |
| Tapjoy.ThrowingCallbackStays | src/Tapjoy.ts:41-42 | a lone listener whose callback throws on a warning is called and not removed, and the delivery ends by the throw; the next warning calls it again, and removes it exactly when the callback returns that time |
| Tapjoy.Connect | src/Tapjoy.ts:33-47 | subscribes the warning listener first, so it stays registered even when the call throws; sends `connect(sdkKey, flags)`; returns exactly the native outcome, or the linking error when the module is missing |
| Tapjoy.IsConnected | src/Tapjoy.ts:54-56 | forwards `isConnected()`; returns the native outcome, or the linking error |
| Tapjoy.GetCurrencyBalance | src/Tapjoy.ts:63-65 | forwards `getCurrencyBalance()`; returns the native outcome, or the linking error |
| Tapjoy.SpendCurrency | src/Tapjoy.ts:74-76 | forwards the amount unchanged, with no local validation |
| Tapjoy.AwardCurrency | src/Tapjoy.ts:85-87 | forwards the amount unchanged, with no local validation |
| Tapjoy.TrackPurchase | src/Tapjoy.ts:98-100 | forwards the currency code and price and discards the native answer |
| Tapjoy.SetDebugEnabled | src/Tapjoy.ts:109-111 | forwards the flag and discards the native answer |
| Tapjoy.SetUserId | src/Tapjoy.ts:123-125 | forwards the user ID; returns the native outcome |
| Tapjoy.GetUserId | src/Tapjoy.ts:132-134 | forwards `getUserId()`; returns the native outcome |
| Tapjoy.SetUserLevel | src/Tapjoy.ts:142-144 | forwards the level and discards the native answer |
| Tapjoy.GetUserLevel | src/Tapjoy.ts:151-153 | forwards `getUserLevel()`; returns the native outcome |
| Tapjoy.SetMaxLevel | src/Tapjoy.ts:161-163 | forwards the maximum level and discards the native answer |
| Tapjoy.GetMaxLevel | src/Tapjoy.ts:170-172 | forwards `getMaxLevel()`; returns the native outcome |
| Tapjoy.SetUserSegment | src/Tapjoy.ts:180-182 | forwards the segment and discards the native answer |
| Tapjoy.GetUserSegment | src/Tapjoy.ts:190-192 | forwards `getUserSegment()`; returns the native outcome |
| Tapjoy.SetUserTags | src/Tapjoy.ts:200-202 | forwards the tags and discards the native answer |
| Tapjoy.GetUserTags | src/Tapjoy.ts:209-211 | forwards `getUserTags()`; returns the native outcome |
| Tapjoy.ClearUserTags | src/Tapjoy.ts:216-218 | forwards `clearUserTags()` and discards the native answer |
| Tapjoy.AddUserTag | src/Tapjoy.ts:226-228 | forwards the tag and discards the native answer |
| Tapjoy.RemoveUserTag | src/Tapjoy.ts:236-238 | forwards the tag and discards the native answer |

## Left out

- Native SDK behaviour is not modelled. Every native call is recorded in the module's trace, and its answer is an input of the model.
- `NativeEventEmitter` and `eventemitter3` are not modelled beyond their observable contract. A channel delivers an envelope to the listeners live when it arrives, in subscription order, and `remove()` drops one subscription. Promises, the event loop and envelopes that never arrive are not modelled. Delivery is one sequential `Receive` per envelope.
- TJPlacement.Placement.Receive: one availability answer is used for every `isContentAvailable` query made while one envelope is delivered. Answers that change between listeners of the same envelope are not modelled.
- TJPlacement.Placement.Receive: a placement's model holds only its own listeners. The shared channel interleaves the listeners of all placements, but the code never filters on `event.placement`, so each placement's resulting state is the same; `NoPlacementFilter` states this. The order of availability queries in one native trace shared by several placements is not captured: in the source they interleave in subscription order across placements.
- Observers registered with the placement's own emitter are not modelled one by one. Each emission is a notification in an append-only log, with the error the observers read at that moment. The model assumes observers return normally: an observer that throws stops the emission and, through the closure, the delivery of that envelope to the remaining placement listeners, which the model does not capture.
- `TJPlacement` calls the raw native module, not `TapjoyAPI`. The `TypeError` it raises when the package is not linked is not modelled; its methods take a linked module.
- Tapjoy.Connect: building a `NativeEventEmitter` over a missing module may itself throw on some platforms. The model always subscribes the listener and then goes through `TapjoyAPI`.
- The contents of `TJEntryPoint`, `TJConnect` and `TJSegment` are not part of this model. The ordered entry-point list is a parameter, the warning name is the `warningName` of the warning channel, and a segment is an `int`.
- JavaScript numbers are modelled as `real` (currency and levels) or `int` (indices and segments). Floating-point rounding is not modelled. The connect flags are a `map<string, string>`.
- `src/TJPrivacyPolicy.ts` is not part of this model. It holds thin native forwards with console logging.
- `src/index.ts` (re-exports) is not part of this model, nor is the example application `example/src/MainScreen.tsx`.
- The compiled copies under `lib/commonjs/` and the declarations under `lib/typescript/` repeat the `src/` logic, which is modelled once.
