/**
 * The native module of the SDK, seen from the script side: an opaque
 * command surface whose only observable effect here is the ordered trace of
 * the calls made to it. Its answers are supplied to the model as inputs.
 */
module Native {

  /** One call on the native command surface, with the arguments as sent. */
  datatype Op =
    | CreatePlacement(placement: string)
    | RequestPlacement(placement: string)
    | ShowPlacement(placement: string)
    | IsContentReady(placement: string)
    | IsContentAvailable(placement: string)
    | SetCurrencyBalance(amount: real, currencyId: string, placement: string)
    | GetPlacementCurrencyBalance(currencyId: string, placement: string)
    | SetRequiredAmount(amount: real, currencyId: string, placement: string)
    | GetRequiredAmount(currencyId: string, placement: string)
    | SetEntryPoint(placement: string, index: int)
    | GetEntryPoint(placement: string)
    | Connect(sdkKey: string, flags: map<string, string>)
    | IsConnected
    | GetCurrencyBalance
    | SpendCurrency(amount: real)
    | AwardCurrency(amount: real)
    | TrackPurchase(currencyCode: string, price: real)
    | SetDebugEnabled(enable: bool)
    | SetUserId(userId: string)
    | GetUserId
    | SetUserLevel(level: real)
    | GetUserLevel
    | SetMaxLevel(level: real)
    | GetMaxLevel
    | SetUserSegment(segment: int)
    | GetUserSegment
    | SetUserTags(tags: seq<string>)
    | GetUserTags
    | ClearUserTags
    | AddUserTag(tag: string)
    | RemoveUserTag(tag: string)

  /** The linked native module; `trace` lists every call it has received, oldest first. */
  class NativeModule {
    var trace: seq<Op>
  }
}
