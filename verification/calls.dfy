/** The external calls a flow makes, in order: the Horizon client, the
    embedded wallet, `fetch` and the router. */
module Calls {
  import opened AssetConfig
  import opened Ledger
  import opened Http

  datatype Call =
    | LoadAccount(accountId: string)
    | FetchBaseFee
    | StrictSendPaths(sourceAsset: Asset, sourceAmount: string, destinations: seq<Asset>)
    | SubmitTransaction(signed: SignedTx)
    | SignRawHash(request: SignRequest)
    | RefreshUser
    | CreateWallet(chainType: string)
    | Fetch(http: Request)
    | Navigate(path: string)

  predicate NoSubmit(trace: seq<Call>) {
    forall i :: 0 <= i < |trace| ==> !trace[i].SubmitTransaction?
  }

  predicate NoSign(trace: seq<Call>) {
    forall i :: 0 <= i < |trace| ==> !trace[i].SignRawHash?
  }

  predicate NoLoad(trace: seq<Call>) {
    forall i :: 0 <= i < |trace| ==> !trace[i].LoadAccount?
  }

  predicate NoFetch(trace: seq<Call>) {
    forall i :: 0 <= i < |trace| ==> !trace[i].Fetch?
  }
}
