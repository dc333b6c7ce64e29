/** The remote node's query and submission API, seen from the client side.
    The node is modelled by the answers it gives: one total function per
    endpoint. Within one Provider call the node's state is taken to be fixed,
    so the same request always gets the same answer. */
module GqlClient {
  import opened FuelTypes
  import opened FuelTx

  /** One round-trip to the node, as recorded in a trace. */
  datatype Request =
    | CoinsRequest(owner: Address, assetId: Option<AssetId>, page: PaginationRequest)
    | BalancesRequest(owner: Address, page: PaginationRequest)
    | SubmitRequest(tx: Transaction)
    | ReceiptsRequest(id: TxId)

  /** The endpoints the Provider uses, with the node's answer to each possible request. */
  datatype Client = Client(
    coins: (Address, Option<AssetId>, PaginationRequest) -> Result<PaginatedResult<Coin>, IoError>,
    balances: (Address, PaginationRequest) -> Result<PaginatedResult<Balance>, IoError>,
    submit: Transaction -> Result<TxId, IoError>,
    receipts: TxId -> Result<seq<Receipt>, IoError>)
}
