/** Value types shared by the client, the transaction builder and the Provider:
    fixed-width integers, identifiers, coins, balances and the pagination
    records of the node's query protocol. */
module FuelTypes {

  newtype byte = x: int | 0 <= x < 0x100

  /** Amounts, gas values and block heights are 64-bit words on the ledger. */
  newtype u64 = x: int | 0 <= x < 0x1_0000_0000_0000_0000

  type Bytes32 = s: seq<byte> | |s| == 32 witness [0, 0, 0, 0, 0, 0, 0, 0, 0, 0, 0, 0, 0, 0, 0, 0, 0, 0, 0, 0, 0, 0, 0, 0, 0, 0, 0, 0, 0, 0, 0, 0]

  /** An account identifier (32 bytes); the wire protocol carries its string form. */
  datatype Address = Address(bytes: Bytes32)

  /** A fungible asset identifier (32 bytes). */
  datatype AssetId = AssetId(bytes: Bytes32)

  /** The identifier the node assigns to a submitted transaction. */
  datatype TxId = TxId(bytes: Bytes32)

  /** Reference to an unspent output: the producing transaction and the output's index. */
  datatype UtxoId = UtxoId(txId: Bytes32, outputIndex: byte)

  datatype CoinStatus = Unspent | Spent

  /** An unspent output as the node reports it. The Provider never inspects these fields. */
  datatype Coin = Coin(
    utxoId: UtxoId,
    owner: Address,
    amount: u64,
    assetId: AssetId,
    maturity: u64,
    status: CoinStatus,
    blockCreated: u64)

  /** One entry of the node's balance list: the total of an owner's coins of one asset. */
  datatype Balance = Balance(owner: Address, amount: u64, assetId: AssetId)

  /** A record the node emits while executing a transaction; opaque to the Provider. */
  datatype Receipt = Receipt(encoding: seq<byte>)

  /** A transport or protocol failure (Rust's io::Error), opaque to the Provider. */
  datatype IoError = IoError(message: string)

  datatype Option<+T> = None | Some(value: T)

  datatype Result<+T, +E> = Ok(value: T) | Err(error: E)

  /** Server-issued pagination token. */
  type Cursor = string

  datatype PageDirection = Forward | Backward

  /** Where a page starts, how many entries it may hold and which way it runs. */
  datatype PaginationRequest = PaginationRequest(cursor: Option<Cursor>, results: nat, direction: PageDirection)

  /** One page of answers and the cursor to continue from. */
  datatype PaginatedResult<+T> = PaginatedResult(cursor: Option<Cursor>, results: seq<T>)
}
