/** The ledger's transaction record, as far as the Provider builds it. */
module FuelTx {
  import opened FuelTypes

  /** Spend inputs and value outputs are copied, never inspected, by the Provider;
      they are kept here as opaque encodings. */
  datatype Input = Input(encoding: seq<byte>)
  datatype Output = Output(encoding: seq<byte>)
  datatype Witness = Witness(data: seq<byte>)
  /** Cached derived data (identifiers, offsets) a transaction may carry. */
  datatype Metadata = Metadata(cache: seq<byte>)

  /** Caller-chosen fee and timing parameters. */
  datatype TxParameters = TxParameters(gasPrice: u64, gasLimit: u64, bytePrice: u64, maturity: u64)

  datatype Transaction =
    | Script(
        gasPrice: u64,
        gasLimit: u64,
        bytePrice: u64,
        maturity: u64,
        receiptsRoot: Bytes32,
        script: seq<byte>,
        scriptData: seq<byte>,
        inputs: seq<Input>,
        outputs: seq<Output>,
        witnesses: seq<Witness>,
        metadata: Option<Metadata>)
    | Create(
        gasPrice: u64,
        gasLimit: u64,
        bytePrice: u64,
        maturity: u64,
        bytecodeWitnessIndex: byte,
        salt: Bytes32,
        staticContracts: seq<Bytes32>,
        inputs: seq<Input>,
        outputs: seq<Output>,
        witnesses: seq<Witness>,
        metadata: Option<Metadata>)

  /** The byte encoding of the single instruction RET(REG_ONE): return immediately.
      Its bytes come from the virtual machine's instruction encoding and are left
      uninterpreted here. */
  const RetRegOneScript: seq<byte>

  /** The default (all-zero) 32-byte value. */
  const ZeroBytes32: Bytes32 := [0, 0, 0, 0, 0, 0, 0, 0, 0, 0, 0, 0, 0, 0, 0, 0, 0, 0, 0, 0, 0, 0, 0, 0, 0, 0, 0, 0, 0, 0, 0, 0]

  /** The fee and timing parameters a transaction carries. */
  function Params(tx: Transaction): TxParameters {
    TxParameters(tx.gasPrice, tx.gasLimit, tx.bytePrice, tx.maturity)
  }

  /** A transfer: a script transaction whose script does nothing but return, so
      that its whole effect is the movement of value from its inputs to its
      outputs; it carries no script data, no witnesses (it is not signed yet),
      a default receipts root and no metadata. */
  predicate IsTransferTx(tx: Transaction) {
    && tx.Script?
    && tx.script == RetRegOneScript
    && tx.scriptData == []
    && tx.witnesses == []
    && tx.receiptsRoot == ZeroBytes32
    && tx.metadata == None
  }
}
