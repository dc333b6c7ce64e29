/** The Provider: typed, pagination-resolved operations over the node's client.
    It holds nothing but the client handle. Each operation returns, beside its
    result, the trace of the requests it sent, in order. */
module Provider {
  import opened FuelTypes
  import opened FuelTx
  import opened GqlClient

  /** Failures of the Provider's own operations. */
  datatype ProviderError =
    | TransactionRequestError(message: string)
    | ClientRequestError(cause: IoError)

  /** Page size of every request of the coin listing. */
  const CoinsPageSize: nat := 100

  /** Page size of the single balance-list request. */
  const BalancesPageSize: nat := 9999

  // ---------------------------------------------------------------------------
  // The coin listing, described by its trace of requests
  // ---------------------------------------------------------------------------

  /** The request the coin listing sends for the page starting at `cursor`. */
  function CoinsPageRequest(owner: Address, cursor: Option<Cursor>): Request {
    CoinsRequest(owner, None, PaginationRequest(cursor, CoinsPageSize, Forward))
  }

  /** `r` asks for a forward page of 100 of `owner`'s coins of every asset. */
  predicate IsCoinsPageRequest(owner: Address, r: Request) {
    && r.CoinsRequest?
    && r.owner == owner
    && r.assetId == None
    && r.page.results == CoinsPageSize
    && r.page.direction == Forward
  }

  /** The node's answer to a coins request. */
  function CoinsAnswer(c: Client, r: Request): Result<PaginatedResult<Coin>, IoError>
    requires r.CoinsRequest?
  {
    c.coins(r.owner, r.assetId, r.page)
  }

  /** The answer to `r` is a page with at least one coin. */
  predicate Continues(c: Client, r: Request)
    requires r.CoinsRequest?
  {
    CoinsAnswer(c, r).Ok? && CoinsAnswer(c, r).value.results != []
  }

  /** The coins a request brought back: the page's results, or none on failure. */
  function PageResults(c: Client, r: Request): seq<Coin> {
    if r.CoinsRequest? && CoinsAnswer(c, r).Ok? then CoinsAnswer(c, r).value.results else []
  }

  /** The coins of all pages of `t`, in request order. */
  function Collected(c: Client, t: seq<Request>): seq<Coin>
    decreases |t|
  {
    if t == [] then [] else Collected(c, t[..|t| - 1]) + PageResults(c, t[|t| - 1])
  }

  /** The outcome a trace of page requests stands for: the error of its last
      request if that one failed, and otherwise all coins collected. */
  function CoinsOutcome(c: Client, t: seq<Request>): Result<seq<Coin>, ProviderError> {
    if t != [] && t[|t| - 1].CoinsRequest? && CoinsAnswer(c, t[|t| - 1]).Err?
    then Err(ClientRequestError(CoinsAnswer(c, t[|t| - 1]).error))
    else Ok(Collected(c, t))
  }

  /** `t` is a complete coin listing for `owner`: page requests of the fixed
      shape; the first from cursor None, every later one from exactly the
      cursor the previous page returned; every page but the last answered
      with at least one coin; and the last answered with an error or with no
      coins, whatever cursor it carries. */
  ghost predicate CoinsRun(c: Client, owner: Address, t: seq<Request>) {
    && |t| > 0
    && (forall i :: 0 <= i < |t| ==> IsCoinsPageRequest(owner, t[i]))
    && t[0].page.cursor == None
    && (forall i :: 0 <= i < |t| - 1 ==>
          Continues(c, t[i]) && t[i + 1].page.cursor == CoinsAnswer(c, t[i]).value.cursor)
    && !Continues(c, t[|t| - 1])
  }

  /** A prefix of a coin listing, every page of which had coins, and whose last
      page handed out `cursor` (None before the first request). */
  ghost predicate PartialRun(c: Client, owner: Address, t: seq<Request>, cursor: Option<Cursor>) {
    && (forall i :: 0 <= i < |t| ==> IsCoinsPageRequest(owner, t[i]) && Continues(c, t[i]))
    && (|t| > 0 ==> t[0].page.cursor == None)
    && (forall i :: 0 <= i < |t| - 1 ==> t[i + 1].page.cursor == CoinsAnswer(c, t[i]).value.cursor)
    && cursor == (if t == [] then None else CoinsAnswer(c, t[|t| - 1]).value.cursor)
  }

  /** Following the node's cursors from `cursor`, the listing meets a failed or
      an empty page within `n` requests. The Rust loop has no bound of its own:
      it ends only if the node eventually answers so. */
  predicate Drains(c: Client, owner: Address, cursor: Option<Cursor>, n: nat)
    decreases n
  {
    && n > 0
    && var r := CoinsPageRequest(owner, cursor);
       (!Continues(c, r) || Drains(c, owner, CoinsAnswer(c, r).value.cursor, n - 1))
  }

  // ---------------------------------------------------------------------------
  // The Provider
  // ---------------------------------------------------------------------------

  datatype Provider = Provider(client: Client) {

    /** Submits `tx`, then asks for the receipts of the identifier the node
        returned. A failed submission is returned as is, and no receipts are
        asked for. */
    method SendTransaction(tx: Transaction) returns (result: Result<seq<Receipt>, IoError>, trace: seq<Request>)
      ensures 1 <= |trace| <= 2 && trace[0] == SubmitRequest(tx)
      ensures client.submit(tx).Err? ==> trace == [SubmitRequest(tx)] && result == Err(client.submit(tx).error)
      ensures client.submit(tx).Ok? ==>
                && trace == [SubmitRequest(tx), ReceiptsRequest(client.submit(tx).value)]
                && result == client.receipts(client.submit(tx).value)
      ensures forall r | r in trace && r.ReceiptsRequest? :: client.submit(tx) == Ok(r.id)
    {
      var submitted := client.submit(tx);
      trace := [SubmitRequest(tx)];
      if submitted.Err? {
        return Err(submitted.error), trace;
      }
      var id := submitted.value;
      trace := trace + [ReceiptsRequest(id)];
      result := client.receipts(id);
    }

    /** All coins of `from`, page by page: starts with no cursor, asks for
        forward pages of 100, appends each page's coins and continues from the
        cursor the page returned, until a page comes back empty. A failed
        request ends the listing with that error and no coins. The ghost
        `bound` is a number of requests within which the listing ends. */
    method GetCoins(from: Address, ghost bound: nat) returns (result: Result<seq<Coin>, ProviderError>, trace: seq<Request>)
      requires Drains(client, from, None, bound)
      ensures CoinsRun(client, from, trace)
      ensures |trace| <= bound
      ensures result == CoinsOutcome(client, trace)
      ensures forall i :: 0 <= i < |trace| && CoinsAnswer(client, trace[i]).Err? ==>
                i == |trace| - 1 && result == Err(ClientRequestError(CoinsAnswer(client, trace[i]).error))
      ensures client.coins(from, None, PaginationRequest(None, CoinsPageSize, Forward)).Ok? &&
              client.coins(from, None, PaginationRequest(None, CoinsPageSize, Forward)).value.results == [] ==>
                trace == [CoinsPageRequest(from, None)] && result == Ok([])
    {
      var coins: seq<Coin> := [];
      var cursor: Option<Cursor> := None;
      ghost var fuel := bound;
      trace := [];
      while true
        invariant Drains(client, from, cursor, fuel)
        invariant |trace| + fuel <= bound
        invariant PartialRun(client, from, trace, cursor)
        invariant coins == Collected(client, trace)
        decreases fuel
      {
        var pagination := PaginationRequest(cursor, CoinsPageSize, Forward);
        var res := client.coins(from, None, pagination);
        ghost var before := trace;
        trace := trace + [CoinsRequest(from, None, pagination)];
        assert trace[..|trace| - 1] == before;
        if res.Err? {
          return Err(ClientRequestError(res.error)), trace;
        }
        if res.value.results == [] {
          assert Collected(client, trace) == coins + [];
          break;
        }
        coins := coins + res.value.results;
        cursor := res.value.cursor;
        fuel := fuel - 1;
      }
      assert coins == Collected(client, trace);
      result := Ok(coins);
    }

    /** Builds the transaction that moves value from `inputs` to `outputs`:
        a script transaction with the caller's parameters, inputs and outputs
        taken verbatim, and the transfer shape otherwise. */
    function BuildTransferTx(inputs: seq<Input>, outputs: seq<Output>, params: TxParameters): (tx: Transaction)
      ensures IsTransferTx(tx)
      ensures tx.inputs == inputs && tx.outputs == outputs && Params(tx) == params
    {
      Script(
        gasPrice := params.gasPrice,
        gasLimit := params.gasLimit,
        bytePrice := params.bytePrice,
        maturity := params.maturity,
        receiptsRoot := ZeroBytes32,
        script := RetRegOneScript,
        scriptData := [],
        inputs := inputs,
        outputs := outputs,
        witnesses := [],
        metadata := None)
    }

    /** The balances of `address`: one request for a single forward page of up
        to 9999 entries from the start, whose answer, cursor included, is
        returned as is; no further page is ever asked for. */
    method GetBalances(address: Address) returns (result: Result<PaginatedResult<Balance>, IoError>, trace: seq<Request>)
      ensures trace == [BalancesRequest(address, PaginationRequest(None, BalancesPageSize, Forward))]
      ensures result == client.balances(address, PaginationRequest(None, BalancesPageSize, Forward))
    {
      var pagination := PaginationRequest(None, BalancesPageSize, Forward);
      result := client.balances(address, pagination);
      trace := [BalancesRequest(address, pagination)];
    }
  }

  // ---------------------------------------------------------------------------
  // Properties of the coin listing
  // ---------------------------------------------------------------------------

  lemma {:induction false} RunsAgreeUpTo(c: Client, owner: Address, t1: seq<Request>, t2: seq<Request>, i: nat)
    requires CoinsRun(c, owner, t1) && CoinsRun(c, owner, t2)
    requires i < |t1| && i < |t2|
    ensures t1[i] == t2[i]
  {
    if i > 0 {
      RunsAgreeUpTo(c, owner, t1, t2, i - 1);
    }
  }

  /** The node's answers determine the listing: there is only one complete
      coin listing, so its requests and its outcome do not depend on the
      bound the caller supplies. */
  lemma RunIsUnique(c: Client, owner: Address, t1: seq<Request>, t2: seq<Request>)
    requires CoinsRun(c, owner, t1) && CoinsRun(c, owner, t2)
    ensures t1 == t2
  {
    if |t1| < |t2| {
      RunsAgreeUpTo(c, owner, t1, t2, |t1| - 1);
      assert false;
    } else if |t2| < |t1| {
      RunsAgreeUpTo(c, owner, t1, t2, |t2| - 1);
      assert false;
    } else {
      forall i | 0 <= i < |t1| ensures t1[i] == t2[i] {
        RunsAgreeUpTo(c, owner, t1, t2, i);
      }
    }
  }

  lemma {:induction false} RunDrainsFrom(c: Client, owner: Address, t: seq<Request>, i: nat)
    requires CoinsRun(c, owner, t) && i < |t|
    ensures Drains(c, owner, t[i].page.cursor, |t| - i)
    decreases |t| - i
  {
    assert t[i] == CoinsPageRequest(owner, t[i].page.cursor);
    if i < |t| - 1 {
      RunDrainsFrom(c, owner, t, i + 1);
    }
  }

  /** The precondition of GetCoins is exactly "the listing ends": every
      complete listing of n requests meets Drains with bound n. */
  lemma RunDrains(c: Client, owner: Address, t: seq<Request>)
    requires CoinsRun(c, owner, t)
    ensures Drains(c, owner, None, |t|)
  {
    RunDrainsFrom(c, owner, t, 0);
  }

  /** The loop ignores a None cursor on a page with coins: it asks for the first
      page again. So if the first page has coins and no cursor, the listing
      never ends, and no bound meets the precondition of GetCoins. */
  lemma {:induction false} EndlessWhenFirstCursorIsNone(c: Client, owner: Address, n: nat)
    requires Continues(c, CoinsPageRequest(owner, None))
    requires CoinsAnswer(c, CoinsPageRequest(owner, None)).value.cursor == None
    ensures !Drains(c, owner, None, n)
  {
    if n > 0 {
      EndlessWhenFirstCursorIsNone(c, owner, n - 1);
    }
  }

  lemma {:induction false} CollectedPrefix(c: Client, t: seq<Request>, i: nat)
    requires i <= |t|
    ensures |Collected(c, t[..i])| <= |Collected(c, t)|
    ensures Collected(c, t)[..|Collected(c, t[..i])|] == Collected(c, t[..i])
    decreases |t|
  {
    if i < |t| {
      assert t[..|t| - 1][..i] == t[..i];
      CollectedPrefix(c, t[..|t| - 1], i);
    } else {
      assert t[..i] == t;
    }
  }

  /** No coin is dropped and the order is kept: the j-th coin of the i-th page
      stands in the result right after the coins of the pages before it. */
  lemma CollectedAt(c: Client, t: seq<Request>, i: nat, j: nat)
    requires i < |t| && j < |PageResults(c, t[i])|
    ensures |Collected(c, t[..i])| + j < |Collected(c, t)|
    ensures Collected(c, t)[|Collected(c, t[..i])| + j] == PageResults(c, t[i])[j]
  {
    assert t[..i + 1][..i] == t[..i];
    assert Collected(c, t[..i + 1]) == Collected(c, t[..i]) + PageResults(c, t[i]);
    CollectedPrefix(c, t, i + 1);
  }

  /** Nothing is added: every coin of the result is the j-th coin of some
      page i, at the position CollectedAt names. */
  lemma {:induction false} CollectedOrigin(c: Client, t: seq<Request>, k: nat) returns (i: nat, j: nat)
    requires k < |Collected(c, t)|
    ensures i < |t| && j < |PageResults(c, t[i])|
    ensures k == |Collected(c, t[..i])| + j
    ensures Collected(c, t)[k] == PageResults(c, t[i])[j]
    decreases |t|
  {
    var front := t[..|t| - 1];
    if k < |Collected(c, front)| {
      i, j := CollectedOrigin(c, front, k);
      assert front[..i] == t[..i];
    } else {
      i, j := |t| - 1, k - |Collected(c, front)|;
      assert t[..i] == front;
    }
  }

  /** The number of coins all pages of `t` brought back together. */
  function TotalResults(c: Client, t: seq<Request>): nat
    decreases |t|
  {
    if t == [] then 0 else TotalResults(c, t[..|t| - 1]) + |PageResults(c, t[|t| - 1])|
  }

  /** Nothing is duplicated: the result holds exactly as many coins as the
      pages together. */
  lemma {:induction false} CollectedSize(c: Client, t: seq<Request>)
    ensures |Collected(c, t)| == TotalResults(c, t)
    decreases |t|
  {
    if t != [] {
      CollectedSize(c, t[..|t| - 1]);
    }
  }

  /** Only the last request of a listing can fail, and a failure leaves no
      partial result; a listing that succeeds returns every page's coins. */
  lemma ListingOutcome(c: Client, owner: Address, t: seq<Request>)
    requires CoinsRun(c, owner, t)
    ensures CoinsOutcome(c, t).Err? <==> CoinsAnswer(c, t[|t| - 1]).Err?
    ensures CoinsOutcome(c, t).Ok? ==> CoinsOutcome(c, t).value == Collected(c, t)
    ensures forall i :: 0 <= i < |t| - 1 ==> CoinsAnswer(c, t[i]).Ok?
  {
  }

  // ---------------------------------------------------------------------------
  // Properties of the transfer builder
  // ---------------------------------------------------------------------------

  /** Every transfer-shaped transaction is what the builder makes of its own
      inputs, outputs and parameters, whichever Provider builds it; with the
      builder's ensures this makes the builder a bijection between its
      arguments and the transfer-shaped transactions. */
  lemma TransferTxRoundTrip(p: Provider, tx: Transaction)
    requires IsTransferTx(tx)
    ensures p.BuildTransferTx(tx.inputs, tx.outputs, Params(tx)) == tx
  {
  }
}
