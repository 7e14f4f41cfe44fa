/** One relay cycle of the polkaswap offchain worker: take the Ethereum
    block number `get_last_eth_block` returns, fetch the bridge commands of
    that block and the few below it, submit each of them as a signed
    transaction, and report whether any submission failed.

    The block-number reader, the event fetcher and the transaction signer are
    inputs: `lastEthBlock` is the `Result` the reader returned, the fetcher is
    a function of the block range, and the signer is a function giving the
    outcome of the `n`-th submission of a batch for the call it is handed. */
module OffchainTx {
  import opened Wrappers
  import opened ContractMethods

  newtype u64 = x: int | 0 <= x < 0x1_0000_0000_0000_0000

  /** How many blocks below the returned block number are fetched as well. */
  const RescanDepth: u64 := 3

  /** A local signing account; nothing about it is inspected. */
  type Account

  /** The pallet errors this code raises, and the errors of the block-number
      reader and the event fetcher, which are passed on unchanged. */
  datatype PalletError =
    | NoLocalAcctForSigning
    | OffchainSignedTxError
    | Upstream(name: string)

  /** The on-chain call submitted for a command: `deposit_token` with the
      command's payload, or the one placeholder call used for every other
      variant. */
  datatype Call = DepositTokenCall(payload: SenderAmount) | PlaceholderCall

  /** What `send_signed_transaction` of an `any_account` signer returns:
      no account at all, or the account used and whether the transaction
      was accepted. */
  datatype SignerOutcome = NoAccount | Sent(account: Account, accepted: bool)

  /** The signer's outcome for the `n`-th submission of a batch. */
  type Submitter = (nat, Call) -> SignerOutcome

  /** The event fetcher: the commands found in a block range, in event order. */
  type EventSource = (u64, u64) -> Result<seq<ContractMethod>, PalletError>

  /** One `send_command`: the call handed to the signer, the outcome the
      signer gave back, and the result derived from it. */
  datatype Submission = Submission(call: Call, outcome: SignerOutcome, result: Result<(), PalletError>)

  /** What a relay cycle returns, together with the block range it asked the
      fetcher for (if it got that far), and the calls it handed to the signer
      and the outcomes it got back, in order. */
  datatype Run = Run(
    result: Result<(), PalletError>,
    fetched: Option<(u64, u64)>,
    calls: seq<Call>,
    outcomes: seq<SignerOutcome>)

  /** The call submitted for a command. */
  function SelectCall(cmd: ContractMethod): (call: Call)
    ensures call.DepositTokenCall? <==> cmd.DepositToken? || cmd.DepositETH?
    ensures call.DepositTokenCall? ==> call.payload == cmd.sa
  {
    match cmd
    case DepositToken(sa) => DepositTokenCall(sa)
    case DepositETH(sa) => DepositTokenCall(sa)
    case _ => PlaceholderCall
  }

  /** Submits one command as the `n`-th transaction of the batch and turns the
      signer's three-way outcome into the pallet's result. */
  function SendCommand(n: nat, cmd: ContractMethod, submit: Submitter): (s: Submission)
    ensures s.call == SelectCall(cmd) && s.outcome == submit(n, s.call)
    ensures s.result.Success? <==> s.outcome.Sent? && s.outcome.accepted
    ensures s.result == Failure(NoLocalAcctForSigning) <==> s.outcome.NoAccount?
    ensures s.result.Failure? ==> s.result.error == NoLocalAcctForSigning || s.result.error == OffchainSignedTxError
  {
    var call := SelectCall(cmd);
    var outcome := submit(n, call);
    var result :=
      match outcome
      case NoAccount => Failure(NoLocalAcctForSigning)
      case Sent(_, accepted) => if accepted then Success(()) else Failure(OffchainSignedTxError);
    Submission(call, outcome, result)
  }

  /** Every command of the batch was submitted successfully. */
  predicate AllSent(cmds: seq<ContractMethod>, submit: Submitter)
  {
    forall j :: 0 <= j < |cmds| ==> SendCommand(j, cmds[j], submit).result.Success?
  }

  /** `calls` and `outcomes` hold, for every command in the commands' order,
      the call handed to the signer and the outcome the signer gave for it as
      the `j`-th submission. */
  predicate AttemptedInOrder(calls: seq<Call>, outcomes: seq<SignerOutcome>,
                             cmds: seq<ContractMethod>, submit: Submitter)
  {
    && |calls| == |cmds| && |outcomes| == |cmds|
    && forall j :: 0 <= j < |cmds| ==>
         calls[j] == SelectCall(cmds[j]) && outcomes[j] == submit(j, calls[j])
  }

  /** One relay cycle. A failed block-number read or fetch ends the cycle with
      that error before anything is submitted. Otherwise every command is
      submitted once, in order, whatever happened to the ones before it; the
      cycle succeeds exactly when every submission did, and fails with
      `OffchainSignedTxError` otherwise, also when the cause was a missing
      signing account. */
  method OffchainSignedTx(lastEthBlock: Result<u64, PalletError>, fetch: EventSource, submit: Submitter)
    returns (run: Run)
    requires lastEthBlock.Success? ==> lastEthBlock.value >= RescanDepth
    ensures match lastEthBlock
      case Failure(e) => run == Run(Failure(e), None, [], [])
      case Success(number) =>
        && run.fetched == Some((number - RescanDepth, number))
        && match fetch(number - RescanDepth, number)
           case Failure(e) => run.result == Failure(e) && run.calls == [] && run.outcomes == []
           case Success(cmds) =>
             && AttemptedInOrder(run.calls, run.outcomes, cmds, submit)
             && (run.result == Success(()) <==> AllSent(cmds, submit))
             && (run.result.Failure? ==> run.result.error == OffchainSignedTxError)
  {
    if lastEthBlock.Failure? {
      return Run(Failure(lastEthBlock.error), None, [], []);
    }
    var number := lastEthBlock.value;
    var range := (number - RescanDepth, number);
    var fetched := fetch(range.0, range.1);
    if fetched.Failure? {
      return Run(Failure(fetched.error), Some(range), [], []);
    }
    var txs := fetched.value;
    var errorOccurred := false;
    var calls: seq<Call> := [];
    var outcomes: seq<SignerOutcome> := [];
    for i := 0 to |txs|
      invariant AttemptedInOrder(calls, outcomes, txs[..i], submit)
      invariant errorOccurred <==> !AllSent(txs[..i], submit)
    {
      var sent := SendCommand(i, txs[i], submit);
      calls := calls + [sent.call];
      outcomes := outcomes + [sent.outcome];
      if sent.result.Failure? {
        errorOccurred := true;
      }
    }
    assert txs[..|txs|] == txs;
    var result := if errorOccurred then Failure(OffchainSignedTxError) else Success(());
    return Run(result, Some(range), calls, outcomes);
  }

  /** A missing signing account fails its own command with
      `NoLocalAcctForSigning` and makes the batch not all-sent; by the
      contract of `OffchainSignedTx` the cycle then reports
      `OffchainSignedTxError`. */
  lemma MissingAccountFailsBatch(cmds: seq<ContractMethod>, submit: Submitter, j: nat)
    requires j < |cmds| && submit(j, SelectCall(cmds[j])).NoAccount?
    ensures SendCommand(j, cmds[j], submit).result == Failure(NoLocalAcctForSigning)
    ensures !AllSent(cmds, submit)
  {
  }
}
