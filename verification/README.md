# Polkaswap bridge commands and relay cycle, in Dafny

This project models two pieces of the polkaswap pallet of the layer-cake
swap node.

- **The `ContractMethod` envelope** (module `ContractMethods`,
  `contract_method.dfy`). A bridge command is one of eight variants
  (`DepositToken`, `DepositETH`, `WithdrawETH`, `WithdrawToken`,
  `SwapToToken`, `SwapToETH`, `AddLiquidity`, `RemoveLiquidity`). Each one
  wraps a `SenderAmount`. On the wire a command is one tag byte (0 to 7)
  followed by the encoding of its `SenderAmount`. The decoder reads the tag
  byte first. It then decodes the payload, and only after that does it look
  the tag up. A tag of 8 or more is an error. The model also covers the
  per-variant label that `Display` prints, such as `[Deposit Token]`.
- **The offchain relay cycle** (module `OffchainTx`, `offchain_tx.dfy`).
  `offchain_signed_tx` takes the Ethereum block number `number` that
  `get_last_eth_block` returns (pallets/polkaswap/src/offchain_tx.rs:13). It
  fetches the commands of blocks `number - 3` to `number` and submits every
  command through `send_command`. A failed submission sets a flag, and the
  loop carries on with the next command. The cycle fails with
  `OffchainSignedTxError` if the flag was set. `send_command` picks the
  on-chain call for the command and maps the signer's outcome: no account
  gives `NoLocalAcctForSigning`, a rejected transaction gives
  `OffchainSignedTxError`, and an accepted one gives `Ok`.

`SenderAmount` is an opaque type. Its codec is a parameter of type
`PayloadCodec`: an encoder, plus a streaming decoder that returns the value
and the unread rest of its input. The pallet's own `SenderAmount` codec is
not part of this model. Every property that depends on it states its
assumption as a `requires`:

- `RoundTrips`: decoding an encoding gives the value back and leaves the rest
  of the input unread.
- `Canonical`: whatever the decoder accepts is the encoding of what it
  returns, followed by the unread rest.
- `FixedWidth`: every encoding has the same length.

The block-number reader, the event fetcher and the signer are inputs to the
model:

- the block number is a `Result<u64, PalletError>`;
- the fetcher is a function from a block range to a `Result` holding a
  command sequence;
- the signer is a function giving the outcome of the `n`-th submission of a
  batch for the call it is handed.

Each cycle returns a `Run` record. It holds the cycle's result, the block
range passed to the fetcher, and the calls handed to the signer with the
outcomes it gave back, in order. Contracts can therefore state what was
fetched and what was submitted.

A missing signing account does not stop the batch. `send_command` returns
`NoLocalAcctForSigning` (pallets/polkaswap/src/offchain_tx.rs:105-107), and
the loop at pallets/polkaswap/src/offchain_tx.rs:24-33 sets the flag and
carries on. Every remaining command is still submitted, and the cycle reports
`OffchainSignedTxError`.

## Model

| member | source | states |
|---|---|---|
| ContractMethods.Tag | pallets/polkaswap/src/entities/contract_method.rs:25-34 | the encoder gives every variant a tag below 8 |
| ContractMethods.FromTag | pallets/polkaswap/src/entities/contract_method.rs:42-52 | the decoder maps a tag to a variant exactly when the tag is below 8, and that variant carries the decoded payload unchanged |
| ContractMethods.TagTablesAgree | pallets/polkaswap/src/entities/contract_method.rs:23-54 | the encoder's tag table and the decoder's tag table are inverses of each other, in both directions |
| ContractMethods.EncodeItem | pallets/polkaswap/src/entities/contract_method.rs:57-62 | the output is the tag byte followed by the payload encoding, so it is one byte longer than the payload |
| ContractMethods.Encode | pallets/polkaswap/src/entities/contract_method.rs:23-36 | the first byte is the variant's fixed wire tag (DepositToken=0 … RemoveLiquidity=7), and the rest is exactly the payload encoding, of length 1 + that encoding's length |
| ContractMethods.Decode | pallets/polkaswap/src/entities/contract_method.rs:38-54 | empty input fails with the end-of-input error; a payload error is reported as it is, even when the tag is also bad; a tag of 8 or more with a good payload fails with "Unknown contract method type"; decoding succeeds exactly when the input is non-empty, the tag is below 8 and the payload decodes, and then the command has that tag and payload and the rest is what the payload decoder left |
| ContractMethods.DecodeEncode | pallets/polkaswap/src/entities/contract_method.rs:23-54 | if the payload codec round-trips, decoding `Encode(c) + rest` gives back `c` and leaves `rest` unread, for all eight variants |
| ContractMethods.EncodeDecode | pallets/polkaswap/src/entities/contract_method.rs:38-62 | if the payload codec is canonical, any input that decodes is the encoding of the decoded command followed by the unread rest |
| ContractMethods.EncodeInjective | pallets/polkaswap/src/entities/contract_method.rs:23-54 | if the payload codec round-trips, two commands with the same encoding are equal |
| ContractMethods.DistinctVariantsEncodeDistinctly | pallets/polkaswap/src/entities/contract_method.rs:26-33 | commands of different variants differ in their first byte and so in their encodings, whatever their payloads |
| ContractMethods.UnknownTagRejected | pallets/polkaswap/src/entities/contract_method.rs:40-51 | if the payload codec round-trips, a tag of 8 or more followed by a valid payload and any trailing bytes fails with "Unknown contract method type" |
| ContractMethods.TruncatedInputRejected | pallets/polkaswap/src/entities/contract_method.rs:40-41 | if the payload codec is canonical and fixed-width, input shorter than 1 + the payload width never decodes |
| ContractMethods.Label | pallets/polkaswap/src/entities/contract_method.rs:73-108 | each variant's label is a bracketed name, with `[` first, `]` last and no other `]` |
| ContractMethods.LabelsDistinct | pallets/polkaswap/src/entities/contract_method.rs:73-108 | two commands have the same label exactly when they have the same variant |
| ContractMethods.Display | pallets/polkaswap/src/entities/contract_method.rs:73-108 | the log line starts with the variant's label and is longer than the label |
| ContractMethods.DisplayDeterminesVariant | pallets/polkaswap/src/entities/contract_method.rs:73-108 | two equal log lines come from the same variant, whatever sender and amount texts follow the label |
| OffchainTx.SelectCall | pallets/polkaswap/src/offchain_tx.rs:54-93 | exactly DepositToken and DepositETH are submitted as `deposit_token`, with the command's own payload unchanged; every other variant is submitted as the placeholder call |
| OffchainTx.SendCommand | pallets/polkaswap/src/offchain_tx.rs:41-108 | the signer is handed the call `SelectCall` picks for the command; the result is `Ok` exactly when the signer found an account and the transaction was accepted; it is `NoLocalAcctForSigning` exactly when no account was available; any other failure is `OffchainSignedTxError` |
| OffchainTx.OffchainSignedTx | pallets/polkaswap/src/offchain_tx.rs:8-39 | a failed `get_last_eth_block` is returned as it is, with no fetch and nothing submitted; otherwise the fetch range is exactly [number - 3, number]; a failed fetch is returned as it is, with nothing submitted; otherwise every fetched command's call is handed to the signer once and in order, even after earlier failures, and the signer's outcome for it is the one recorded; the result is `Ok` exactly when every submission succeeded (so an empty batch succeeds), and `OffchainSignedTxError` otherwise |
| OffchainTx.MissingAccountFailsBatch | pallets/polkaswap/src/offchain_tx.rs:24-38 | a submission that finds no signing account yields `NoLocalAcctForSigning` for its command and makes the batch not all-sent, so by `OffchainSignedTx`'s contract the cycle reports `OffchainSignedTxError` |

## Left out

- `SenderAmount`: its fields, its encoding and its `Display` are not part of this model. Its codec is a parameter, and properties that need it to behave say so in their `requires`.
- Signer and transaction broadcast (`Signer::any_account`, `send_signed_transaction`): replaced by the outcome function `Submitter`, which gets the submission's position in the batch and the call.
- Block-number reader and event fetcher (`get_last_eth_block`, `get_erc20transfer_events`): replaced by input values. The hard-coded token contract address passed to the fetcher is dropped.
- What the block number from `get_last_eth_block` stands for: that function is not part of this model, so the model only uses the number as the top of the fetch range.
- OffchainTx.OffchainSignedTx: requires a block number of at least 3. For a smaller one, the `u64` subtraction `number - 3` underflows: it panics with overflow checks on and wraps without them. The model covers neither.
- OffchainTx.SelectCall: the source's `match` in `send_command` names `Withdraw` and `WithdrawLiquidity`, which are not variants of the enum at pallets/polkaswap/src/entities/contract_method.rs:12-21. Read against that enum, it has no arm for `WithdrawETH`, `WithdrawToken` or `RemoveLiquidity`, and its other arms submit `set_value(32)` as a placeholder. The model submits one placeholder call for all six variants other than the two deposits.
- `send_command`'s command type: pallets/polkaswap/src/offchain_tx.rs:5 imports `ContractMethod` from `crate::methods`, which is not part of this model; the model takes it to be the enum of pallets/polkaswap/src/entities/contract_method.rs.
- Logging (`debug::info!`, `debug::error!`) and the `Debug` implementation, which only forwards to `Display`.
- The sender and amount text in the `Display` output: `Display` takes them as already-formatted strings.
- Per-block invocation of the relay cycle, and storing or advancing a processed-block marker: neither appears in this code.
