# Transaction model of a minimal proof-of-work ledger

This project models the transaction layer of a small UTXO ledger written in
Go (package `blockchain`): the three records `Transaction`, `TxInput` and
`TxOutput`, the construction of the coinbase (minting) transaction, the
coinbase recogniser, the two ownership checks, and `setID`, which writes a
digest of the transaction into its own `ID` field.

Everything lives in `transaction.dfy`, module `Blockchain`:

- `TxInput`, `TxOutput` and `TxRecord` are datatypes: the Go structs as
  values. `TxRecord` is what the digest is taken over.
- `Transaction` is a class. `CoinbaseTx` builds it and then changes it in
  place with `SetID`, just as the Go code does through its pointer receiver.
  `SetID` may write the `id` field only (`modifies this`id`).
- `IsCoinBase`, `CanUnlock` and `CanBeUnlocked` are single boolean
  expressions in the source, and they are predicates here. `IsCoinBase`
  sits on `TxRecord`; an object reaches it through `Value()`.
- The digest is a gob encoding followed by SHA-256. Here it is a parameter
  `hash: TxRecord -> Digest`: any function of the transaction's current
  contents that returns 32 bytes. The model says nothing about the encoding
  or the hash beyond that.
- Go's `int` fields (`Value`, `Out`) are 32 or 64 bits wide depending on
  the platform; the model takes the 64-bit case, the `int64` newtype. Byte
  slices are `seq<byte>`. Go's `nil` slice and the empty slice are both the
  empty sequence: `IsCoinBase` only looks at their length.

Two points about the identifier and the reward:

- `setID` hashes the whole transaction, including the `ID` it holds at that
  moment (`id == hash(old(Value()))` in `SetID`). `CoinbaseTx` calls it
  while `ID` is still nil, so the coinbase identifier is not part of its
  own digest.
- The reward is the literal 100 (blockchain/transaction.go:47), named
  `CoinbaseReward` here.

A consequence of the source, proved in `CoinbaseIdentifierDetermined`:
the identifier depends only on the recipient and the effective unlocking
data. So every coinbase to the same address with empty data gets the same
identifier. It is the same again for data `"Coins to " + address`.

## Model

| member | source | states |
|---|---|---|
| `Blockchain.Transaction.SetID` | blockchain/transaction.go:28-38 | only `id` may change (frame `this`id`); the new `id` is the digest of the transaction as it was before the call, identifier included; it is 32 bytes long; `inputs` and `outputs` are unchanged |
| `Blockchain.Transaction.constructor` | blockchain/transaction.go:49-53 | the composite literal: the object holds exactly the given identifier, inputs and outputs |
| `Blockchain.CoinbaseSig` | blockchain/transaction.go:42-46 | the coinbase input's unlocking data is `data` when `data` is non-empty and `"Coins to " + to` when it is empty, so it is never empty |
| `Blockchain.CoinbaseRecord` | blockchain/transaction.go:42-53 | before its identifier is set, the coinbase has a nil identifier, exactly one input and exactly one output; the input has an empty referenced ID, `Out == -1` and the unlocking data above; the output is worth 100 and is locked to `to`; the record satisfies `IsCoinBase` |
| `Blockchain.CoinbaseTx` | blockchain/transaction.go:41-57 | returns a fresh object whose inputs and outputs are those of `CoinbaseRecord(to, data)` and whose `id` is the 32-byte digest of that record under a nil identifier; the result is recognised as a coinbase |
| `Blockchain.TxRecord.IsCoinBase` | blockchain/transaction.go:60-62 | true iff there is exactly one input, its referenced ID has length 0 and its `Out` is -1 |
| `Blockchain.TxInput.CanUnlock` | blockchain/transaction.go:67-69 | true iff the input's `Sig` equals the given data |
| `Blockchain.TxOutput.CanBeUnlocked` | blockchain/transaction.go:73-75 | true iff the output's `PubKey` equals the given data |
| `Blockchain.IsCoinBaseIff` | blockchain/transaction.go:60-62 | `IsCoinBase` holds iff the input list is exactly one input with an empty referenced ID and `Out == -1`, whatever its unlocking data and outputs; it is false when the input count is not 1, when the first input's ID is non-empty, or when its `Out` is not -1 |
| `Blockchain.RecogniserMatchesConstructor` | blockchain/transaction.go:42-62 | the recogniser agrees with the constructor: an input list is built by `CoinbaseTx` for some recipient and data iff `IsCoinBase` accepts it and its unlocking data is non-empty |
| `Blockchain.RecogniserWiderThanConstructor` | blockchain/transaction.go:42-62 | a sentinel input with empty unlocking data is recognised as a coinbase but is built by no call of `CoinbaseTx` |
| `Blockchain.AuthorisationMatches` | blockchain/transaction.go:67-75 | some key passes both `CanUnlock` on an input and `CanBeUnlocked` on an output iff the input's `Sig` equals the output's `PubKey` |
| `Blockchain.CoinbaseOwnedByRecipient` | blockchain/transaction.go:47-52 | the coinbase output can be unlocked by the recipient `to` and by no other key |
| `Blockchain.CoinbaseIdentifierDetermined` | blockchain/transaction.go:41-57 | for any digest function, two coinbases to the same recipient with the same effective unlocking data get the same identifier; empty data and `"Coins to " + to` give the same identifier |

## Left out

- The gob encoding and SHA-256 inside `setID` (blockchain/transaction.go:32-36) are library calls. They are the parameter `hash`. The byte format is not modelled.
- `CheckError` (blockchain/transaction.go:34) is defined in a file that is not part of this model. It aborts when encoding fails. The model assumes encoding always succeeds.
- Nil receivers are not modelled. `IsCoinBase`, `CanUnlock` and `CanBeUnlocked` take pointer receivers (blockchain/transaction.go:60, 67, 73) and read a field through them, so a nil receiver panics in Go. Here they are predicates on values, where that case cannot arise.
- Go's `string` is a byte string, while `string` here is `seq<char>`. A Go string holding invalid UTF-8 has no model value. Equality, emptiness and `"Coins to " + to` behave the same for valid text.
- cli/cli.go: argument parsing, printing, process exit, database handles and wallet calls. This is I/O plumbing over code that is not part of this model.
- The balance sum in `getBalance` (cli/cli.go:111-118) sums what `FindUTXO` returns. `FindUTXO` and the address decoding before it are not part of this model.
- Block, Blockchain, ProofOfWork, UTXOSet, `NewTransaction` and `AddBlock` are not part of this model. Their source is not among the modelled files.
