# Consensus-machine capabilities and RPC log details, in Dafny

This project models three small pieces of the Parity Ethereum node:

- **The consensus-machine capability hierarchy** (`machine/src/lib.rs`). These traits let one consensus engine run over several chain representations: `Header`, `ScoredHeader`, `LiveBlock`, `Transactions`, `Machine` and `WithBalances`. Dafny traits are not used. Each trait becomes a *capability record* in module `MachineTypes`: a datatype whose fields are the trait's operations, over type parameters that stand for its associated types. The bound `LiveBlock<Header = Self::Header>` becomes one type parameter `H`, shared by the machine's `HeaderView<H>` and its `LiveBlockView<L, H>`. So a live block whose header type differs from the machine's cannot even be written. An operation that takes `&mut` returns the updated value together with its outcome (`Mutation`). The trait's promises are ghost predicates: `SetScoreReadsBack`, `AddBalanceIncrements` and, for block types without uncles, `HasNoUncles`. `AddBalanceIncrements` demands an exact increment only for credits that stay below 2^256, because the trait leaves the overflow policy to each implementation.
- **A reference ("mock") machine** that gives those contracts something concrete to hold of. `MockMachine` has value-level headers and live blocks, with balances in a map inside the live block. Lemmas show that it satisfies the trait predicates. `MockObjects` holds the same machine with its mutable parts as classes. `ScoredHeader.SetScore` overwrites a score in place. `AddBalance` updates one `LiveBlock` object and `modifies` nothing else. A `LiveBlock` holds its header and uncles as values, so, as with Rust's shared `header()` borrow, nothing outside the block can change them. Each method is specified by the value-level function it implements.
- **The RPC `LogDetails` record** (`rpc/src/v1/types/log_details.rs`). There are two conversions. One builds a "mined" record from a `LocalizedLogEntry`, with all six chain-position fields present. The other builds a "pending" record from a `LogEntry`, with none of them. Both copy address, topics and data, and both write the placeholders `timestamp = 123` and `value = 0`. Inverse readers (`ToLocalized`, `ToEntry`) exist only to state that neither conversion loses information.
- **The log enrichment helpers** (`rpc/src/v1/helpers/log_details.rs`). `Value` and `Timestamp` are the `Option` chains of the source, over a client reduced to two finite maps: transaction hash to transaction, and block hash to header.

Integer widths are explicit. `u64` and `usize` are below 2^64, and `U256` is below 2^256. Hashes (`H256`) and addresses are fixed-length byte strings with no algorithm behind them. The mock takes its hash function as a parameter (`Hasher`) and assumes nothing about it. Like Ethereum's difficulty, the mock's score is part of what its header hashes cover.

The mock needs an overflow policy for `add_balance`, because the trait leaves it open. It uses a checked add: a credit that would reach 2^256 fails with `BalanceOverflow` and leaves the block unchanged. An account that was never credited reads as 0, and `balance` never fails in the mock.

## Model

| member | source | states |
|---|---|---|
| `MachineTypes.BlockAuthors` | machine/src/lib.rs:82-84 | The header and every uncle of a machine's live block are read with the machine's own `Header` capability. The result is the header's author followed by each uncle's author, with length and order kept. |
| `MachineTypes.UnclelessBlockHasOneAuthor` | machine/src/lib.rs:65-67 | For any machine whose live-block type has no uncles (`uncles()` empty for every block), the header's author is the only author a live block exposes. |
| `MachineTypes.DefaultNoteRewardsIsNoOp` | machine/src/lib.rs:113-119 | The default `note_rewards` returns `Ok(())` for any direct and indirect reward lists, empty or not. Afterwards every balance reads as before, for any balance function. |
| `MockMachine.BareHashIgnoresSeal` | machine/src/lib.rs:30-37 | Two headers that differ only in their seal have the same `bare_hash`, whatever the hash algorithm. `seal()` returns the seal exactly as stored. |
| `MockMachine.MockSetScoreReadsBack` | machine/src/lib.rs:46-52 | The mock satisfies `SetScoreReadsBack`: after `set_score(s)`, `score()` is exactly `s`, and seal, author and number are unchanged. |
| `MockMachine.PlainBlockHasNoUncles` | machine/src/lib.rs:65-67 | The mock's plain block type satisfies `HasNoUncles`. On its machine, a block's authors are just its header's author. |
| `MockMachine.MockAddBalanceIncrements` | machine/src/lib.rs:110-111 | The mock satisfies `AddBalanceIncrements`: after a successful credit of `x` to `a` that stays below 2^256, `a`'s balance is the old balance plus `x`. Every other account's balance is unchanged. |
| `MockMachine.AddBalanceFailsOnlyOnOverflow` | machine/src/lib.rs:110-111 | This is the mock's overflow policy, in both directions. A credit fails exactly when the sum reaches 2^256, and a failed credit leaves the block unchanged. Header, uncles and transactions are never touched. |
| `MockObjects.ScoredHeader.SetScore` | machine/src/lib.rs:51-52 | `set_score` in place: the object's value becomes the old header with the new score, and the score reads back exactly as given. |
| `MockObjects.Balance` | machine/src/lib.rs:106-108 | `balance` only reads the live block, which it takes by shared reference, so reading twice gives the same answer. It agrees with the value-level balance of the block's content. |
| `MockObjects.AddBalance` | machine/src/lib.rs:110-111 | `add_balance` modifies only the given live block. Its new content and its outcome are those of the value-level `AddBalance`, so `MockAddBalanceIncrements` and `AddBalanceFailsOnlyOnOverflow` hold of it. |
| `MockObjects.NoteRewards` | machine/src/lib.rs:113-119 | The default `note_rewards` on a live block object returns `Ok(())`. It leaves the block's whole content as before, which is exactly `DefaultNoteRewards`. |
| `MockObjects.CreditOneBlock` | machine/src/lib.rs:110-111 | A credit is confined to one account of one live block. On success the account's balance rises by the amount, and every other account of the target keeps its balance. A failed credit leaves the target unchanged. Every other live block keeps its whole content. |
| `LogDetailsTypes.WrapTopics` | rpc/src/v1/types/log_details.rs:62 | Converting the topics keeps their number and order, and each converted topic wraps the original hash. |
| `LogDetailsTypes.FromLocalized` | rpc/src/v1/types/log_details.rs:58-74 | A mined record copies the entry's address, topics and data. All six position fields are present and equal the entry's block hash, block number, transaction hash, transaction index, log index and transaction-log index. The type is "mined", the timestamp is 123 and the value is 0. |
| `LogDetailsTypes.FromPending` | rpc/src/v1/types/log_details.rs:77-94 | A pending record copies the entry's address, topics and data, and has none of the six position fields. The type is "pending", the timestamp is 123 and the value is 0. |
| `LogDetailsTypes.TopicsRoundTrip` | rpc/src/v1/types/log_details.rs:62 | Unwrapping the converted topics gives back the original topics. |
| `LogDetailsTypes.MinedRoundTrip` | rpc/src/v1/types/log_details.rs:58-74 | The mined conversion loses nothing: the localized entry can be read back from the record. |
| `LogDetailsTypes.PendingRoundTrip` | rpc/src/v1/types/log_details.rs:77-94 | The pending conversion loses nothing: the log entry can be read back from the record. |
| `LogDetailsTypes.LogTypeMatchesChainPosition` | rpc/src/v1/types/log_details.rs:64-89 | For both conversions, a record's type is "mined" exactly when it has a block hash. No mined record equals a pending one. |
| `LogDetailsHelpers.Value` | rpc/src/v1/helpers/log_details.rs:5-10 | `value` is present exactly when the record has a transaction hash and the client knows that transaction. It then equals the transaction's `value`. A missing hash or an unknown transaction gives `None`, not an error. |
| `LogDetailsHelpers.Timestamp` | rpc/src/v1/helpers/log_details.rs:12-19 | `timestamp` is present exactly when the record has a block hash and the client knows that block's header. It then equals the header's `timestamp`. |
| `LogDetailsHelpers.PendingLogIsNotEnriched` | rpc/src/v1/helpers/log_details.rs:5-19 | For a record built from a pending entry, both `value` and `timestamp` are `None`, whatever the client holds. |
| `LogDetailsHelpers.MinedLogEnrichment` | rpc/src/v1/helpers/log_details.rs:5-19 | For a record built from a mined entry, `value` and `timestamp` are found through the entry's own transaction hash and block hash. Each is present exactly when the client knows that hash. |

## Left out

- `js/src/api/local/ethkey/worker.js` is not part of this model. It holds WebAssembly and emscripten setup, foreign keccak and secp256k1 calls, random key encryption, an unbounded brain-wallet search loop and web-worker messaging: foreign crypto, randomness and asynchronous I/O.
- `LocalizedMachine` (machine/src/lib.rs:94-102): its `AuxiliaryData` and `StateContext` types and its `Sync + Send` bounds concern borrow lifetimes and thread safety, which Dafny cannot express. `Machine`'s `EngineClient`, `AuxiliaryRequest` and `Error` are type parameters with no operations.
- Hash algorithms: `bare_hash` and `hash` go through an arbitrary `Hasher`. Collision resistance is not assumed. So "`hash` differs when seals differ" is not stated: it holds only for a collision-free hash.
- `MockMachine.MockSetScoreReadsBack`: states that seal, author and number survive `set_score`, but not the two hashes. The mock's score is hashed content, as Ethereum's difficulty is, so re-scoring may change them.
- Seal bytes are never interpreted; the seal stays a `seq<Bytes>`.
- `MockObjects.ScoredHeader.SetScore` re-scores a standalone header object. A `MockObjects.LiveBlock` holds its header and uncles as values, so re-scoring a header that a live block exposes is not modelled in place.
- `Transactions` (machine/src/lib.rs:70-77) is modelled only as the record `TransactionsView` and its mock instance. The trait promises nothing beyond returning the list.
- `WithBalances` failure paths other than overflow: the mock's `balance` never fails, because it holds the whole state. A light client's "state unavailable" error is not modelled.
- The `serde` derive and field renames of `LogDetails` (JSON output) are not modelled.
- The real blockchain client is reduced to the two lookups the helpers use. Lookups by block number or transaction position are not modelled.
- `U256` arithmetic outside the mock's `add_balance` does not occur in the core. The conversions only widen `u64` and `usize` values into `U256`.
