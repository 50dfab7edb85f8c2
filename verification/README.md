# Kitty ledger engines, modelled in Dafny

This project models the two variants of a single-authority "kitty" ledger
engine. Each engine keeps an append-only log of signed transactions (the
chain store, `ChainDB`). It also keeps an ownership projection derived from
that log (the state store, `StateDB`): each kitty's owner, and each
address's kitties.

- **iko** (`src/iko/blockchain.go`) keeps, per kitty, the hash of its
  unspent transaction. A checker looks that transaction up in the log,
  verifies the candidate against it, and records a generation or a
  transfer. Injection hands the candidate to the chain store with the
  checker as its validation hook. Startup replays the log from sequence 1
  through the same checker. The engine also serves the log in pages.
- **kchain** (`src/kchain/blockchain.go`) verifies a candidate against the
  head of the log. It then updates the projection and only then appends.
  An append failure at that point is a panic. Startup replays the log from
  sequence 1.

Layout:

- `common.dfy` (module `Common`): identifiers, Go's `uint64`, the error
  results, the hash index of a log, and the chain store `ChainDB<T>`, shared
  by both variants. It is a class holding a `seq` of transactions and a hash
  index, and it is updated in place.
- `iko_store.dfy` (`IkoStore`) and `kchain_store.dfy` (`KChainStore`): each
  variant's transaction type, and its transaction rules (`Verify`, `Hash`,
  `IsKittyGen`) as uninterpreted function-valued fields. Each also holds its
  own projection store `StateDB`, a class of two maps updated in place.
- `iko_blockchain.dfy` (`Iko`) and `kchain_blockchain.dfy` (`KChain`): the
  engines. The checker, replay and injection are pure functions of the log
  and the projection. Each `BlockChain` class method is proved to have
  exactly that function's effect on the stores.

Main results:

- `Iko.ReplayMatchesInjection`: replaying a log built by successful
  injections reproduces the projection that injection built.
- `Iko.AcceptedTxBecomesUnspent`: an accepted transaction becomes the
  predecessor of the next spend of the same kitty.
- `Iko.TotalPageCount` and `Iko.TotalPageCountIsLeast`: the page count is
  the ceiling of the log length divided by the page size.
- kchain's intended replay (`KChain.LinkedReplayMatchesInjection`)
  reproduces the projection that injection built.

## Model

| member | source | states |
|---|---|---|
| `Common.IndexOf` | src/iko/blockchain.go:151 | the hash index that `GetTxOfHash` consults maps each hash to a position in the log holding a transaction with that hash, the last such position, and every transaction's hash is indexed |
| `IkoStore.ApplyCreation` | src/iko/blockchain.go:167 | `AddKitty(hash, id, out)` fails with a duplicate error exactly when the kitty is already recorded; otherwise the kitty's record becomes (hash, out), `out` gains the kitty, no other address changes, and the projection stays consistent |
| `IkoStore.ApplyTransfer` | src/iko/blockchain.go:177 | `MoveKitty(hash, id, from, to)` succeeds exactly when the kitty is known and owned by `from`, failing with unknown-kitty or owner-mismatch otherwise; on success the record becomes (hash, to), `from` loses and `to` gains the kitty, other addresses are untouched, and consistency is kept |
| `IkoStore.StateDB.AddKitty` | src/iko/blockchain.go:167 | the store's new contents are `ApplyCreation` of its old contents on success and unchanged on failure, and the returned error is that of `ApplyCreation` |
| `IkoStore.StateDB.MoveKitty` | src/iko/blockchain.go:177 | the store's new contents are `ApplyTransfer` of its old contents on success and unchanged on failure, and the returned error is that of `ApplyTransfer` |
| `Common.ChainDB.Append` | src/iko/blockchain.go:144 | the physical append inside `AddTx`: the log grows by exactly the transaction and the hash index stays that of the log |
| `Iko.Unspent` | src/iko/blockchain.go:149-156 | an unknown kitty has no predecessor; a known kitty whose unspent hash is not in the log gives a lookup error; otherwise a known kitty always has a predecessor, and it is a logged transaction with exactly that hash |
| `Iko.CheckTx` | src/iko/blockchain.go:147-183 | the checker returns the lookup error or the verification error when either fails; once `Verify` passes, a generation is accepted exactly when the kitty is unrecorded (else the duplicate error) and a transfer exactly when the recorded owner is the predecessor's output (else the owner-mismatch error); on success `Verify` passed against the unspent predecessor, a generation was of an unrecorded kitty, a transfer's prior owner was the predecessor's output, the kitty's record is now (tx hash, tx output) with every other record unchanged, and consistency is kept |
| `Iko.BlockChain.Check` | src/iko/blockchain.go:147-183 | the checker closure returns `CheckTx`'s error and leaves the state store holding `CheckTx`'s projection on success and its old contents on any failure |
| `Iko.Replay` | src/iko/blockchain.go:65-83 | replay from sequence `i` keeps the projection consistent, never loses a kitty, and is a no-op past the end of the log |
| `Iko.BlockChain.InitState` | src/iko/blockchain.go:65-83 | the loop over sequences 1 .. Len()-1 returns the first checker error and leaves the state store exactly as `Replay` from sequence 1 says, including the partial state at a failure |
| `Iko.BlockChain.InjectTx` | src/iko/blockchain.go:140-145 | the error is the checker's; the log grows by exactly this transaction if and only if the checker passes, and the state store moves to the checker's projection then and only then |
| `Iko.AcceptedTxBecomesUnspent` | src/iko/blockchain.go:147-183 | once the checker accepts a transaction and it is appended, the predecessor for the next transaction of that kitty is that transaction, so the older unspent hash can no longer be spent |
| `Iko.ReplayMatchesInjection` | src/iko/blockchain.go:65-83 | if the transactions after the sequence-0 entry were injected one by one into an empty projection and all accepted, with distinct hashes, replay from sequence 1 yields exactly the projection injection built and no error |
| `Iko.InjectedPreserves` | src/iko/blockchain.go:140-183 | a run of accepted injections keeps the projection consistent and never loses a kitty |
| `Iko.TotalPageCount` | src/iko/blockchain.go:191-197 | for a positive page size the page count `n` satisfies `len <= n*size < len + size` (the ceiling of len/size), and it is zero exactly for an empty log |
| `Iko.TotalPageCountIsLeast` | src/iko/blockchain.go:191-197 | no smaller number of pages of that size holds the log: any page count that does is at least `totalPageCount` |
| `Iko.BlockChain.GetTransactionPage` | src/iko/blockchain.go:199-211 | as written: the range starts at the wrapped uint64 product `perPage*currentPage`; a start past the end returns an empty page with the range error; a zero page size panics; otherwise it returns the log's transactions from the start for up to `perPage` entries, and the ceiling page count |
| `Iko.BlockChain.GetTransactionPageChecked` | src/iko/blockchain.go:199-211 | the intended page request: a zero page size is rejected without a panic; for a positive size the request succeeds exactly when the exact start `perPage*currentPage` is within the log, failing otherwise with the range error; a page holds exactly `min(perPage, len - start)` transactions, each the log's transaction at its sequence on page `currentPage` (in `[perPage*currentPage, perPage*(currentPage+1))`), with the ceiling page count |
| `Iko.ZeroPageSizePanics` | src/iko/blockchain.go:191-208 | a zero page size makes the page request as written panic on the division, while the intended request returns an invalid-page-size error |
| `Iko.PageStartWraps` | src/iko/blockchain.go:200-202 | page 2^63 of size 2 wraps to sequence 0 and returns the first page, where the intended request reports a range error |
| `Iko.BlockChain.GetHeadTx` | src/iko/blockchain.go:105-110 | the head is the last logged transaction, and an error exactly when the log is empty |
| `Iko.BlockChain.GetTxOfHash` | src/iko/blockchain.go:112-117 | a lookup by hash succeeds exactly when some logged transaction has that hash, and returns a logged transaction with that hash |
| `Iko.BlockChain.GetTxOfSeq` | src/iko/blockchain.go:119-124 | a lookup by sequence succeeds exactly below the log length and returns the transaction at that position |
| `Iko.BlockChain.GetKittyState` | src/iko/blockchain.go:126-131 | a kitty's record is returned exactly when the state store holds one |
| `Iko.BlockChain.GetAddressState` | src/iko/blockchain.go:133-138 | an address's kitties are exactly the recorded kitties whose owner it is |
| `Iko.BlockChainConfig.Prepare` | src/iko/blockchain.go:15-25 | a missing `TxAction` is replaced by the no-op action and a present one kept, the creator key is untouched, and the result is the public-key check's verdict |
| `Iko.NewBlockChain` | src/iko/blockchain.go:38-63 | a failing configuration returns no engine and leaves the state store alone; otherwise the state store holds the replay from sequence 1, and an engine is returned exactly when that replay passes; the configuration ends as `Prepare` leaves it, and a returned engine holds the given stores and rules and the configured creator key |
| `KChainStore.ApplyCreation` | src/kchain/blockchain.go:177 | `AddKitty(id, to)` fails with a duplicate error exactly when the kitty is recorded; otherwise the kitty is owned by `to`, `to` gains it, no other address changes, and consistency is kept |
| `KChainStore.ApplyTransfer` | src/kchain/blockchain.go:181 | `MoveKitty(id, from, to)` succeeds exactly when the kitty is known and owned by `from`; on success it is owned by `to`, `from` loses and `to` gains it, other addresses are untouched, and consistency is kept |
| `KChainStore.StateDB.AddKitty` | src/kchain/blockchain.go:177 | the store's new contents are `ApplyCreation` of the old on success and unchanged on failure |
| `KChainStore.StateDB.MoveKitty` | src/kchain/blockchain.go:181 | the store's new contents are `ApplyTransfer` of the old on success and unchanged on failure |
| `Common.ChainDB.AddTx` | src/kchain/blockchain.go:186 | the append succeeds exactly when the store admits the transaction, and the log then grows by exactly it; otherwise the log is unchanged |
| `KChain.Predecessor` | src/kchain/blockchain.go:161-165 | the predecessor is the last logged transaction when the log is non-empty, and none otherwise |
| `KChain.ApplyTx` | src/kchain/blockchain.go:171-184 | a generation succeeds exactly for an unrecorded kitty, a transfer exactly when the kitty is owned by `From`; a failure carries the store's error (duplicate for a generation, unknown kitty or owner mismatch for a transfer); on success the kitty is owned by `To` and consistency is kept |
| `KChain.InjectStep` | src/kchain/blockchain.go:161-184 | a verification failure against the head is returned as is; once `Verify` passes, a failure is the add or move's own error; success means `Verify` against the head passed and the add or move succeeded, with the projection that update gives |
| `KChain.BlockChain.InjectTx` | src/kchain/blockchain.go:157-191 | a rejection by `Verify` or by the state store changes neither store; after a successful update the state holds the new projection, and either the store admits the append (the transaction becomes the new head, result nil) or the append fails and the outcome is fatal with the log unchanged |
| `KChain.Replay` | src/kchain/blockchain.go:62-92 | the replay as written (every transaction verified against no predecessor) keeps the projection consistent, never loses a kitty, and is a no-op past the end |
| `KChain.BlockChain.InitState` | src/kchain/blockchain.go:62-92 | the loop over sequences 1 .. Len()-1 returns the first verification or state error and leaves the state store exactly as `Replay` from sequence 1 says |
| `KChain.ReplayLinked` | src/kchain/blockchain.go:62-92 | the intended replay (each transaction verified against the one before it) keeps the projection consistent and never loses a kitty |
| `KChain.LinkedReplayMatchesInjection` | src/kchain/blockchain.go:62-92 | if the transactions after the sequence-0 entry were all accepted by injection, the intended replay from sequence 1 yields exactly the projection injection built and no error |
| `KChain.InjectedPreserves` | src/kchain/blockchain.go:157-191 | a run of accepted injections keeps the projection consistent and never loses a kitty |
| `KChain.ReplayAgreesWithLinked` | src/kchain/blockchain.go:62-92 | the replay as written equals the intended one on any log where each replayed transaction gets the same `Verify` verdict against no predecessor as against its log predecessor |
| `KChain.ReplayMatchesInjectionWhenNilAgrees` | src/kchain/blockchain.go:62-92 | on such a log, the replay as written from sequence 1 yields exactly the projection injection built and no error |
| `KChain.NilPredecessorRejectsReplay` | src/kchain/blockchain.go:64-77 | under rules that check sequence numbers against the predecessor, a two-entry log that injection accepted is refused by the replay as written and accepted by the intended one |
| `KChain.BlockChain.GetHeadTx` | src/kchain/blockchain.go:114-119 | the head is the last logged transaction, and an error exactly when the log is empty |
| `KChain.BlockChain.GetTxOfHash` | src/kchain/blockchain.go:121-126 | a lookup by hash succeeds exactly when some logged transaction has that hash, and returns one |
| `KChain.BlockChain.GetTxOfSeq` | src/kchain/blockchain.go:128-133 | a lookup by sequence succeeds exactly below the log length and returns the transaction at that position |
| `KChain.BlockChain.GetKittyAddress` | src/kchain/blockchain.go:135-140 | a kitty's owner is returned exactly when the kitty is recorded, and an error otherwise |
| `KChain.BlockChain.GetAddressInfo` | src/kchain/blockchain.go:142-155 | the queried address is echoed, and its kitties are exactly the recorded kitties it owns |
| `KChain.NewBlockChain` | src/kchain/blockchain.go:38-60 | the state store holds the replay from sequence 1, and an engine is returned exactly when that replay passes, holding the given stores, rules and creator key |

## Left out

- Locking (`sync.RWMutex`), `sync.WaitGroup`, the `quit` channel, `Close`, and the `service` goroutine that drains `TxChan()` and panics when `TxAction` fails. These are concurrency and channel plumbing. Every model operation runs as one atomic step.
- logrus logging. It is a pure side effect.
- Cryptography: `Transaction.Verify`, `Transaction.Hash`, `IsKittyGen` and `PubKey.Verify` are uninterpreted parameters (`TxRules`, `pkCheck`). Their internals are not part of this model.
- For the same reason, the double-spend and tamper-detection guarantees the ledger is meant to give are not proved: they depend on what `Verify` checks. The engine-side half is proved (`Iko.AcceptedTxBecomesUnspent`): after a spend, the next candidate is verified against the new transaction.
- The concrete `ChainDB` and `StateDB` implementations are not part of this model, and neither is the `Transaction` type. The stores here are the smallest ones that meet the contracts the engines use.
  - A range request starting past the end of the log is a range error. A range that runs past the end returns fewer transactions.
  - The hash index keeps the last transaction with a given hash.
  - kchain's `AddTx` admission test is an uninterpreted predicate (`admits`).
- `Iko.BlockChain.InjectTx`: `chain.AddTx(tx, checker)` is modelled as "run the checker, then append if it passed". A store that fails after its hook passed is not modelled.
- `Iko.BlockChain.InitState`: the exit on a failed sequence lookup (src/iko/blockchain.go:70-73) is not modelled. In the log model a lookup below `Len()` cannot fail.
- `KChain.BlockChain.InitState`: the same exit (src/kchain/blockchain.go:68-71) is not modelled, for the same reason.
- `Iko.CheckTx`: the checker dereferences the predecessor's output on a transfer without a nil check (src/iko/blockchain.go:177). The model requires of the rules that a transaction verifying against no predecessor is a generation transaction (`NilVerifyImpliesGen`), so that path is never taken.
- kchain's `BlockChainConfig.Prepare` (src/kchain/blockchain.go:15-25) is not modelled separately. Its logic is that of iko's `Prepare`, and kchain's `NewBlockChain` never calls it.
- An address's kitties are a set. The order of the Go slice is not modelled.
- Sequence numbers and the log length are unbounded (`nat`). A 2^64 wrap of `Len()` is not modelled. The wrap of the page-start product is modelled.
- The ledger's intended order for injection is "verify, append, then project"; a zero page size is meant to be rejected, and a failed replay to be fatal. The code does otherwise, and the model follows the code:
  - iko projects inside the validation hook, before the append.
  - kchain verifies, projects, then appends.
  - A zero page size reaches the division (see Findings).
  - A failed replay is returned as an error from `NewBlockChain`.

## Findings

| source | as written | input that shows it | evidently intended | confidence | as-written member | corrected member |
|---|---|---|---|---|---|---|
| src/iko/blockchain.go:191-208 | `totalPageCount(cLen, perPage)` divides by `perPage` with no zero check, so a zero page size panics | `GetTransactionPage(c, 0)` on any chain | reject a zero page size with an error before dividing | medium, not executed; a caller that is not part of this model may reject zero first | `Iko.ZeroPageSizePanics` | `Iko.BlockChain.GetTransactionPageChecked` |
| src/iko/blockchain.go:200-202 | the start sequence `perPage*currentPage` is a uint64 product and wraps | `GetTransactionPage(2^63, 2)` returns transactions 0 and 1 | a page past the end of the log is not the first page | medium, not executed | `Iko.PageStartWraps` | `Iko.BlockChain.GetTransactionPageChecked` |
| src/kchain/blockchain.go:64-77 | `prev` is declared before the replay loop and never assigned, so every replayed transaction is verified against no predecessor | a log [sequence 0, sequence 1] accepted by injection, under a `Verify` that checks sequence numbers against the predecessor | verify each replayed transaction against the one before it, as injection did | low, not executed; `Transaction.Verify` is not part of this model | `KChain.NilPredecessorRejectsReplay` | `KChain.LinkedReplayMatchesInjection` |
