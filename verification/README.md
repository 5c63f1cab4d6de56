# A verified model of the Soribium rollup

This project models the rollup end to end in Dafny and proves what its layers
promise each other: the account tree, the batch circuit, the honest batch
builder, the custody contract on L1, and the sequencer that drives batches
through proving, submission, confirmation, crashes and reboots.

`dafny verify dfyconfig.toml` checks everything. Every induction is written out
in the lemma that needs it, so all lemmas carry `{:induction false}`.

## How it is organised

| layer | modules |
| --- | --- |
| field, hash, account tree | `Field`, `Hashing`, `Merkle`, `Trees` |
| ledger and circuit | `Ledger`, `Circuit`, `Soundness`, `Binding` |
| honest builder | `Builder`, `Completeness` |
| custody contract | `Contract`, `Custody`, `Overflow` |
| wire formats | `Encoding`, `Words`, `Database` (blob round trip) |
| sequencer commands | `Database`, `Eviction`, `Commands`, `Sequencer` |
| one statement at a time | `Lifecycle`, `Safety`, `Pipeline`, `Landing` |
| whole system and its runs | `Protocol`, `Runs`, `Settlement`, `Guarantees` |
| admission against building | `Admission`, `SkippedRow`, `Senders`, `Waiting`, `WaitingRuns` |

The system of `Protocol` has three parts: the durable tables, the process (live
tree and driver phase, absent when it is down) and the contract's state. Its
events are the engine commands as the driver, the watcher and the HTTP API issue
them, L1 deposits, landings of any envelope ever sent, at any later time and in
any order, process deaths, and reboots. A command may be cut by a crash after any
number of its SQL statements; a multi-row update is taken row by row, which only
adds places to crash. Chain reads are atomic. A run is a trace: its states and the
events between them, from genesis; the theorems hold of every trace of every length.

## What is assumed

* **Hash.** `hash` is an arbitrary function into the field. Nothing assumes it
  injective, which no function into a finite field is. Results that rest on it read
  "the claim holds, or `Breaks(e, Q)`", where `Q` is the explicit finite set of
  hash queries of that very run or batch, and `Breaks` says two of them collide, or
  a leaf, message or fold input hashes to zero, the value of the empty leaf and of
  the empty fold.
* **Signatures.** `schnorr(pk, msg, r, s)` is one arbitrary predicate shared by
  `keys::verify` and `verify_sig`; that the padding signature satisfies it is the
  one fact used.
* **Proofs.** The verifier is ideal: a proof is bytes and a map from public inputs to
  witnesses, arbitrary in both, and it is accepted for five public inputs exactly when
  the witness the map has for them satisfies `batch`. One proof may verify for any
  number of public inputs, with a witness of its own for each. The prover is not
  trusted: any such proof may come back.
* **Field.** A prime above 2^128, as both sides of the code use a 254-bit one;
  nonce totals stay below it (`Deployed`).
* **Release profile.** Overflowing `u64` additions of nonces and pending totals
  abort the process, as `overflow-checks = true` with `panic = "abort"` has them do.

Rust methods that mutate state are class methods or methods with loops, proved
against specification functions; the lemmas are about those functions.

## Model

| member | source | states |
|---|---|---|
| Field.RangeChecksDecide | circuits/lib/src/tx.nr:153-156 | For u64 operands the 64-bit check of a field difference passes exactly when it does not underflow, of a field sum exactly when it does not overflow, and a passing result is the integer one. |
| Field.AddSubModular | circuits/lib/src/tx.nr:144-163 | The model's field addition and subtraction are integer addition and subtraction modulo p. |
| Field.FlagIsBit | circuits/lib/src/tx.nr:39-41 | In a prime field the check c * (1 - c) = 0 holds of 0 and 1 and of nothing else. |
| Merkle.PathToRoot | harness/src/tree.rs:62-78 | Folding any slot's leaf along the tree's own path gives the root, for every depth. |
| Merkle.UpdateRoot | circuits/lib/src/merkle.nr:30-39 | Folding a new leaf along the old siblings gives the root of the table with that slot replaced. |
| Merkle.RootBinds | circuits/lib/src/merkle.nr:14-28 | A leaf and siblings that fold to a table's root are that slot's leaf and path, unless the named queries break the hash. |
| Merkle.RootInjective | harness/src/tree.rs:49-60 | Tables with the same root are equal, or their own node queries break the hash. |
| Trees.Tree.ComputeRoot | harness/src/tree.rs:49-60 | The chunked level-by-level loop returns the recursive root. |
| Trees.Tree.ComputePath | harness/src/tree.rs:62-78 | The loop over idx ^ 1 returns the siblings bottom-up and the little-endian index bits. |
| Trees.Tree.Set | harness/src/tree.rs:84-88 | Exactly one slot of the tree changes. |
| Circuit.ComputeRoot | circuits/lib/src/merkle.nr:14-28 | The circuit's loop over index bits computes the recursive fold. |
| Trees.WalletComputeRoot | wallet/src/crypto/merkle.ts:13-26 | The wallet's loop computes the same fold, and refuses exactly a wrong number of siblings or an index out of range. |
| Trees.WalletCheckDecides | wallet/src/crypto/merkle.ts:28-34 | The wallet's path check accepts exactly the slot's own leaf with its own path, unless the named queries break the hash. |
| Ledger.Conservation | circuits/lib/src/tx.nr:57-194 | Over any legal sequence of operations total balance changes by deposits minus exits, and every balance stays u64. |
| Ledger.Progress | circuits/lib/src/tx.nr:144-163 | A legal sequence strictly advances (nonce total, then balance total) unless it is empty, and an empty one changes nothing. |
| Circuit.Batch | circuits/lib/src/batch.nr:9-37 | The two loops threading root and accumulators decide the acceptance relation. |
| Soundness.CircuitSound | circuits/lib/src/tx.nr:57-194 | If the circuit accepts any witness against the root of any table with u64 balances, the new root is that of the table obtained by the active deposits then the active, authorised transactions, with exact conservation and the published folds, or the batch's own queries break the hash. |
| Binding.FoldsBind | contracts/rollup/src/lib.rs:151-171 | Equal deposit or withdrawal folds come from equal lists of any lengths, unless the named queries break the hash. |
| Binding.MessagesBind | harness/src/batch.rs:112-114 | Equal data-availability commitments come from equal lists of message hashes, of any lengths, unless the named queries break the hash. |
| Binding.TransactionsBind | harness/src/batch.rs:112-125 | Equal commitments come from equal transactions: senders, recipients, amounts, nonces and kinds, in order. |
| Binding.CommitmentBinds | circuits/lib/src/batch.nr:9-37 | Two accepted batches with one commitment, whatever their ledgers, their provers and their padding, applied the same transactions, or their own queries break the hash. |
| Builder.BuildBatch | harness/src/batch.rs:163-371 | The in-place builder leaves the tree and outcome of the specification, on failure too, with the tree as mutated so far. |
| Completeness.BuilderComplete | harness/src/batch.rs:163-371 | From any well-formed tree, whatever is built is accepted by the circuit for its own public inputs, padding included; its operations are exactly the requests; the resulting tree is well-formed. |
| Contract.Rollup.constructor | contracts/rollup/src/lib.rs:78-91 | A fresh contract holds the genesis root, batch number 0 and an empty queue. |
| Contract.Rollup.Deposit | contracts/rollup/src/lib.rs:96-122 | New state and reply of a deposit: every refusal in order, escrow moved, entry enqueued. |
| Contract.Rollup.EnqueueDeposit | contracts/rollup/src/storage.rs:63-68 | The entry goes to the old tail, and the tail moves by one. |
| Contract.Rollup.DequeueDeposits | contracts/rollup/src/storage.rs:74-80 | Exactly the first `count` entries go, and the head moves past them. |
| Contract.Rollup.FoldQueue | contracts/rollup/src/lib.rs:151-155 | The loop computes the deposit fold of the queue prefix. |
| Contract.Rollup.FoldPayouts | contracts/rollup/src/lib.rs:157-164 | The loop computes the withdrawal fold, or stops at the first amount out of range. |
| Contract.Rollup.SubmitBatch | contracts/rollup/src/lib.rs:128-199 | New state and reply of a submission: every refusal in order and, when it lands, dequeue, root, batch number and payouts. |
| Custody.SolvencyOverEveryRun | contracts/rollup/src/lib.rs:96-199 | After any calls by any depositors and provers escrow covers all L2 balances and all queued deposits, or the run's own queries break the hash. |
| Custody.LandingIsReal | contracts/rollup/src/lib.rs:151-171 | A submission that passes the checks applies exactly the queue prefix and exactly the payouts. |
| Custody.LandingKeepsSolvent | contracts/rollup/src/lib.rs:181-190 | A batch that passes the checks is paid out in full. |
| Custody.OverflowUnreachable | contracts/rollup/src/lib.rs:17-25 | With total supply below 2^64, in every reachable state no queued deposit into any slot, and no transfer between slots, reaches 2^64. |
| Overflow.BuildNeverOverflows | harness/src/batch.rs:163-371 | While balances plus the deposits given stay below 2^64, building any deposits and any transactions never reports a balance overflow, on any intermediate table. |
| Overflow.QueueNeverOverflows | contracts/rollup/src/lib.rs:114-116 | In every solvent state with supply below 2^64, building any queue prefix and any transactions never reports a balance overflow. |
| Overflow.JamIsTreeFull | sequencer/src/engine.rs:531-539 | While nothing can overflow, the eviction loop stalls only on a full tree, or when nothing is left to build. |
| Custody.RunProgress | circuits/lib/src/tx.nr:144-163 | Along any run the ledger strictly advances, unless every batch that landed was padding. |
| Custody.NoRootRecurs | contracts/rollup/src/lib.rs:182-185 | If the register returns to an earlier root, only padding batches landed in between. |
| Custody.NoReplay | contracts/rollup/src/lib.rs:128-199 | Of two landings that publish the same new root, whatever their proofs and whatever happens in between, the second has no active entry; so no envelope lands twice. |
| Encoding.LessIsNumeric | contracts/rollup/src/publics.rs:24-28 | Byte-wise comparison of big-endian words is numeric comparison. |
| Encoding.CanonicalWords | sequencer/src/hexutil.rs:16-18 | A word is canonical exactly when its value is a field element, and distinct canonical words denote distinct elements. |
| Encoding.ParseOfHex | sequencer/src/hexutil.rs:27-42 | Parsing a printed word succeeds, as the identity, exactly on canonical words. |
| Encoding.CaseIgnored | sequencer/src/hexutil.rs:27-38 | A prefixed string is treated as its lower-case form is: same word, or same refusal. |
| Encoding.AcceptedStringsAgree | sequencer/src/hexutil.rs:27-38 | A string is accepted and denotes the element an accepted string denotes if and only if it has the prefix and the two agree up to letter case. |
| Encoding.PrintsBackIff | sequencer/src/hexutil.rs:1-5 | An accepted string is the one its word prints as if and only if it has no upper-case digit. |
| Encoding.UpperCaseAccepted | sequencer/src/hexutil.rs:33-37 | Ten spelled with a capital A is accepted, as the word of ten, and does not print back. |
| Encoding.SLimbs | harness/src/keys.rs:94-104 | The copy loop puts each half of the scalar behind 16 zero bytes. |
| Encoding.LimbsRoundTrip | harness/src/keys.rs:108-122 | Joining split limbs is the identity on all 32 bytes, and the limbs are the number's low and high 128 bits. |
| Encoding.LimbsUnique | harness/src/keys.rs:108-122 | Accepted limbs are determined by the scalar they join to. |
| Words.CanonicalAgrees | contracts/rollup/src/publics.rs:24-28 | The byte-wise and the numeric canonicity test agree. |
| Words.LimbsAgree | harness/src/keys.rs:94-104 | The copied byte limbs have the values the numeric split computes. |
| Words.JoinsAgree | harness/src/keys.rs:108-122 | Joining limbs byte-wise and numerically refuses the same limbs and yields the same scalar. |
| Database.BlobRoundTrip | sequencer/src/engine.rs:708-809 | Parsing a stored blob returns exactly the inputs of its build, signature limbs included. |
| Eviction.RestartIsOnePass | sequencer/src/engine.rs:489-566 | The restart-on-error loop ends, and keeps, drops and stops exactly as one left-to-right greedy pass would, although failing builds leave debited clones. |
| Sequencer.SelectTxs | sequencer/src/engine.rs:466-481 | The selection loop takes candidates in order up to the slots, skipping withdrawals past the eighth. |
| Sequencer.ParseStored | sequencer/src/engine.rs:779-809 | The parsing loops return the parsed inputs, or fail at the first bad entry. |
| Sequencer.Engine.SubmitTx | sequencer/src/engine.rs:307-395 | Statements and reply of a submission: every refusal in order, idempotent resubmission, admission against the unsettled rows. |
| Sequencer.Engine.ObservedDeposits | sequencer/src/engine.rs:397-420 | The statements a report runs: unseen rows, then the cursor past the highest one. |
| Sequencer.Engine.TryBuildBatch | sequencer/src/engine.rs:424-459 | When a tick builds: synced, nothing in flight, and one of the three triggers. |
| Sequencer.Engine.EvictAndBuild | sequencer/src/engine.rs:489-566 | The loop that shrinks the selection in place computes the specified evictions and attempt. |
| Sequencer.Engine.BuildBatchNow | sequencer/src/engine.rs:461-567 | Statements and reply of a build: evictions, batch row, deposits, transactions, in the source's order. |
| Sequencer.Engine.ConfirmBatch | sequencer/src/engine.rs:616-679 | Replay on a clone; tree and tables move together, or neither does. |
| Sequencer.Engine.FailBatch | sequencer/src/engine.rs:681-698 | Every row and deposit in flight under the number is pending and untagged, every other is as it was, the batch is gone and the other batches stay. |
| Sequencer.Start | sequencer/src/engine.rs:818-888 | Boot halts or yields an engine on the stored leaves, exactly as reconciliation decides. |
| Safety.TryBuildOk | sequencer/src/engine.rs:424-567 | Every statement a tick runs keeps the table invariant wherever it is cut, and the job handed on is the build of the stored row. |
| Lifecycle.PrefixKeeps | sequencer/src/engine.rs:505-527 | A crash after any prefix of allowed statements leaves the tables invariant, and every sent batch in place. |
| Pipeline.RecordProofOk | sequencer/src/engine.rs:569-602 | Whatever proof comes back, recording it or refusing it keeps the tables invariant. |
| Pipeline.MarkSubmittingOk | sequencer/src/engine.rs:604-611 | Marking a proven batch in flight is allowed, replies with its stored envelope, and leaves it sent with that envelope. |
| Pipeline.ConfirmOk | sequencer/src/engine.rs:616-679 | Confirming the landed batch succeeds, reproduces the stored root, and makes the live tree the chain's ledger. |
| Pipeline.ReconcileOk | sequencer/src/engine.rs:818-888 | Whatever a crash left, boot accepts the tables, loads the last confirmed ledger, and frees exactly an unproved batch. |
| Settlement.ConfirmTracks | sequencer/src/engine.rs:616-679 | A confirmed batch moves each account's nonce by exactly its own listed rows, and takes at most their amounts from its balance. |
| Settlement.SecondConfirmFails | sequencer/src/engine.rs:616-650 | Confirming a confirmed number again returns an error, never an abort, and changes neither tree nor tables, or the replay's nodes break the hash. |
| Landing.ClaimedLandsIff | contracts/rollup/src/lib.rs:128-199 | An envelope that claims what a build on the current ledger claims lands, pays in full and moves to the build's root if its proof verifies for the build's public inputs, and is refused with nothing changed if not. |
| Landing.PublicsAgree | contracts/rollup/src/lib.rs:146-171 | For inputs built on the current ledger from the queue's head the contract assembles the build's own public inputs. |
| Landing.HonestLands | contracts/rollup/src/lib.rs:128-199 | An honest envelope for the current ledger lands, pays in full, and moves the ledger to what the build left. |
| Landing.AcceptedLands | contracts/rollup/src/lib.rs:173-199 | Whatever its proof, an accepted envelope of the batch in flight moves the chain to the ledger the sequencer expects. |
| Landing.StaleRefused | sequencer/src/batcher.rs:155-158 | The envelope of a batch that has landed is refused from then on with nothing changed, whatever witnesses its proof stands for on later ledgers, or the named queries break the hash. |
| Runs.StepKeeps | sequencer/src/batcher.rs:17-177 | Every event, cut by a crash anywhere, keeps the invariant of the whole system. |
| Runs.InvariantOverEveryRun | sequencer/src/batcher.rs:17-177 | The invariant holds after every run from genesis, or the run's own queries break the hash. |
| Guarantees.LockstepAlways | sequencer/src/engine.rs:818-888 | In every reachable state the chain has the confirmed batch and its root, or is one ahead with the proven batch in flight and its root; boot never refuses to start. |
| Guarantees.RowsAreConserved | sequencer/src/engine.rs:505-527 | Whenever a process runs: at most one batch in flight; a row is untaken exactly when no blob lists it, else tagged with the one batch that does; no transaction or deposit is in two blobs. |
| Guarantees.QueueStaysAligned | sequencer/src/watcher.rs:40-65 | Stored deposits are a gap-free prefix of all ever enqueued, consumed ones exactly those before the confirmed head; a batch in flight lists the contract's next deposits, and the contract recomputes exactly its public inputs. |
| Guarantees.SentIsNeverRequeued | sequencer/src/batcher.rs:92-112 | Once an envelope has been sent, its row and blob stay, and every transaction and every deposit its blob lists stays with the batch, in flight or settled, however the run goes on. |
| Guarantees.SecondConfirmAlwaysFails | sequencer/src/engine.rs:616-679 | In every reachable state a second confirmation errors and changes nothing. |
| Guarantees.InflightLandsIff | sequencer/src/batcher.rs:148-164 | In every reachable state with a batch in flight that has a stored proof and has not landed: the contract takes its envelope, in full, if and only if the proof verifies for the public inputs of the build its blob describes; else it changes nothing. |
| Guarantees.InflightAlwaysLands | sequencer/src/batcher.rs:148-164 | So in every such state an honest proof lands. |
| Guarantees.RecordedLandsIff | sequencer/src/engine.rs:569-602 | In every reachable state with an unproved batch, whatever the proof and the words: the envelope `record_proof` replies with lands if and only if the proof verifies for the batch's own public inputs. |
| Guarantees.EmptyProofIsRecorded | sequencer/src/engine.rs:581-593 | In each of these states a proof of the right length with no witness behind it, and zeros for both folds, is recorded, and the contract refuses the envelope. |
| Guarantees.UnverifiedIsForever | sequencer/src/batcher.rs:148-164 | Once a batch has been sent with a proof that does not verify, however the run goes on, reboots included, it never lands and stays in flight: no further batch is ever built. |
| Guarantees.OverflowNeverHappens | contracts/rollup/src/lib.rs:17-25 | With total supply below 2^64: in every reachable state building any number of the next deposits and any transactions never reports a balance overflow. |
| Guarantees.OnlyJamIsTreeFull | sequencer/src/engine.rs:531-539 | With total supply below 2^64: in every reachable state the only deposit jam is a full tree. |
| Admission.NoEvictionIff | sequencer/src/engine.rs:361-395 | With orderly waiting rows and no overflow, a selection builds without an eviction if and only if no waiting row of a selected sender was skipped before a selected one, every recipient is in the tree or among the deposits taken, and no nonce is at its maximum. |
| Admission.FewWithdrawalsAreFair | sequencer/src/engine.rs:463-481 | With at most eight withdrawals among the candidates no selection skips a row before a selected one. |
| Admission.NinthWithdrawalEvicts | sequencer/src/engine.rs:463-481 | Eight withdrawals, then one sender's withdrawal and transfer: the transfer is selected without the withdrawal, and evicted. |
| SkippedRow.TenthRowEvicted | sequencer/src/engine.rs:307-567 | On any tables with nine given accounts, no batch in flight and no deposit waiting: ten submissions are stored one after the other, and the first statement of the next tick evicts the tenth, whose sender could pay for both its rows. |
| Admission.EvictedSenderIsStuck | sequencer/src/engine.rs:326-329 | While an evicted row holds the nonce its sender must use next, no submission of that sender is stored. |
| Senders.SparedIff | sequencer/src/engine.rs:489-566 | A loop that ends with a batch evicts none of an orderly sender's selected rows if and only if the selection skips none of its waiting rows before a selected one and its selected rows can be delivered, however other senders fare. |
| WaitingRuns.WaitingRowsFit | sequencer/src/engine.rs:361-378 | In every reachable state, for each sender that has no evicted row: its waiting rows carry the nonces that follow its confirmed account's, in id order, with total at most its balance, those in flight first. |
| WaitingRuns.TickSparesIff | sequencer/src/engine.rs:461-567 | In every reachable state, for each such sender, the next build that comes to a batch spares it if and only if the selection is fair and deliverable for it. |
| WaitingRuns.FairRunsSpare | sequencer/src/engine.rs:361-395 | A run from genesis whose selections are all fair and deliverable for a sender, with total supply below 2^64, never evicts one of its admitted transactions, whatever becomes of the others, crashes and reboots included. |
| WaitingRuns.TickEvictsIffUnfair | sequencer/src/engine.rs:461-567 | In every reachable state whose deposits fit the tree and whose selected senders have no evicted row, the next build keeps its whole selection if and only if the selection is fair and deliverable for everyone. |
| WaitingRuns.FairRunsEvictNobody | sequencer/src/engine.rs:361-395 | A run whose selections are all fair and deliverable for everyone evicts nobody. |

## Findings

* **Admission does not imply that a transaction can be built.** docs/TESTING.md:123
  and :182 ask for it. `SkippedRow.TenthRowEvicted` is an input on which it fails:
  accounts 1 to 9 each have a withdrawal waiting, account 9 then a transfer. The
  window takes eight withdrawals, skips account 9's (sequencer/src/engine.rs:474-477)
  and takes its transfer, whose nonce is now one ahead; the transfer is rejected. Of
  the tables only the nine accounts and the ten rows matter; all else is arbitrary. The
  rejected row keeps its (sender, nonce), so resubmission returns it
  (`Admission.EvictedSenderIsStuck`). A transfer to an account that only a deposit
  beyond the ones taken would create is evicted the same way. `TickSparesIff` gives
  the exact condition for one sender, `NoEvictionIff` and `TickEvictsIffUnfair` for a
  whole selection, and `FairRunsSpare` the guarantee that remains: it is each sender's
  own, and an eviction elsewhere does not end it.
* **Upper-case hex is accepted.** sequencer/src/hexutil.rs:1-2 promises lower-case
  digits only; the code folds case first (line 33). `UpperCaseAccepted` is an input,
  `PrintsBackIff` the exact condition under which the promise holds of an accepted
  string, and `AcceptedStringsAgree` shows that letter case is the only freedom.
* **`record_proof` does not check the proof**, nor two of its five words
  (sequencer/src/engine.rs:584-593). `EmptyProofIsRecorded` is an input it records and
  the contract refuses, in every state in which a proof is awaited. `RecordedLandsIff`
  is the exact condition, one the engine could check before recording: the proof
  verifies for the batch's own public inputs. Without it the rollup stops at that batch
  for good (`UnverifiedIsForever`). The other protocol theorems hold for every returned
  proof.

## Left out

- Poseidon2, Grumpkin, key derivation, randomness: replaced by an arbitrary hash and an arbitrary signature predicate.
- UltraHonk verification and prover invocation: replaced by the ideal verifier.
- Uniqueness of account keys against a dishonest prover: the circuit does not enforce it; circuit results are per slot.
- Competing batch submitters: only envelopes this sequencer sent reach the contract in `Protocol`; `Custody` allows any submitter.
- Liveness: a stuck watcher, confirmation timeouts that repeat, an evicted sender that stays stuck, provers that always fail.
- Interleaving between the two boot reads of root and batch number (sequencer/src/main.rs:46-47): taken as one atomic read.
- Database statements that fail without killing the process: a statement succeeds or the process dies.
- JSON and SQL text: blobs and tables are records, sequences and maps; amounts are numbers, not decimal strings.
- The history table, timestamps, ages of pending rows, transaction hashes and log lines: a tick's age trigger is an arbitrary flag.
- Overflow of the u64 sequence, batch and head counters: they count events, and are unbounded here.
- Strkey checksums and curve membership of untrusted points: an address is an index, an off-curve key fails the signature predicate; which of two errors an off-curve key with a malformed signature field gets is not modelled.
- Host authorisation, events, storage lifetimes, and re-initialisation of the contract.
- HTTP handlers, rate limiting by address, read-only queries, wallet screens.
