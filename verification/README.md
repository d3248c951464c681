# Delegation program: a verified model

The delegation program lets the owner of an account hand it to a validator for a while. A session is

    delegate -> (commit -> finalize)* -> undelegate

and lives in the delegated account D and five accounts derived from it: delegation record, delegation metadata, commit
state, commit record and undelegate buffer. Around the sessions there are fee vaults, per-program configs that say which
validators may commit, and escrow accounts. This project models all instructions of the program over a store of accounts
(owner, lamports, bytes), proves them against functions that specify them, and proves what holds over whole runs, in which
instructions interleave with anything else the chain may do.

## How it is built

| file | contents |
|---|---|
| `Outcomes.dfy` | results and the errors of the processors |
| `Octets.dfy` | addresses, bytes, little-endian and length-prefixed codecs |
| `Layouts.dfy` | the layouts of record, metadata, commit record and config; round trips; in-place rewriting |
| `Formats.dfy` | the same layouts byte by byte, that the parsers accept nothing else, and the bytes addresses are derived from |
| `Store.dfy` | the account store, the sum of its lamports, the system program, creating, resizing and closing accounts |
| `Fees.dfy` | the fee cascade, in place and in closed form; closing with fees |
| `Handlers.dfy` | what each instruction does to the store, as a function |
| `Sessions.dfy` | the session machine without accounts or bytes, its histories and its ledger |
| `Invariants.dfy` | what every reachable store satisfies, and the abstract session of an account |
| `SessionEffects.dfy`, `UndelegateEffects.dfy`, `VaultEffects.dfy`, `ConfigEffects.dfy`, `EscrowEffects.dfy` | what a successful instruction does |
| `Runs.dfy`, `Histories.dfy`, `Ledgers.dfy` | steps of the chain, whole runs, and what they add up to |
| `Locks.dfy` | accounts that can never be handed back |
| `Guarantees.dfy`, `Bundles.dfy` | exactly when instructions succeed or are refused, bundled instructions |
| `Contracts.dfy`, `SessionContracts.dfy` | for each of the fourteen instructions, as submitted: exactly when it succeeds and what every account is afterwards |
| `Refusals.dfy` | which error each unmet requirement gives |
| `Progress.dfy`, `Lifecycle.dfy` | which accounts can be handed back, and in how few instructions; a whole session, out and back |
| `Witnesses.dfy` | concrete runs: a whole session, and accounts that get locked |
| `Writers.dfy`, `Bank.dfy` | the program in its own, imperative form: bytes written through a writer, accounts updated one after the other |

`Bank.Bank` holds the accounts and updates them in place in the order of the source; each of its methods is proved equal to
the function of the same purpose in `Handlers.dfy`, and `Process` undoes a failed instruction. The methods of the
instructions also promise what the instruction is for: that a session opens, a commit is pending, it is finalized, the
session ends. All other lemmas are about the functions, so they are about the methods too.

Assumptions that run through everything:

- Addresses are symbolic and so are their 32 bytes. Each kind of derived account has its own constructor, and an account
  derived by the program is never a wallet. `Octets.SeedsDistinguish` shows that the derivation seeds justify this: the
  bytes that are hashed differ for different accounts, however they are split into seeds.
- Nobody signs for an address the program derives, except the program itself (for escrow accounts and for the undelegate
  buffer).
- Between instructions, and inside the call into the owner program, anything may happen that the runtime allows: accounts
  of the program and addresses it derives keep owner and data and are not debited, and lamports are neither made nor lost.
- In that call the validator and the buffer sign and the delegated account does not (src/processor/undelegate.rs:297-302).
  By then it is empty and belongs to the system program, which only writes to accounts that sign. For an address a
  program derives that program signs; for a plain address only its key could. So only derived accounts can be opened
  again. What the owner program answers is unknown, except that the system program and this program fail: neither knows
  the instruction (src/consts.rs:10, src/lib.rs:45-46).
- `Rent::get()` and `Rent::default()` agree; rent is an arbitrary function of the data length.
- Runs start from a store in which no account of the program is initialized.
- Where the sum of all lamports is bounded (by 2^64, or by a tenth of it where ten times an amount is computed), the
  bound is in the statement. The model does not fix whether plain arithmetic is checked for overflow: both builds are
  covered, and `VaultEffects.ClaimSucceedsIff` shows that they agree.

Where the code and its comments disagree, the model follows the code:

- src/processor/utils/pda.rs:121 says that each fee address gets a percentage of what the one before it gets. The code
  takes the percentage of the cumulative amount and then subtracts.
- src/processor/undelegate.rs:51 lists "NOT undelegatable" as a requirement. The code requires the opposite (124-130).
- src/processor/finalize.rs:38-40 says that finalize is skipped if neither commit account is as required. The code skips
  only if both are uninitialized (70-79).

Two results that are not obvious from the code:

- Closing an account to itself would destroy its lamports (src/processor/utils/pda.rs:109-113), and undelegating with the
  delegated account as its own validator does close it to itself. Nothing is lost: the last transfer would then come from
  an account with data, so such an undelegation always fails (`UndelegateEffects.DataRefused`).
- A session that allows undelegation and settled on bytes to return locks its account for good if the account is on the
  curve or an escrow account: whatever anybody does, it stays live with those bytes (`Locks.LockedForever`,
  `Lifecycle.LockedIff`), because such an account cannot be opened again to hold them. Five or six instructions reach such
  a state, for any owner program (`Witnesses.PlainAccountsCanBeLocked`, `Witnesses.EscrowsCanBeLocked`). This is the only
  obstacle: given an able validator and an owner program that conforms where it is called, every other account comes back
  (`Lifecycle.ReturnableIff`); accounts on the curve and escrow accounts do if the commit that allows undelegation has no
  bytes.

## Model

| member | source | states |
|---|---|---|
| Octets.SeedsDistinguish | src/pda.rs:3-71 | different accounts of the program are derived from different bytes, whichever way these are split into seeds: no two kinds, keys or escrow indices collide |
| Formats.DerivationSpelled | src/pda.rs:3-71 | each account of the program is derived by it from the bytes of its label, then the 32 bytes of an address, then the index for an escrow account |
| Formats.StagingSpelled | src/pda.rs:31-36 | the account an owner program stages bytes in is derived by that program from the label buffer and the account's address |
| Layouts.RecordRoundTrip | src/state/delegation_record.rs:13-45 | a written delegation record parses back to itself |
| Layouts.CommitRecordRoundTrip | src/state/commit_record.rs:13-43 | a written commit record parses back to itself |
| Layouts.MetadataRoundTrip | src/state/delegation_metadata.rs:11-29 | written metadata parses back to itself, for any list of seeds |
| Layouts.MetadataRewrite | src/processor/commit_state.rs:152-153 | whatever slot and flag become, the rewritten metadata fits the account exactly and parses back to the updated value, with the same seeds and rent payer |
| Layouts.PatchedRecord | src/processor/finalize.rs:117-118 | writing the lamports field through the mutable view changes that field of the record and nothing else |
| Layouts.ConfigRoundTrip | src/state/program_config.rs:9-27 | a written set parses back to the set, and its length is the size formula's |
| Formats.RecordLayout | src/state/delegation_record.rs:13-45 | a record is 96 bytes: number 100 in the first eight, authority at 8, owner at 40, slot, lamports and frequency at 72, 80 and 88, lowest byte first |
| Formats.CommitRecordLayout | src/state/commit_record.rs:13-42 | a commit record is 88 bytes: number 101, identity at 8, account at 40, slot and lamports at 72 and 80 |
| Formats.MetadataLayout | src/state/delegation_metadata.rs:10-29 | metadata is 53 bytes and its seeds: number 102, slot at 8, flag at 16, the count of the seeds at 17, each seed behind its four-byte length, the rent payer last |
| Formats.ConfigLayout | src/state/program_config.rs:9-27 | a config is number 103, the count at 8 and the addresses from 12 on |
| Formats.RecordCanonical | src/state/utils/try_from_bytes.rs:1-34 | bytes parse to a record exactly if they are the ones written for it: no other tag, length or trailing byte |
| Formats.CommitRecordCanonical | src/state/utils/try_from_bytes.rs:1-34 | the same for commit records |
| Formats.MetadataCanonical | src/state/utils/try_from_bytes.rs:36-53 | the same for metadata, for every list of seeds whose lengths fit in four bytes |
| Formats.ConfigCanonical | src/state/utils/try_from_bytes.rs:36-53 | bytes parse to a set exactly if they list its members, in any order and perhaps repeatedly |
| Writers.WriteMetadata | src/state/utils/to_bytes.rs:20-34 | serializing into a slice overwrites its front with exactly the encoding, leaves the rest, and fails if it does not fit |
| Writers.WriteBlobs | src/state/delegation_metadata.rs:16-17 | the seeds are written one after the other, each behind its length |
| Writers.WriteConfig | src/processor/whitelist_validator_for_program.rs:95-96 | serializing a set into a slice overwrites its front with exactly the encoding |
| Writers.WriteFixed | src/state/utils/to_bytes.rs:1-18 | discriminator and struct fill the slice, which must have exactly their length |
| Store.CreatePdaEffect | src/processor/utils/pda.rs:10-82 | both ways of creating an account end with max(previous balance, rent), the payer short of exactly the difference, nothing else touched |
| Store.ResizePdaEffect | src/processor/utils/pda.rs:85-100 | the balance is topped up to the rent of the new size at the payer's expense |
| Store.ClosePdaEffect | src/processor/utils/pda.rs:104-117 | closing moves the whole balance; closing to itself destroys it |
| Store.OwnedNeverPays | src/processor/utils/pda.rs:24-60 | an account of the program pays for no creation, not even as the payer |
| Fees.SplitFees | src/processor/utils/pda.rs:132-152 | the fee vector holds the shares of the cascade; it fails exactly when the first product overflows |
| Fees.FillCumulative | src/processor/utils/pda.rs:141-148 | the first loop computes the cumulative fees in place |
| Fees.SubtractNext | src/processor/utils/pda.rs:150-152 | the second loop turns them into shares in place, without underflow |
| Fees.SharesTelescope | src/processor/utils/pda.rs:132-163 | for any number of addresses the shares are nonnegative and add up to exactly the total fee |
| Fees.CumulativeBounds | src/processor/utils/pda.rs:132-148 | each cumulative fee is the geometric amount rounded down by less than one unit per level |
| Fees.TenPercentCascade | src/consts.rs:3-4 | at ten percent the nested roundings are one division by a power of ten |
| Fees.CloseWithFeesEffect | src/processor/utils/pda.rs:122-169 | closing with fees conserves lamports whatever accounts coincide, empties the account and touches nobody else |
| Fees.CloseWithFeesPays | src/processor/utils/pda.rs:139-163 | for any number of different fee addresses and any percentage, address i gets its share of the cascade and the destination the balance less the total fee |
| Fees.CloseWithFeesSucceedsIff | src/processor/utils/pda.rs:122-169 | closing with fees succeeds exactly if there is a fee address, the percentage is at most 100 and the first product fits; which error it is otherwise |
| Fees.SessionFeeSplit | src/processor/undelegate.rs:316-336 | each closed account pays L - L/10 to the rent payer, L/10 - L/100 to the validator's vault and L/100 to the protocol's |
| Bank.Bank.ClosePdaWithFees | src/processor/utils/pda.rs:122-169 | the loops over fee vector and fee addresses meet the specification, failing exactly where it does |
| Bank.Bank.CreditEach | src/processor/utils/pda.rs:154-159 | the third loop credits every address its share, or fails with the error of the first that overflows |
| Bank.Bank.RewriteMetadata | src/processor/commit_state.rs:152-153 | metadata is rewritten in place through a writer |
| Bank.Bank.Delegate | src/processor/delegate.rs:63-176 | in-place delegation meets its specification; if it succeeds, an idle account has become a live session with its balance recorded, the given seeds and the staged bytes |
| Bank.Bank.Commit | src/processor/commit_state.rs:105-266 | in-place commit meets its specification; if it succeeds, an older slot changed nothing and any other commit is the pending one of a session that had none and did not allow undelegation |
| Bank.Bank.Finalize | src/processor/finalize.rs:59-136 | in-place finalize meets its specification; if it succeeds, the pending commit, if any, is finalized, and no lamports are lost |
| Bank.Bank.Undelegate | src/processor/undelegate.rs:78-212 | in-place undelegate meets its specification; if it succeeds, a session that allowed it has ended and the account has exactly the bytes it had in it |
| Bank.Bank.InitFeesVault | src/processor/init_protocol_fees_vault.rs:36-58 | the protocol's vault ends with eight zero bytes and its rent |
| Bank.Bank.InitValidatorVault | src/processor/init_validator_fees_vault.rs:45-81 | a validator's vault ends with eight zero bytes and its rent; by the admin only |
| Bank.Bank.CloseValidatorVault | src/processor/close_validator_fees_vault.rs:40-67 | the vault is gone and its whole balance with the validator; by the admin only |
| Bank.Bank.ClaimValidatorFees | src/processor/validator_claim_fees.rs:40-82 | the vault keeps its rent, the validator gets the claim less a tenth, the protocol that tenth |
| Bank.Bank.ClaimProtocolFees | src/processor/protocol_claim_fees.rs:35-69 | the protocol's vault ends at its rent and the admin gets the rest |
| Bank.Bank.Whitelist | src/processor/whitelist_validator_for_program.rs:52-98 | afterwards the program's config holds the updated set and parses to it |
| Bank.Bank.TopUpEscrow | src/processor/top_up_ephemeral_balance.rs:43-80 | the escrow gains the amount and, unless delegated, its missing rent, which the payer pays |
| Bank.Bank.DelegateEscrow | src/processor/delegate_ephemeral_balance.rs:46-98 | the escrow becomes a live session of the system program with its own seeds |
| Bank.Bank.CloseEscrow | src/processor/close_ephemeral_balance.rs:39-75 | the escrow ends empty and the payer has its whole balance |
| Bank.Bank.Process | src/processor/commit_state.rs:151-167 | an instruction takes effect as a whole: on any error, a flag already written included, the accounts are as before; and it keeps the invariant, all lamports, and moves every session by exactly its events |
| SessionEffects.DelegateEffect | src/processor/delegate.rs:100-176 | a delegation turns an idle account into a live session with its current balance recorded and the staged bytes as data |
| SessionEffects.CommitEffect | src/processor/commit_state.rs:129-266 | an unskipped commit is one abstract step: nothing was pending, undelegation was not allowed, the validator was admitted |
| SessionEffects.SettleEffect | src/processor/finalize.rs:140-176 | settling moves exactly the difference, down to the validator's vault or up from the collateral, and nothing else |
| SessionEffects.SettleSucceeds | src/processor/finalize.rs:166-173 | settling never underflows, and overflows only beyond 64 bits of lamports in all |
| SessionEffects.ApplyCommitSession | src/processor/finalize.rs:104-136 | the account ends with the committed lamports plus what arrived since the last record, with the committed bytes, and the record says so |
| SessionEffects.ApplyCommitBalances | src/processor/finalize.rs:132-134 | the validator gets back rent and unused collateral; a lowered balance goes to its vault |
| SessionEffects.FinalizeEffect | src/processor/finalize.rs:59-136 | finalizing a pending commit is one abstract step that conserves lamports and keeps all other sessions |
| UndelegateEffects.UndelegateGates | src/processor/undelegate.rs:78-140 | nothing is handed back before a finalized commit allowed it, while a commit is pending, to another program, or with the rent going elsewhere |
| UndelegateEffects.ReopenEffect | src/processor/undelegate.rs:228-276 | whatever the owner program does, the account comes back with the bytes of the buffer and no lamports are lost |
| UndelegateEffects.UndelegateEffect | src/processor/undelegate.rs:67-212 | a successful undelegation ends the session and hands back exactly the bytes of the account, conserving lamports |
| UndelegateEffects.UndelegateBalances | src/processor/undelegate.rs:170-201 | account plus validator end with what they had and what lay in the buffer; the account's own balance is preserved exactly when the owner program leaves the buffer's lamports alone |
| UndelegateEffects.UndelegateEmpty | src/processor/undelegate.rs:146-158 | an account without data goes back to its owner program with its balance untouched |
| UndelegateEffects.UndelegateFees | src/processor/undelegate.rs:316-336 | on both paths vaults and rent payer get their shares of record and metadata |
| UndelegateEffects.DataRefused | src/processor/undelegate.rs:238-314 | undelegate refuses an account with data, whatever the owner program answers, if no program signs for it, its owner program cannot be called, or it is its own validator |
| Locks.LockedForever | src/processor/undelegate.rs:228-276 | a session that allows undelegation and settled on bytes to return, of an account that cannot be opened again, stays live with those bytes after every run |
| Locks.RunFits | src/processor/delegate.rs:71-98 | after every run a live account off the curve is derived by its owner program (by this program for escrow accounts) from exactly the bytes of the seeds that program will be given |
| Lifecycle.LockedIff | src/processor/undelegate.rs:297-302 | after every run the accounts locked for good are exactly those on the curve, escrow accounts and accounts derived by an address that this program derives itself, whose session allows undelegation and settled on bytes |
| VaultEffects.VaultOpened | src/processor/init_validator_fees_vault.rs:70-79 | a new vault has eight bytes, all zero, and holds the rent of eight bytes |
| VaultEffects.ClaimMoves | src/processor/validator_claim_fees.rs:44-80 | a claim splits exactly what it takes, a tenth to the protocol, and leaves the rent of eight bytes |
| VaultEffects.ClaimSucceedsIff | src/processor/validator_claim_fees.rs:40-80 | exactly when a claim succeeds; its plain arithmetic never wraps or panics |
| ConfigEffects.WhitelistEffect | src/processor/whitelist_validator_for_program.rs:64-96 | afterwards the bytes are exactly those of the updated set, whatever the resize left in memory, with the formula's length and its rent paid |
| Contracts.InitFeesVaultContract | src/processor/init_protocol_fees_vault.rs:36-58 | succeeds exactly for a signing payer that can pay what an unused vault lacks of the rent of eight bytes; the vault, the payer and nobody else change |
| Contracts.InitValidatorVaultContract | src/processor/init_validator_fees_vault.rs:45-81 | the same for a validator's vault, with the admin's signature |
| Contracts.CloseValidatorVaultContract | src/processor/close_validator_fees_vault.rs:40-67 | succeeds exactly for both signatures, the admin and an existing vault; the validator gets its whole balance and the account is empty |
| Contracts.ClaimValidatorFeesContract | src/processor/validator_claim_fees.rs:40-82 | succeeds exactly if both vaults exist and the claim is within what lies above the rent of eight bytes; vault, protocol and validator change by claim, a tenth and the rest |
| Contracts.ClaimWraps | src/processor/validator_claim_fees.rs:45-63 | a claim beyond the balance is refused; where ten times the claim exceeds 64 bits, a checking build fails and a wrapping one takes the wrapped product |
| Contracts.ClaimBelowRent | src/processor/validator_claim_fees.rs:44-58 | for a vault below its rent a checking build panics, and a wrapping one refuses to claim everything but pays a given amount the vault holds |
| Contracts.ClaimProtocolFeesContract | src/processor/protocol_claim_fees.rs:35-69 | succeeds exactly for the signing admin and an existing vault, which ends at the rent of eight bytes |
| Contracts.WhitelistContract | src/processor/whitelist_validator_for_program.rs:52-124 | succeeds exactly if the authority signs, the admin exists and the authority is the admin or the program's upgrade authority, the set can be counted in four bytes and the authority can pay; the config then holds the set, and only the authority paid |
| Contracts.TopUpEscrowContract | src/processor/top_up_ephemeral_balance.rs:43-80 | succeeds exactly for a signing payer that can pay the amount and, unless the escrow is delegated, what it lacks of the rent; on a delegated escrow it deposits the amount alone |
| Contracts.CloseEscrowContract | src/processor/close_ephemeral_balance.rs:39-75 | succeeds exactly if the payer signs and the escrow belongs to the system program and is empty of lamports or of data; the payer gets the whole balance |
| SessionContracts.DelegateContract | src/processor/delegate.rs:63-176 | exactly when it succeeds, in terms of owners, bytes and balances; every field of record and metadata, the bytes from the staging account, what the payer pays, and that nothing else changes |
| SessionContracts.DelegateEscrowContract | src/processor/delegate_ephemeral_balance.rs:46-98 | the same for an escrow account: it may belong to the system program, its seeds are set, and validator, slot and frequency are those the caller gave |
| SessionContracts.CommitContract | src/processor/commit_state.rs:105-266 | exactly when a commit succeeds, stale ones included; the exact balances and bytes of both new accounts, the metadata, what the validator pays, and that nothing else changes |
| SessionContracts.CommitFromBufferContract | src/processor/commit_state_from_buffer.rs:43-76 | the same with the bytes of another account, whoever owns it |
| SessionContracts.FinalizeContract | src/processor/finalize.rs:59-136 | exactly when a finalize succeeds; every account after settling, writing and closing, and that nothing else changes |
| SessionContracts.UndelegateContract | src/processor/undelegate.rs:78-212 | exactly when an undelegation succeeds, all checks and both paths included; record and metadata are gone, and which accounts may change |
| Refusals.CommitAnywhere | src/processor/commit_state.rs:105-167 | in any store, reachable or not: which of missing accounts, unreadable metadata or record, a set flag and a balance below the recorded one stops a commit, and that a stale one succeeds |
| Refusals.FinalizeAnywhere | src/processor/finalize.rs:59-102 | in any store: the error of a finalize with half a commit, unreadable accounts, another account's commit or another validator's |
| Refusals.UndelegateAnywhere | src/processor/undelegate.rs:78-170 | in any store: the error of an undelegation, by the first account or field that is not in order, the undelegate buffer included |
| Refusals.SeedsOrStagingRefused | src/processor/delegate.rs:152-175 | a delegation that lacks nothing else fails for seeds that cannot be counted in four bytes, or panics for staged bytes of another length |
| Refusals.CommitRefusals | src/processor/commit_state.rs:105-228 | the error of a commit, by the first of signature, accounts, flag, collateral, approval and pending commit that is not in order |
| Refusals.UndelegateRefusals | src/processor/undelegate.rs:78-140 | the error of an undelegation, by the first check that fails |
| Refusals.ReopenRefused | src/processor/undelegate.rs:243-264 | the errors after the call: a wrong charge to the validator, other bytes, or a balance below the rent |
| Refusals.VaultRefusals | src/processor/init_validator_fees_vault.rs:45-68 | the errors of opening and closing vaults: signatures first, then the admin, then the account, then the payer |
| Sessions.CompletedSession | src/processor/undelegate.rs:87-130 | the history of every completed session: one delegation, commits each finalized in turn with slots that never decrease, only the last allowing undelegation, and its bytes handed back |
| Sessions.Onward | src/processor/commit_state.rs:129-153 | slots never decrease, the flag stays set and keeps commits out, owner, rent payer and seeds stay |
| Sessions.SessionLedger | src/processor/finalize.rs:140-176 | balance + released to vaults = initial + deposits + funded by validators, over any number of rounds |
| Runs.StepRefines | src/processor/commit_state.rs:105-266 | each step of the chain moves the session of every account by exactly its events; errors and skips have none |
| Runs.StepKeeps | src/processor/undelegate.rs:67-212 | each step keeps the invariant and conserves the lamports of all accounts |
| Runs.InstructionStep | src/processor/delegate.rs:100-176 | each successful instruction conserves lamports and touches no protected account but its own |
| Histories.RunKeeps | src/processor/utils/pda.rs:104-169 | every run keeps the invariant and conserves all lamports |
| Histories.RunRefines | src/processor/finalize.rs:59-136 | after every run the session of every account is what replaying its events gives |
| Histories.ReturnedState | src/processor/undelegate.rs:254-259 | in every run a successful undelegate hands back exactly the bytes of the one commit of the session that allowed it, which was the last and was finalized |
| Histories.SessionOnward | src/processor/finalize.rs:113-115 | slot order, one-way flag and unchanged owner, payer and seeds over the stores of any run |
| Histories.RunSettles | src/processor/finalize.rs:132-173 | what the ledger of a session counts as released and as funded is what the finalized commits of the run did credit to vaults and did not return to validators |
| Histories.RunLedger | src/processor/finalize.rs:147-173 | the balance of a live account is its initial balance plus deposits plus the lamports its validators did not get back, less the lamports credited to their vaults by its finalized commits |
| Histories.RunFinalized | src/processor/finalize.rs:105-134 | after each finalize, whoever the validator is, the account holds the committed lamports plus the deposits since the last finalize or the delegation, and, if it is its own validator, also that validator's refund |
| Histories.CommitsAreAuthorized | src/processor/commit_state.rs:109-121 | every commit in a history was signed by its validator and admitted by the config of that moment |
| Guarantees.PairedAccounts | src/processor/finalize.rs:65-99 | record and metadata exist together, commit state and commit record too and only in a live session, and the commit record names the account |
| Guarantees.Collateralized | src/processor/commit_state.rs:160-190 | the balance covers the recorded one, and a pending commit is covered by recorded balance and collateral |
| Guarantees.CommitGuardsHold | src/processor/commit_state.rs:160-167 | the guard that should never fail never fails, and neither do the parsers or the in-place write |
| Guarantees.CreateSucceedsIff | src/processor/utils/pda.rs:10-82 | creating an account succeeds exactly when it is unused and the payer can make the transfers that its missing rent asks for |
| Guarantees.FinalizeSucceedsIff | src/processor/finalize.rs:59-136 | exactly when finalize succeeds |
| Guarantees.CommitSucceedsIff | src/processor/commit_state.rs:105-266 | exactly when an unskipped commit succeeds, for any kind of payer |
| Guarantees.DelegateSucceedsIff | src/processor/delegate.rs:63-176 | exactly when a delegation succeeds, for any kind of payer: off the curve, the account must be derived by the owner program (by this one for the system program) from the bytes of the given seeds |
| Guarantees.DelegateRefused | src/processor/delegate.rs:71-89 | a delegation fails for its seeds exactly when the account is the program's, off the curve, and not derived by the owner program from those bytes |
| Guarantees.CommitRefused | src/processor/commit_state.rs:142-149 | a commit is refused as already undelegated exactly when it is well-formed, not stale, and an earlier one allowed undelegation |
| Guarantees.FinalizeRefused | src/processor/finalize.rs:96-102 | finalize is refused for the wrong validator exactly when another one made the pending commit |
| Guarantees.UndelegateRefused | src/processor/undelegate.rs:78-212 | undelegate fails as not undelegatable exactly when all checks before that one pass and no finalized commit allowed it; no later step gives that error |
| Guarantees.SuccessIsAuthorized | src/processor/utils/loaders.rs:28-35 | no instruction takes effect without its signatures, its authority and, for validators, its vault |
| Progress.UndelegateSucceedsIff | src/processor/undelegate.rs:78-212 | exactly when undelegate succeeds once its checks pass, for any validator: always without data; with data if the account is not its own validator and can be opened again, the validator can pay for the buffer and the owner program's answer conforms |
| Progress.ProgressStep | src/processor/commit_state.rs:133-167 | from a ready state the next instruction succeeds, keeps the bytes to return, and leaves less to do |
| Progress.ReadyKept | src/processor/finalize.rs:105-118 | deposits and anything else others do leaves a ready state ready, with the same bytes to return and as much to do, as long as the validator stays a wallet with no less |
| Progress.HandedBack | src/processor/undelegate.rs:87-140 | at most four instructions, all of which succeed, hand the account back with the pending or current bytes, whatever others do before each of them that spares the validator; an account that cannot be opened again and that no commit released yet comes back empty |
| Progress.CooperationPossible | src/processor/undelegate.rs:281-314 | for every account that can be opened again there is an answer that conforms, within the runtime's rules; a ready account of any other kind is never handed to its program |
| Lifecycle.DelegatedComesBack | src/processor/delegate.rs:169-174 | out and back: after any delegation at most three successful instructions return the account with the bytes it was delegated with, or empty if it cannot be opened again |
| Lifecycle.ReturnableIff | src/processor/undelegate.rs:146-158 | given an able validator, an owner program that conforms where it is called, and others that spare the validator, there are instructions that hand the account back exactly when it is not locked; if it is, no run ends its session |
| Witnesses.SessionsHappen | src/processor/undelegate.rs:54-66 | a concrete run from an uninitialized store in which an account with data is delegated, committed, finalized and handed back |
| Witnesses.PlainAccountsCanBeLocked | src/processor/delegate.rs:71-98 | for any owner program five instructions from an uninitialized store leave an account on the curve locked, with data in it |
| Witnesses.EscrowsCanBeLocked | src/processor/finalize.rs:113-126 | six instructions from an uninitialized store leave an escrow account locked, with data in it |
| Ledgers.ConfigHistory | src/processor/whitelist_validator_for_program.rs:65-96 | after every run the config is the fold of all successful insertions and removals, byte for byte |
| Ledgers.GateByHistory | src/processor/commit_state.rs:193-209 | the gate admits everyone before the first change, and then exactly those whose last change was an insertion |
| Ledgers.ClaimsAddUp | src/processor/validator_claim_fees.rs:61-80 | over all claims of a run: shares add up, and the protocol gets a tenth less at most nine tenths of a lamport per claim |
| Ledgers.VaultFloor | src/processor/validator_claim_fees.rs:45-51 | after every run each initialized vault holds its rent |
| Ledgers.EscrowChanges | src/processor/top_up_ephemeral_balance.rs:54-78 | what each step does to an escrow's balance: only its settlement and its closing take from it |
| Ledgers.EscrowBook | src/processor/close_ephemeral_balance.rs:57-73 | over any run the balance is what was paid, settled and received, less refunds, and what was received is never negative |
| Ledgers.EscrowRefund | src/processor/close_ephemeral_balance.rs:57-73 | closing refunds everything paid in, rent included, plus net settlement, and never less than that |
| Ledgers.EscrowCloses | src/processor/close_ephemeral_balance.rs:39-75 | after every run an escrow account that is not delegated can be closed by its payer's signature: it never has data |
| Ledgers.TopUpsChargeRentOnce | src/processor/utils/pda.rs:24-79 | repeated top-ups end at max(balance, rent) plus the amounts, and cost exactly that |
| Bundles.PaddingChangesNothing | src/processor/finalize.rs:68-79 | stale commits and idle finalizes anywhere in a bundle change neither its store nor its error |
| Bundles.PaddedRuns | src/processor/commit_state.rs:129-140 | idle submissions by anyone, anywhere in a run and mixed with any other moves, leave all accounts at its end the same |
| Bundles.FinalizedIdles | src/processor/utils/loaders.rs:110-115 | after a finalize another one finds nothing to do, and succeeds |
| Bundles.FinalizeTwice | src/processor/finalize.rs:68-81 | finalizing twice is finalizing once |

## Left out

- Key derivation, bump seeds and the curve check (src/processor/utils/curve.rs): addresses are symbolic and on-curve is a property of plain addresses; their bytes cannot be computed with, only read back.
- Accounts passed in the wrong place: the model derives every derived account, so the errors for wrong addresses, missing accounts, read-only or non-executable accounts do not occur in it.
- Instruction encoding and dispatch (src/lib.rs, src/args, src/instruction_builder): instructions are values.
- Owner and data of other programs' accounts inside a call: the owner program's answer is an arbitrary value that the runtime's rules accept; re-entry into this program is not part of it.
- The owner of an account after the call into its owner program: the code does not check it (src/processor/undelegate.rs:254-259), so only `UndelegateEmpty` states an owner.
- The loader's account format (src/processor/utils/loaders.rs:197-235): upgrade authorities are parameters.
- Clock and rent sysvars: the slot of a delegation is an argument, rent is a parameter.
- The order in which a set of addresses is written: an arbitrary listing of each set, once per element.
- Borrow errors, logging, compute and reallocation limits, and the rent check at the end of a transaction.
- Lifecycle.DelegatedComesBack: assumes that the validator is a wallet the owner program approves and that can advance the rents.
- Whether a program exists at an address and what it answers: only which addresses can hold none.
- Limits on the number and length of seeds; and addresses that other programs derive from the same bytes split differently count as different.
- Ledgers.EscrowChanges: lumps together, as arrivals, all lamports that steps not about the escrow bring to it.
