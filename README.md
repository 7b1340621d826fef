# Deposit source tokens and vote — a Dafny model

This project models `depositSourceTokensAndVote` from the governance
package of the Oyster monorepo. The action lets a voter deposit source
tokens for a proposal and cast a vote in one user action. It:

- reuses each of the voter's three token accounts (vote, yes, no) when the
  caller supplies it, and creates the missing ones;
- creates the governance voting record together with a freshly created
  vote account, and only then;
- derives the voting-record address and the mint-authority address;
- builds a deposit batch, which ends with an approval of the deposit amount
  to a fresh transfer authority and then the deposit;
- builds a vote batch: an approval of yes + no over the vote account to a
  second fresh authority, then the vote;
- notifies the user and submits the two batches strictly in order.

Files and modules:

- `options.dfy` (`Options`): the optional value, for arguments the caller may
  leave `undefined`.
- `ledger.dfy` (`Ledger`): public keys, and program-derived addresses as a
  deterministic, collision-free term of their seeds. `KeyPairs` stands in
  for `new Account()`: it hands out numbered keypairs.
- `instructions.dfy` (`Instructions`): the instructions as values. Also how
  to count them by kind, and which extra keypair each one needs as a signer.
- `common.dfy` (`Common`): the shared-library helpers the action calls. `Vec`
  is a JavaScript array that is only pushed to. `CreateTokenAccount` and
  `Approve` append to the arrays they are given and return a fresh key.
- `sequencer.dfy` (`Sequencer`): `sendTransactions` in `Sequential` mode.
  Batches go out one after another, and the first failure stops the run.
- `deposit_and_vote.dfy` (`DepositAndVote`): amount and label selection, the
  two address derivations, and `PlanFor`, a reference function giving the
  batches one call builds. It also holds the imperative action, split into
  its provisioning steps, its two phases and its submission.
- `properties.dfy` (`Properties`): lemmas about `PlanFor`. They cover counts
  per instruction kind, where the record creation sits, fresh and distinct
  signers, signer coverage, retries, the amount invariant and an end-to-end
  scenario.

The imperative methods are proved against `PlanFor`. What the action
promises is proved about `PlanFor`, partly in its own `ensures` and partly in
the lemmas.

On amounts, the code is followed. The deposit amount is the yes amount when
it is positive, and the no amount otherwise. In the vote phase the approval
is always `yes + no`. `OneSidedVoteConservesAmount` proves that the two
approvals agree exactly when one of the amounts is zero. A call with both
amounts positive is not rejected: it builds a vote that spends more than the
deposit approved.

## Model

| member | source | states |
|---|---|---|
| `DepositAndVote.VotingTokenAmount` | packages/governance/src/actions/depositSourceTokensAndVote.ts:48-49 | the deposit amount is one of the two amounts, the yes amount whenever it is positive, and equals yes + no for a one-sided vote |
| `Ledger.FindProgramAddress` | packages/governance/src/actions/depositSourceTokensAndVote.ts:72-80 | a derived address belongs to the deriving program and is never the public key of a generated keypair |
| `DepositAndVote.VotingRecordAddress` | packages/governance/src/actions/depositSourceTokensAndVote.ts:72-80 | the voting record is derived under the governance program from exactly the seeds [authority seed, governance program id, proposal, vote account], in that order |
| `DepositAndVote.MintAuthorityAddress` | packages/governance/src/actions/depositSourceTokensAndVote.ts:115-118 | the mint authority is derived under the governance program from exactly the seeds [authority seed, proposal], in that order |
| `Properties.DerivedAddressesDistinct` | packages/governance/src/actions/depositSourceTokensAndVote.ts:72-80 | equal voting records iff equal (proposal, vote account); equal mint authorities iff equal proposals; a record is never a mint authority |
| `DepositAndVote.VoteMessages` | packages/governance/src/actions/depositSourceTokensAndVote.ts:177-188 | the yes ("yeah") labels are chosen exactly when yes > 0, else the nay labels; the announced token count is the deposited amount |
| `Ledger.KeyPairs.NewAccount` | packages/governance/src/actions/depositSourceTokensAndVote.ts:120-126 | each new keypair has the next serial, so it differs from every keypair handed out before |
| `Common.CreateTokenAccount` | packages/governance/src/actions/depositSourceTokensAndVote.ts:62-69 | appends the allocation funded with the rent-exempt balance and the token-account initialisation with the given mint and owner; the new keypair joins the signers and is returned |
| `Common.Approve` | packages/governance/src/actions/depositSourceTokensAndVote.ts:120-126 | appends one approval of exactly `amount` over `account` to a fresh transfer authority, which is returned and added to no signer list |
| `DepositAndVote.ProvideTokenAccount` | packages/governance/src/actions/depositSourceTokensAndVote.ts:93-113 | a supplied account is returned and nothing is appended; a missing one takes the next keypair and appends its creation pair and its signer |
| `DepositAndVote.ProvideVoteAccount` | packages/governance/src/actions/depositSourceTokensAndVote.ts:60-91 | the vote account is provisioned like the others, its record is derived from it, and the record creation is appended right after, exactly when the account was created |
| `DepositAndVote.ComposeDepositPhase` | packages/governance/src/actions/depositSourceTokensAndVote.ts:53-142 | the deposit instructions and signers built step by step are those of `PlanFor`, and the accounts and addresses it returns are the plan's |
| `DepositAndVote.ComposeVotePhase` | packages/governance/src/actions/depositSourceTokensAndVote.ts:144-175 | the vote phase is exactly [approval of yes + no over the vote account to a new authority, the vote with the yes and no amounts unchanged], signed by that authority alone |
| `DepositAndVote.PlanFor` | packages/governance/src/actions/depositSourceTokensAndVote.ts:48-175 | supplied accounts are reused; both authorities are fresh and distinct; record and mint authority are the derived ones, shared by both phases; the deposit batch ends with approve(source, amount) then deposit(amount); the deposit authority is the last deposit signer; the vote batch is [approve(yes + no), vote(yes, no)] with signers [vote authority] |
| `Sequencer.SendTransactions` | packages/governance/src/actions/depositSourceTokensAndVote.ts:197-203 | submits a prefix of the batches in order; every submitted batch but the last was confirmed; success iff all batches went out and were confirmed; on failure the last submitted batch is the one that failed |
| `DepositAndVote.SubmitAndNotify` | packages/governance/src/actions/depositSourceTokensAndVote.ts:177-213 | batches are [deposit, vote]; the deposit always goes out; the vote goes out iff the deposit is confirmed; the call succeeds iff both are confirmed; the "voting" notice comes first and the "voted" notice only on success; a failure carries no cause |
| `DepositAndVote.DepositSourceTokensAndVote` | packages/governance/src/actions/depositSourceTokensAndVote.ts:35-214 | the whole action: the batches handed to the submitter are those of `PlanFor`, it consumes exactly the keypairs the plan uses, and submission and notices behave as in `SubmitAndNotify` |
| `Properties.DepositPhaseCounts` | packages/governance/src/actions/depositSourceTokensAndVote.ts:60-142 | per missing slot exactly one allocation and one initialisation; one record creation iff the vote account is missing; exactly one approval and one deposit; no vote |
| `Properties.MissingAccountsCreatedWithTheirMints` | packages/governance/src/actions/depositSourceTokensAndVote.ts:61-113 | a missing vote, yes or no account is allocated and initialised with votingMint, yesVotingMint or noVotingMint respectively, owned and paid for by the wallet |
| `Properties.DepositSignersFresh` | packages/governance/src/actions/depositSourceTokensAndVote.ts:53-128 | the deposit signers are one fresh keypair per created account followed by the deposit authority, have consecutive serials, are pairwise distinct and exclude the vote authority, which takes the next serial; one call uses one keypair per missing account plus two |
| `Properties.VotingRecordPosition` | packages/governance/src/actions/depositSourceTokensAndVote.ts:60-113 | a record creation occurs only when the vote account is missing, as the third instruction, after the vote account's allocation and initialisation; the only account allocated before it is its vote account |
| `Properties.DepositPhaseSigned` | packages/governance/src/actions/depositSourceTokensAndVote.ts:60-142 | the deposit signers include every account the deposit phase creates and the deposit authority its deposit spends through |
| `Properties.SignersCoverTheirBatches` | packages/governance/src/actions/depositSourceTokensAndVote.ts:120-175 | each batch carries every extra signer its instructions need; the vote authority is not a deposit signer and the deposit authority not a vote signer |
| `Properties.RetryCreatesRecordAtMostOnce` | packages/governance/src/actions/depositSourceTokensAndVote.ts:60-91 | a retry that passes back the vote account the first call created addresses the same record, and the record is created at most once over both calls; passing back all three accounts creates no account |
| `Properties.OneSidedVoteConservesAmount` | packages/governance/src/actions/depositSourceTokensAndVote.ts:120-153 | the deposit approval and the deposit carry the same amount; the vote approval equals yes + no of the vote; the deposit equals the vote approval iff one amount is zero |
| `Properties.FreshVoterScenario` | packages/governance/src/actions/depositSourceTokensAndVote.ts:35-175 | a voter with no accounts voting 25 yes gets 9 deposit instructions, namely 3 allocations, 3 initialisations, 1 record, an approval of 25 and a deposit of 25, with 4 signers, and a vote phase of an approval of 25 and a vote of 25 yes, 0 no |

## Left out

- The connection. `getMinimumBalanceForRentExemption` becomes the input `rentExempt`; its failure is not modelled.
- `Ledger.FindProgramAddress`: SHA-256, the off-curve test and the bump search are not modelled. The address is a free term of (seeds, program), which models the determinism and collision resistance the action relies on. The bump is discarded by the source, and the derivation's failure case is not modelled.
- `Ledger.KeyPairs.NewAccount`: randomly generated keypairs are replaced by a counter. Freshness is guaranteed among the keypairs of one call. Collisions with caller-supplied keys are not excluded.
- `Common.CreateTokenAccount` and `Common.Approve`: their source files are not part of this model, so they are modelled only by the instructions they append, as the action uses them. `approve` also receives a cleanup array; the action passes a new empty array and never submits it, so it is not modelled.
- The encodings of the instructions built by `depositSourceTokensInstruction`, `createEmptyGovernanceVotingRecordInstruction`, `voteInstruction`, `approve` and `createTokenAccount`, and the account lists and program ids they target, are not modelled. The instructions are values holding the keys and amounts the action passes.
- `Instructions.ExtraSigner` is an assumption about the on-chain programs. A new account signs its own allocation, and a transfer authority signs the instruction that spends its delegation. Every other signature is the wallet's.
- `Sequencer.SendTransactions`: signing, blockhashes, retries, timeouts and the other sequence modes are not modelled. The ledger is the parameter `confirms`, one verdict per transaction. Its handling of empty batches is not modelled; both batches here are never empty (`PlanFor`). Because signing is left out, "the deposit batch always goes out" in `SubmitAndNotify` and `DepositSourceTokensAndVote` holds only in the model: a wallet that refuses to sign, or a failed blockhash fetch, ends the real call after the "voting" notice with nothing submitted.
- `notify` and `console.error`: the transport and the label strings are left out. Labels are symbolic values, and the token-count description carries its amount. The logged cause of a failure is dropped; the model's `Failed` carries none, as the rethrown `Error` does.
- `async`/`await`: suspension is not modelled; the order of the steps is kept.
- `DepositAndVote.VotingTokenAmount`: JavaScript `number` amounts are modelled as `nat`. Negative, fractional and unsafe-integer amounts are not modelled, and `yes + no` is exact.
- `PROGRAM_IDS` from `utils.programIds()` becomes the parameter `programId` (the governance program).
- packages/bridge/src/contexts/ethereum.tsx: React context and wallet-provider wiring, with no logic to state.
