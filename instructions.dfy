/** The instructions the deposit-and-vote action puts into its batches, treated
    as values; their byte encodings are not modelled. */
module Instructions {
  import opened Options
  import opened Ledger

  datatype Instruction =
      /** System program: allocate `newAccount`, funded by `payer` with `lamports`. */
    | CreateAccount(payer: Key, newAccount: Key, lamports: nat)
      /** Token program: initialise `account` as a token account of `mint` owned by `owner`. */
    | InitTokenAccount(account: Key, mint: Key, owner: Key)
      /** Governance program: create the empty voting record of `voteAccount` for `proposal`. */
    | CreateVotingRecord(votingRecord: Key, proposal: Key, voteAccount: Key, payer: Key)
      /** Token program: let `delegate` move up to `amount` tokens out of `account`. */
    | ApproveDelegate(account: Key, delegate: Key, owner: Key, amount: nat)
      /** Governance program: deposit `amount` source tokens, minting voting tokens into `voteAccount`. */
    | DepositSourceTokens(votingRecord: Key, voteAccount: Key, sourceAccount: Key,
                          sourceHolding: Key, votingMint: Key, proposal: Key,
                          transferAuthority: Key, mintAuthority: Key, amount: nat)
      /** Governance program: spend voting tokens from `voteAccount` as yes and no tokens. */
    | CastVote(votingRecord: Key, proposalState: Key, voteAccount: Key,
               yesAccount: Key, noAccount: Key, votingMint: Key, yesMint: Key,
               noMint: Key, sourceMint: Key, proposal: Key, governance: Key,
               transferAuthority: Key, mintAuthority: Key, yesAmount: nat, noAmount: nat)

  datatype Kind = AccountCreation | TokenAccountInit | RecordCreation | Approval | Deposit | VoteCast

  function KindOf(ix: Instruction): Kind {
    match ix
    case CreateAccount(_, _, _) => AccountCreation
    case InitTokenAccount(_, _, _) => TokenAccountInit
    case CreateVotingRecord(_, _, _, _) => RecordCreation
    case ApproveDelegate(_, _, _, _) => Approval
    case DepositSourceTokens(_, _, _, _, _, _, _, _, _) => Deposit
    case CastVote(_, _, _, _, _, _, _, _, _, _, _, _, _, _, _) => VoteCast
  }

  /** The number of instructions of kind `k` in `ixs`. */
  function Count(ixs: seq<Instruction>, k: Kind): nat
  {
    if ixs == [] then 0
    else (if KindOf(ixs[0]) == k then 1 else 0) + Count(ixs[1..], k)
  }

  /** The keypair, other than the wallet that pays for and signs every
      transaction, whose signature an instruction needs: a new account signs its
      own allocation, and a transfer authority signs the instruction that spends
      the tokens delegated to it. */
  function ExtraSigner(ix: Instruction): Option<Key> {
    match ix
    case CreateAccount(_, newAccount, _) => Some(newAccount)
    case DepositSourceTokens(_, _, _, _, _, _, transferAuthority, _, _) => Some(transferAuthority)
    case CastVote(_, _, _, _, _, _, _, _, _, _, _, transferAuthority, _, _, _) => Some(transferAuthority)
    case _ => None
  }

  /** Every extra signer the instructions of a batch need is among its signers. */
  ghost predicate SignedBy(ixs: seq<Instruction>, signers: seq<Key>) {
    forall i :: 0 <= i < |ixs| && ExtraSigner(ixs[i]).Some? ==> ExtraSigner(ixs[i]).value in signers
  }
}
