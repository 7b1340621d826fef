/** `depositSourceTokensAndVote`: provision the voter's accounts, deposit
    source tokens for voting tokens, then cast the vote, as two batches sent one
    after the other. */
module DepositAndVote {
  import opened Options
  import opened Ledger
  import opened Instructions
  import opened Common
  import opened Sequencer

  /** The part of a proposal the action reads. */
  datatype Proposal = Proposal(pubkey: Key, sourceMint: Key, votingMint: Key,
                               yesVotingMint: Key, noVotingMint: Key, sourceHolding: Key)

  /** The arguments of one call, minus the connection. */
  datatype Request = Request(
    wallet: Key,
    proposal: Proposal,
    existingVoteAccount: Option<Key>,
    existingYesVoteAccount: Option<Key>,
    existingNoVoteAccount: Option<Key>,
    sourceAccount: Key,
    governance: Key,
    state: Key,
    yesVotingTokenAmount: nat,
    noVotingTokenAmount: nat)

  /** The amount deposited: the yes amount when it is positive, the no amount
      otherwise. For a vote in one direction it is the amount voted. */
  function VotingTokenAmount(yes: nat, no: nat): (amount: nat)
    ensures amount == yes || amount == no
    ensures yes > 0 ==> amount == yes
    ensures yes == 0 || no == 0 ==> amount == yes + no
  {
    if yes > 0 then yes else no
  }

  // ---- Address derivation ---------------------------------------------------

  /** The governance voting record of `voteAccount` for `proposal`. */
  function VotingRecordAddress(programId: Key, proposal: Key, voteAccount: Key): (record: Key)
    ensures !record.Generated? && record.ProgramAddress? && record.program == programId
    ensures |record.seeds| == 4 && record.seeds[0] == AuthoritySeed && record.seeds[1] == KeySeed(programId)
    ensures record.seeds[2] == KeySeed(proposal) && record.seeds[3] == KeySeed(voteAccount)
  {
    FindProgramAddress([AuthoritySeed, KeySeed(programId), KeySeed(proposal), KeySeed(voteAccount)], programId)
  }

  /** The authority that mints voting tokens for `proposal`; no voter input enters it. */
  function MintAuthorityAddress(programId: Key, proposal: Key): (authority: Key)
    ensures !authority.Generated? && authority.ProgramAddress? && authority.program == programId
    ensures |authority.seeds| == 2 && authority.seeds[0] == AuthoritySeed && authority.seeds[1] == KeySeed(proposal)
  {
    FindProgramAddress([AuthoritySeed, KeySeed(proposal)], programId)
  }

  // ---- Notification labels --------------------------------------------------

  datatype Label =
    | VotingYeah | VotedYeah | VotingNay | VotedNay | PleaseWait
    | TokensVotedForTheProposal(amount: nat)
    | TokensVotedAgainstTheProposal(amount: nat)

  datatype Messages = Messages(voting: Label, voted: Label, voteTokens: Label)

  /** The three texts shown to the user, for the direction the amounts vote. */
  function VoteMessages(yes: nat, no: nat): (m: Messages)
    ensures m.voting == VotingYeah <==> yes > 0
    ensures m.voted == VotedYeah <==> yes > 0
    ensures m.voting == VotingNay <==> yes == 0
    ensures m.voted == VotedNay <==> yes == 0
    ensures m.voteTokens.TokensVotedForTheProposal? <==> yes > 0
    ensures m.voteTokens.TokensVotedForTheProposal? || m.voteTokens.TokensVotedAgainstTheProposal?
    ensures m.voteTokens.amount == VotingTokenAmount(yes, no)
  {
    if yes > 0 then Messages(VotingYeah, VotedYeah, TokensVotedForTheProposal(yes))
    else Messages(VotingNay, VotedNay, TokensVotedAgainstTheProposal(no))
  }

  datatype NoticeType = Warn | Success
  datatype Notice = Notice(message: Label, description: Label, noticeType: NoticeType)

  /** A call ends either with the vote cast or with a failure that carries no cause. */
  datatype Outcome = Voted | Failed

  // ---- The reference plan ---------------------------------------------------

  /** The account used for a slot: the supplied one, or the next fresh keypair. */
  function Provision(existing: Option<Key>, next: nat): (Key, nat) {
    match existing
    case Some(account) => (account, next)
    case None => (Generated(next), next + 1)
  }

  /** What provisioning a slot adds to the deposit instructions. */
  function Creation(existing: Option<Key>, account: Key, wallet: Key, rentExempt: nat, mint: Key): seq<Instruction> {
    if existing.None? then [CreateAccount(wallet, account, rentExempt), InitTokenAccount(account, mint, wallet)] else []
  }

  /** The voting record is created together with the vote account, and only then. */
  function VotingRecordCreation(existingVoteAccount: Option<Key>, record: Key, proposal: Key, voteAccount: Key, wallet: Key)
    : seq<Instruction>
  {
    if existingVoteAccount.None? then [CreateVotingRecord(record, proposal, voteAccount, wallet)] else []
  }

  /** What provisioning a slot adds to the deposit signers. */
  function CreationSigner(existing: Option<Key>, account: Key): seq<Key> {
    if existing.None? then [account] else []
  }

  /** The vote, yes and no accounts after provisioning, and the serial of the
      next fresh keypair. */
  datatype Accounts = Accounts(vote: Key, yes: Key, no: Key, next: nat)

  /** Provisioning the three slots in order, numbering fresh keypairs from `first`. */
  function ProvisionAccounts(r: Request, first: nat): Accounts {
    var (vote, n1) := Provision(r.existingVoteAccount, first);
    var (yes, n2) := Provision(r.existingYesVoteAccount, n1);
    var (no, n3) := Provision(r.existingNoVoteAccount, n2);
    Accounts(vote, yes, no, n3)
  }

  /** The vote account's segments of the deposit phase: its creation and its
      record's, both present exactly when the caller supplied no vote account. */
  function VoteAccountSegments(r: Request, programId: Key, rentExempt: nat, voteAccount: Key): seq<Instruction> {
    Creation(r.existingVoteAccount, voteAccount, r.wallet, rentExempt, r.proposal.votingMint)
    + VotingRecordCreation(r.existingVoteAccount, VotingRecordAddress(programId, r.proposal.pubkey, voteAccount),
                           r.proposal.pubkey, voteAccount, r.wallet)
  }

  /** The deposit-phase instructions, the deposit authority being keypair `a.next`. */
  function DepositInstructions(r: Request, programId: Key, rentExempt: nat, a: Accounts): seq<Instruction> {
    var record := VotingRecordAddress(programId, r.proposal.pubkey, a.vote);
    var amount := VotingTokenAmount(r.yesVotingTokenAmount, r.noVotingTokenAmount);
    VoteAccountSegments(r, programId, rentExempt, a.vote)
    + Creation(r.existingYesVoteAccount, a.yes, r.wallet, rentExempt, r.proposal.yesVotingMint)
    + Creation(r.existingNoVoteAccount, a.no, r.wallet, rentExempt, r.proposal.noVotingMint)
    + [ApproveDelegate(r.sourceAccount, Generated(a.next), r.wallet, amount)]
    + [DepositSourceTokens(record, a.vote, r.sourceAccount, r.proposal.sourceHolding, r.proposal.votingMint,
                           r.proposal.pubkey, Generated(a.next), MintAuthorityAddress(programId, r.proposal.pubkey),
                           amount)]
  }

  /** The deposit-phase signers: the accounts created here, then the deposit authority. */
  function DepositSigners(r: Request, a: Accounts): seq<Key> {
    CreationSigner(r.existingVoteAccount, a.vote)
    + CreationSigner(r.existingYesVoteAccount, a.yes)
    + CreationSigner(r.existingNoVoteAccount, a.no)
    + [Generated(a.next)]
  }

  /** The vote-phase instructions, the vote authority being keypair `a.next + 1`. */
  function VoteInstructions(r: Request, programId: Key, a: Accounts): seq<Instruction> {
    var voteAuthority := Generated(a.next + 1);
    [ApproveDelegate(a.vote, voteAuthority, r.wallet, r.yesVotingTokenAmount + r.noVotingTokenAmount),
     CastVote(VotingRecordAddress(programId, r.proposal.pubkey, a.vote), r.state, a.vote, a.yes, a.no,
              r.proposal.votingMint, r.proposal.yesVotingMint, r.proposal.noVotingMint, r.proposal.sourceMint,
              r.proposal.pubkey, r.governance, voteAuthority, MintAuthorityAddress(programId, r.proposal.pubkey),
              r.yesVotingTokenAmount, r.noVotingTokenAmount)]
  }

  datatype Plan = Plan(
    voteAccount: Key,
    yesAccount: Key,
    noAccount: Key,
    votingRecord: Key,
    mintAuthority: Key,
    depositAuthority: Key,
    voteAuthority: Key,
    depositInstructions: seq<Instruction>,
    depositSigners: seq<Key>,
    voteInstructions: seq<Instruction>,
    voteSigners: seq<Key>,
    nextSerial: nat)

  /** The batches one call builds, when the keypairs it creates are numbered
      from `first` on: the vote, yes and no accounts where they are missing,
      then the deposit authority, then the vote authority. */
  function PlanFor(r: Request, programId: Key, rentExempt: nat, first: nat): (p: Plan)
    // both authorities are fresh keypairs, and they are different keys
    ensures p.depositAuthority.Generated? && p.voteAuthority.Generated?
    ensures p.depositAuthority != p.voteAuthority
    // supplied accounts are reused as they are
    ensures r.existingVoteAccount.Some? ==> p.voteAccount == r.existingVoteAccount.value
    ensures r.existingYesVoteAccount.Some? ==> p.yesAccount == r.existingYesVoteAccount.value
    ensures r.existingNoVoteAccount.Some? ==> p.noAccount == r.existingNoVoteAccount.value
    // both derived addresses, shared between the phases
    ensures p.votingRecord == VotingRecordAddress(programId, r.proposal.pubkey, p.voteAccount)
    ensures p.mintAuthority == MintAuthorityAddress(programId, r.proposal.pubkey)
    // the deposit phase ends with the source approval and the deposit it funds
    ensures var ixs := p.depositInstructions; var amount := VotingTokenAmount(r.yesVotingTokenAmount, r.noVotingTokenAmount);
      && |ixs| >= 2
      && ixs[|ixs| - 2] == ApproveDelegate(r.sourceAccount, p.depositAuthority, r.wallet, amount)
      && ixs[|ixs| - 1] == DepositSourceTokens(p.votingRecord, p.voteAccount, r.sourceAccount,
                                               r.proposal.sourceHolding, r.proposal.votingMint,
                                               r.proposal.pubkey, p.depositAuthority, p.mintAuthority, amount)
    ensures |p.depositSigners| >= 1 && p.depositSigners[|p.depositSigners| - 1] == p.depositAuthority
    // the vote phase is an approval of yes + no over the vote account, then the vote
    ensures p.voteInstructions
         == [ApproveDelegate(p.voteAccount, p.voteAuthority, r.wallet, r.yesVotingTokenAmount + r.noVotingTokenAmount),
             CastVote(p.votingRecord, r.state, p.voteAccount, p.yesAccount, p.noAccount,
                      r.proposal.votingMint, r.proposal.yesVotingMint, r.proposal.noVotingMint,
                      r.proposal.sourceMint, r.proposal.pubkey, r.governance, p.voteAuthority,
                      p.mintAuthority, r.yesVotingTokenAmount, r.noVotingTokenAmount)]
    ensures p.voteSigners == [p.voteAuthority]
  {
    var a := ProvisionAccounts(r, first);
    var record := VotingRecordAddress(programId, r.proposal.pubkey, a.vote);
    var mintAuthority := MintAuthorityAddress(programId, r.proposal.pubkey);
    Plan(a.vote, a.yes, a.no, record, mintAuthority, Generated(a.next), Generated(a.next + 1),
         DepositInstructions(r, programId, rentExempt, a), DepositSigners(r, a),
         VoteInstructions(r, programId, a), [Generated(a.next + 1)], a.next + 2)
  }

  // ---- The action -----------------------------------------------------------

  /** One `if (!existingX) existingX = createTokenAccount(...)` step: a supplied
      account is reused and nothing is emitted; a missing one is created as a
      token account of `mint` owned by the wallet. */
  method ProvideTokenAccount(existing: Option<Key>, instructions: Vec<Instruction>, wallet: Key,
                             rentExempt: nat, mint: Key, signers: Vec<Key>, keys: KeyPairs)
    returns (account: Key)
    modifies instructions, signers, keys
    ensures (account, keys.issued) == Provision(existing, old(keys.issued))
    ensures instructions.elems == old(instructions.elems) + Creation(existing, account, wallet, rentExempt, mint)
    ensures signers.elems == old(signers.elems) + CreationSigner(existing, account)
  {
    if existing.None? {
      account := CreateTokenAccount(instructions, wallet, rentExempt, mint, wallet, signers, keys);
    } else {
      account := existing.value;
    }
  }

  /** The vote account's step: reuse the supplied vote account or create one,
      derive its governance voting record, and append the record's creation
      exactly when the vote account was created here. */
  method ProvideVoteAccount(r: Request, programId: Key, rentExempt: nat, instructions: Vec<Instruction>,
                            signers: Vec<Key>, keys: KeyPairs)
    returns (voteAccount: Key, governanceVotingRecord: Key)
    modifies instructions, signers, keys
    ensures (voteAccount, keys.issued) == Provision(r.existingVoteAccount, old(keys.issued))
    ensures governanceVotingRecord == VotingRecordAddress(programId, r.proposal.pubkey, voteAccount)
    ensures instructions.elems
         == old(instructions.elems)
            + Creation(r.existingVoteAccount, voteAccount, r.wallet, rentExempt, r.proposal.votingMint)
            + VotingRecordCreation(r.existingVoteAccount, governanceVotingRecord, r.proposal.pubkey, voteAccount, r.wallet)
    ensures signers.elems == old(signers.elems) + CreationSigner(r.existingVoteAccount, voteAccount)
  {
    var needToCreateGovAccountToo := r.existingVoteAccount.None?;
    voteAccount := ProvideTokenAccount(r.existingVoteAccount, instructions, r.wallet, rentExempt,
                                       r.proposal.votingMint, signers, keys);

    governanceVotingRecord := VotingRecordAddress(programId, r.proposal.pubkey, voteAccount);

    if needToCreateGovAccountToo {
      instructions.Push(CreateVotingRecord(governanceVotingRecord, r.proposal.pubkey, voteAccount, r.wallet));
    }
  }

  /** The deposit phase of the action: provision the accounts, derive the two
      addresses and build the deposit instructions and signers, step by step,
      into JavaScript-style arrays. */
  method ComposeDepositPhase(r: Request, programId: Key, rentExempt: nat, keys: KeyPairs)
    returns (voteAccount: Key, yesAccount: Key, noAccount: Key, governanceVotingRecord: Key, mintAuthority: Key,
             depositInstructions: seq<Instruction>, depositSigners: seq<Key>)
    modifies keys
    ensures var a := ProvisionAccounts(r, old(keys.issued));
      && voteAccount == a.vote && yesAccount == a.yes && noAccount == a.no
      && governanceVotingRecord == VotingRecordAddress(programId, r.proposal.pubkey, a.vote)
      && mintAuthority == MintAuthorityAddress(programId, r.proposal.pubkey)
      && depositInstructions == DepositInstructions(r, programId, rentExempt, a)
      && depositSigners == DepositSigners(r, a)
      && keys.issued == a.next + 1
  {
    ghost var a := ProvisionAccounts(r, keys.issued);
    var votingTokenAmount := VotingTokenAmount(r.yesVotingTokenAmount, r.noVotingTokenAmount);

    var depositSignerList := new Vec<Key>();
    var depositInstructionList := new Vec<Instruction>();

    voteAccount, governanceVotingRecord := ProvideVoteAccount(r, programId, rentExempt, depositInstructionList,
                                                              depositSignerList, keys);

    yesAccount := ProvideTokenAccount(r.existingYesVoteAccount, depositInstructionList, r.wallet, rentExempt,
                                      r.proposal.yesVotingMint, depositSignerList, keys);
    noAccount := ProvideTokenAccount(r.existingNoVoteAccount, depositInstructionList, r.wallet, rentExempt,
                                     r.proposal.noVotingMint, depositSignerList, keys);
    assert (voteAccount, yesAccount, noAccount, keys.issued) == (a.vote, a.yes, a.no, a.next);

    mintAuthority := MintAuthorityAddress(programId, r.proposal.pubkey);

    var depositAuthority := Approve(depositInstructionList, r.sourceAccount, r.wallet, votingTokenAmount, keys);
    depositSignerList.Push(depositAuthority);
    depositInstructionList.Push(DepositSourceTokens(governanceVotingRecord, voteAccount, r.sourceAccount,
                                                    r.proposal.sourceHolding, r.proposal.votingMint, r.proposal.pubkey,
                                                    depositAuthority, mintAuthority, votingTokenAmount));
    depositInstructions, depositSigners := depositInstructionList.elems, depositSignerList.elems;
  }

  /** The vote phase of the action: a second, separate transfer authority is
      approved for yes + no tokens of the vote account, and the vote spends them. */
  method ComposeVotePhase(r: Request, voteAccount: Key, yesAccount: Key, noAccount: Key,
                          governanceVotingRecord: Key, mintAuthority: Key, keys: KeyPairs)
    returns (voteInstructions: seq<Instruction>, voteSigners: seq<Key>)
    modifies keys
    ensures var voteAuthority := Generated(old(keys.issued));
      && voteInstructions
         == [ApproveDelegate(voteAccount, voteAuthority, r.wallet, r.yesVotingTokenAmount + r.noVotingTokenAmount),
             CastVote(governanceVotingRecord, r.state, voteAccount, yesAccount, noAccount,
                      r.proposal.votingMint, r.proposal.yesVotingMint, r.proposal.noVotingMint,
                      r.proposal.sourceMint, r.proposal.pubkey, r.governance, voteAuthority,
                      mintAuthority, r.yesVotingTokenAmount, r.noVotingTokenAmount)]
      && voteSigners == [voteAuthority]
      && keys.issued == old(keys.issued) + 1
  {
    var voteSignerList := new Vec<Key>();
    var voteInstructionList := new Vec<Instruction>();

    var voteAuthority := Approve(voteInstructionList, voteAccount, r.wallet,
                                 r.yesVotingTokenAmount + r.noVotingTokenAmount, keys);
    voteSignerList.Push(voteAuthority);
    voteInstructionList.Push(CastVote(governanceVotingRecord, r.state, voteAccount, yesAccount, noAccount,
                                      r.proposal.votingMint, r.proposal.yesVotingMint, r.proposal.noVotingMint,
                                      r.proposal.sourceMint, r.proposal.pubkey, r.governance, voteAuthority,
                                      mintAuthority, r.yesVotingTokenAmount, r.noVotingTokenAmount));
    voteInstructions, voteSigners := voteInstructionList.elems, voteSignerList.elems;
  }

  /** The closing half of the action: announce the vote, submit the deposit
      batch and then the vote batch sequentially, and announce success only
      once the submission has resolved; any failure ends the call with a
      generic error. */
  method SubmitAndNotify(wallet: Key, depositInstructions: seq<Instruction>, depositSigners: seq<Key>,
                         voteInstructions: seq<Instruction>, voteSigners: seq<Key>,
                         yesVotingTokenAmount: nat, noVotingTokenAmount: nat, confirms: Transaction -> bool)
    returns (batches: seq<Transaction>, submitted: seq<Transaction>, notices: seq<Notice>, outcome: Outcome)
    ensures batches == [Transaction(wallet, depositInstructions, depositSigners),
                        Transaction(wallet, voteInstructions, voteSigners)]
    // the deposit batch always goes out; the vote batch only after the deposit is confirmed
    ensures 1 <= |submitted| <= 2 && submitted == batches[..|submitted|]
    ensures |submitted| == 2 <==> confirms(batches[0])
    ensures outcome == Voted <==> confirms(batches[0]) && confirms(batches[1])
    // "voting" is announced first; "voted" only once both batches are confirmed
    ensures var m := VoteMessages(yesVotingTokenAmount, noVotingTokenAmount);
      notices == [Notice(m.voting, PleaseWait, Warn)]
                 + (if outcome == Voted then [Notice(m.voted, m.voteTokens, Success)] else [])
  {
    var m := VoteMessages(yesVotingTokenAmount, noVotingTokenAmount);
    notices := [Notice(m.voting, PleaseWait, Warn)];

    var ok;
    batches := Transactions(wallet, [depositInstructions, voteInstructions], [depositSigners, voteSigners]);
    submitted, ok := SendTransactions(wallet, [depositInstructions, voteInstructions],
                                      [depositSigners, voteSigners], confirms);
    assert |batches| == 2 && |submitted| > 0;
    if ok {
      notices := notices + [Notice(m.voted, m.voteTokens, Success)];
      outcome := Voted;
    } else {
      outcome := Failed;
    }
  }

  /** The action itself. The connection is replaced by `rentExempt` (the
      rent-exempt balance of a token account) and `confirms` (whether the
      ledger confirms a transaction); `programId` is the governance program;
      `keys` supplies the keypairs a real run would generate at random.
      `batches` is what is handed to the sequential submitter, `submitted` what
      reached the ledger, `notices` the notifications shown, in order. */
  method DepositSourceTokensAndVote(
    programId: Key, rentExempt: nat, keys: KeyPairs, confirms: Transaction -> bool,
    wallet: Key, proposal: Proposal,
    existingVoteAccount: Option<Key>, existingYesVoteAccount: Option<Key>, existingNoVoteAccount: Option<Key>,
    sourceAccount: Key, governance: Key, state: Key,
    yesVotingTokenAmount: nat, noVotingTokenAmount: nat)
    returns (batches: seq<Transaction>, submitted: seq<Transaction>, notices: seq<Notice>, outcome: Outcome)
    modifies keys
    ensures var p := PlanFor(Request(wallet, proposal, existingVoteAccount, existingYesVoteAccount,
                                     existingNoVoteAccount, sourceAccount, governance, state,
                                     yesVotingTokenAmount, noVotingTokenAmount),
                             programId, rentExempt, old(keys.issued));
      && batches == [Transaction(wallet, p.depositInstructions, p.depositSigners),
                     Transaction(wallet, p.voteInstructions, p.voteSigners)]
      && keys.issued == p.nextSerial
    // the deposit batch always goes out; the vote batch only after the deposit is confirmed
    ensures 1 <= |submitted| <= 2 && submitted == batches[..|submitted|]
    ensures |submitted| == 2 <==> confirms(batches[0])
    ensures outcome == Voted <==> confirms(batches[0]) && confirms(batches[1])
    // "voting" is announced first; "voted" only once both batches are confirmed
    ensures var m := VoteMessages(yesVotingTokenAmount, noVotingTokenAmount);
      notices == [Notice(m.voting, PleaseWait, Warn)]
                 + (if outcome == Voted then [Notice(m.voted, m.voteTokens, Success)] else [])
  {
    var r := Request(wallet, proposal, existingVoteAccount, existingYesVoteAccount, existingNoVoteAccount,
                     sourceAccount, governance, state, yesVotingTokenAmount, noVotingTokenAmount);
    ghost var p := PlanFor(r, programId, rentExempt, keys.issued);
    var voteAccount, yesAccount, noAccount, governanceVotingRecord, mintAuthority, depositInstructions, depositSigners
      := ComposeDepositPhase(r, programId, rentExempt, keys);
    var voteInstructions, voteSigners
      := ComposeVotePhase(r, voteAccount, yesAccount, noAccount, governanceVotingRecord, mintAuthority, keys);
    assert voteInstructions == p.voteInstructions && voteSigners == p.voteSigners;

    batches, submitted, notices, outcome
      := SubmitAndNotify(wallet, depositInstructions, depositSigners, voteInstructions, voteSigners,
                         yesVotingTokenAmount, noVotingTokenAmount, confirms);
  }
}
