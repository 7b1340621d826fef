/** What the batches built by the deposit-and-vote action guarantee, for every
    request. */
module Properties {
  import opened Options
  import opened Ledger
  import opened Instructions
  import opened DepositAndVote

  /** The number of the three token-account slots the caller left empty. */
  function Missing(r: Request): nat {
    (if r.existingVoteAccount.None? then 1 else 0)
    + (if r.existingYesVoteAccount.None? then 1 else 0)
    + (if r.existingNoVoteAccount.None? then 1 else 0)
  }

  lemma {:induction false} CountConcat(a: seq<Instruction>, b: seq<Instruction>, k: Kind)
    ensures Count(a + b, k) == Count(a, k) + Count(b, k)
  {
    if a == [] {
      assert a + b == b;
    } else {
      assert (a + b)[1..] == a[1..] + b;
      CountConcat(a[1..], b, k);
    }
  }

  lemma CountSixSegments(c1: seq<Instruction>, c2: seq<Instruction>, c3: seq<Instruction>,
                         c4: seq<Instruction>, c5: seq<Instruction>, c6: seq<Instruction>, k: Kind)
    ensures Count(c1 + c2 + c3 + c4 + c5 + c6, k)
         == Count(c1, k) + Count(c2, k) + Count(c3, k) + Count(c4, k) + Count(c5, k) + Count(c6, k)
  {
    CountConcat(c1 + c2 + c3 + c4 + c5, c6, k);
    CountConcat(c1 + c2 + c3 + c4, c5, k);
    CountConcat(c1 + c2 + c3, c4, k);
    CountConcat(c1 + c2, c3, k);
    CountConcat(c1, c2, k);
  }

  lemma CountCreation(existing: Option<Key>, account: Key, wallet: Key, rentExempt: nat, mint: Key, k: Kind)
    ensures Count(Creation(existing, account, wallet, rentExempt, mint), k)
         == if existing.None? && (k == AccountCreation || k == TokenAccountInit) then 1 else 0
  {
    if existing.None? {
      var s := Creation(existing, account, wallet, rentExempt, mint);
      assert s[1..][1..] == [];
      assert Count(s[1..], k) == (if k == TokenAccountInit then 1 else 0);
    }
  }

  /** How many instructions of kind `k` one segment-by-segment deposit phase holds. */
  lemma CountDepositInstructions(r: Request, programId: Key, rentExempt: nat, a: Accounts, k: Kind)
    ensures Count(DepositInstructions(r, programId, rentExempt, a), k)
         == (if k == AccountCreation || k == TokenAccountInit then Missing(r)
             else if k == RecordCreation then (if r.existingVoteAccount.None? then 1 else 0)
             else if k == Approval || k == Deposit then 1
             else 0)
  {
    var record := VotingRecordAddress(programId, r.proposal.pubkey, a.vote);
    var amount := VotingTokenAmount(r.yesVotingTokenAmount, r.noVotingTokenAmount);
    var c1 := Creation(r.existingVoteAccount, a.vote, r.wallet, rentExempt, r.proposal.votingMint);
    var c2 := VotingRecordCreation(r.existingVoteAccount, record, r.proposal.pubkey, a.vote, r.wallet);
    var c3 := Creation(r.existingYesVoteAccount, a.yes, r.wallet, rentExempt, r.proposal.yesVotingMint);
    var c4 := Creation(r.existingNoVoteAccount, a.no, r.wallet, rentExempt, r.proposal.noVotingMint);
    var c5 := [ApproveDelegate(r.sourceAccount, Generated(a.next), r.wallet, amount)];
    var c6 := [DepositSourceTokens(record, a.vote, r.sourceAccount, r.proposal.sourceHolding, r.proposal.votingMint,
                                   r.proposal.pubkey, Generated(a.next),
                                   MintAuthorityAddress(programId, r.proposal.pubkey), amount)];
    assert DepositInstructions(r, programId, rentExempt, a) == c1 + c2 + c3 + c4 + c5 + c6;
    CountSixSegments(c1, c2, c3, c4, c5, c6, k);
    CountCreation(r.existingVoteAccount, a.vote, r.wallet, rentExempt, r.proposal.votingMint, k);
    CountCreation(r.existingYesVoteAccount, a.yes, r.wallet, rentExempt, r.proposal.yesVotingMint, k);
    CountCreation(r.existingNoVoteAccount, a.no, r.wallet, rentExempt, r.proposal.noVotingMint, k);
    assert Count(c5, k) == (if k == Approval then 1 else 0) by { assert c5[1..] == []; }
    assert Count(c6, k) == (if k == Deposit then 1 else 0) by { assert c6[1..] == []; }
    if r.existingVoteAccount.None? {
      assert Count(c2, k) == (if k == RecordCreation then 1 else 0) by { assert c2[1..] == []; }
    }
  }

  /** Provisioning is decided slot by slot: the deposit phase allocates and
      initialises exactly one token account per missing slot, creates the voting
      record exactly when the vote account is missing, and holds one approval
      and one deposit; nothing in it casts a vote. */
  lemma DepositPhaseCounts(r: Request, programId: Key, rentExempt: nat, first: nat)
    ensures var ixs := PlanFor(r, programId, rentExempt, first).depositInstructions;
      && Count(ixs, AccountCreation) == Missing(r)
      && Count(ixs, TokenAccountInit) == Missing(r)
      && Count(ixs, RecordCreation) == (if r.existingVoteAccount.None? then 1 else 0)
      && Count(ixs, Approval) == 1
      && Count(ixs, Deposit) == 1
      && Count(ixs, VoteCast) == 0
  {
    var a := ProvisionAccounts(r, first);
    assert PlanFor(r, programId, rentExempt, first).depositInstructions == DepositInstructions(r, programId, rentExempt, a);
    CountDepositInstructions(r, programId, rentExempt, a, AccountCreation);
    CountDepositInstructions(r, programId, rentExempt, a, TokenAccountInit);
    CountDepositInstructions(r, programId, rentExempt, a, RecordCreation);
    CountDepositInstructions(r, programId, rentExempt, a, Approval);
    CountDepositInstructions(r, programId, rentExempt, a, Deposit);
    CountDepositInstructions(r, programId, rentExempt, a, VoteCast);
  }

  /** Every missing slot is created with its own mint: the vote account with
      the voting mint, the yes account with the yes mint, the no account with
      the no mint, each owned by the wallet and funded with the rent-exempt
      balance. */
  lemma MissingAccountsCreatedWithTheirMints(r: Request, programId: Key, rentExempt: nat, first: nat)
    ensures var p := PlanFor(r, programId, rentExempt, first); var ixs := p.depositInstructions;
      && (r.existingVoteAccount.None? ==>
            CreateAccount(r.wallet, p.voteAccount, rentExempt) in ixs
            && InitTokenAccount(p.voteAccount, r.proposal.votingMint, r.wallet) in ixs)
      && (r.existingYesVoteAccount.None? ==>
            CreateAccount(r.wallet, p.yesAccount, rentExempt) in ixs
            && InitTokenAccount(p.yesAccount, r.proposal.yesVotingMint, r.wallet) in ixs)
      && (r.existingNoVoteAccount.None? ==>
            CreateAccount(r.wallet, p.noAccount, rentExempt) in ixs
            && InitTokenAccount(p.noAccount, r.proposal.noVotingMint, r.wallet) in ixs)
  {
  }

  /** Serials handed out by provisioning: each missing slot takes the next one. */
  lemma ProvisionSerials(r: Request, first: nat)
    ensures var a := ProvisionAccounts(r, first);
      && a.next == first + Missing(r)
      && (r.existingVoteAccount.None? ==> a.vote == Generated(first))
      && (r.existingYesVoteAccount.None? ==>
            a.yes == Generated(first + if r.existingVoteAccount.None? then 1 else 0))
      && (r.existingNoVoteAccount.None? ==>
            a.no == Generated(first + Missing(r) - 1))
  {
  }

  /** The deposit signers are fresh keypairs with consecutive serials from
      `first`, hence pairwise distinct: one per created account, then the
      deposit authority. The vote authority is none of them. */
  lemma DepositSignersFresh(r: Request, programId: Key, rentExempt: nat, first: nat)
    ensures var p := PlanFor(r, programId, rentExempt, first); var s := p.depositSigners;
      && |s| == Missing(r) + 1
      && (forall i :: 0 <= i < |s| ==> s[i] == Generated(first + i))
      && (forall i, j :: 0 <= i < j < |s| ==> s[i] != s[j])
      && p.voteAuthority !in s
      && p.nextSerial == first + |s| + 1
  {
    var p := PlanFor(r, programId, rentExempt, first);
    var a := ProvisionAccounts(r, first);
    ProvisionSerials(r, first);
    var s1 := CreationSigner(r.existingVoteAccount, a.vote);
    var s2 := CreationSigner(r.existingYesVoteAccount, a.yes);
    var s3 := CreationSigner(r.existingNoVoteAccount, a.no);
    var s := p.depositSigners;
    assert s == s1 + s2 + s3 + [Generated(a.next)];
    forall i | 0 <= i < |s| ensures s[i] == Generated(first + i) {
      if i < |s1| {
        assert s[i] == s1[i];
      } else if i < |s1| + |s2| {
        assert s[i] == s2[i - |s1|];
      } else if i < |s1| + |s2| + |s3| {
        assert s[i] == s3[i - |s1| - |s2|];
      }
    }
    assert p.voteAuthority == Generated(first + |s|);
  }

  /** The deposit phase opens with the vote account's segments; past them no
      record is created, and only missing yes and no accounts are allocated. */
  lemma AfterVoteAccountContents(r: Request, programId: Key, rentExempt: nat, a: Accounts)
    ensures var ixs := DepositInstructions(r, programId, rentExempt, a);
            var head := VoteAccountSegments(r, programId, rentExempt, a.vote);
      && |head| <= |ixs| && ixs[..|head|] == head
      && forall k :: |head| <= k < |ixs| ==>
           && !ixs[k].CreateVotingRecord?
           && (ixs[k].CreateAccount? ==>
                 (ixs[k].newAccount == a.yes && r.existingYesVoteAccount.None?)
                 || (ixs[k].newAccount == a.no && r.existingNoVoteAccount.None?))
  {
    var ixs := DepositInstructions(r, programId, rentExempt, a);
    var head := VoteAccountSegments(r, programId, rentExempt, a.vote);
    var amount := VotingTokenAmount(r.yesVotingTokenAmount, r.noVotingTokenAmount);
    var c3 := Creation(r.existingYesVoteAccount, a.yes, r.wallet, rentExempt, r.proposal.yesVotingMint);
    var c4 := Creation(r.existingNoVoteAccount, a.no, r.wallet, rentExempt, r.proposal.noVotingMint);
    var c56 := [ApproveDelegate(r.sourceAccount, Generated(a.next), r.wallet, amount),
                DepositSourceTokens(VotingRecordAddress(programId, r.proposal.pubkey, a.vote), a.vote, r.sourceAccount,
                                    r.proposal.sourceHolding, r.proposal.votingMint, r.proposal.pubkey, Generated(a.next),
                                    MintAuthorityAddress(programId, r.proposal.pubkey), amount)];
    assert ixs == head + (c3 + c4 + c56);
    forall k | |head| <= k < |ixs|
      ensures !ixs[k].CreateVotingRecord?
      ensures ixs[k].CreateAccount? ==>
                (ixs[k].newAccount == a.yes && r.existingYesVoteAccount.None?)
                || (ixs[k].newAccount == a.no && r.existingNoVoteAccount.None?)
    {
      var m := k - |head|;
      if m < |c3| {
        assert ixs[k] == c3[m];
      } else if m < |c3| + |c4| {
        assert ixs[k] == c4[m - |c3|];
      } else {
        assert ixs[k] == c56[m - |c3| - |c4|];
      }
    }
  }

  /** The record is created after the vote account it belongs to and before
      any other account: its creation, when present, is the third instruction,
      the two before it allocate and initialise the vote account, and every
      other allocation comes after it. */
  lemma VotingRecordPosition(r: Request, programId: Key, rentExempt: nat, first: nat)
    ensures var p := PlanFor(r, programId, rentExempt, first); var ixs := p.depositInstructions;
      && (r.existingVoteAccount.None? ==>
            |ixs| > 2
            && ixs[0] == CreateAccount(r.wallet, p.voteAccount, rentExempt)
            && ixs[1] == InitTokenAccount(p.voteAccount, r.proposal.votingMint, r.wallet)
            && ixs[2] == CreateVotingRecord(p.votingRecord, r.proposal.pubkey, p.voteAccount, r.wallet))
      && (forall i :: 0 <= i < |ixs| && ixs[i].CreateVotingRecord? ==> i == 2 && r.existingVoteAccount.None?)
      && (forall i, j :: 0 <= i < |ixs| && 0 <= j < |ixs| && ixs[i].CreateVotingRecord? && ixs[j].CreateAccount?
            ==> (j < i <==> ixs[j].newAccount == ixs[i].voteAccount))
  {
    var p := PlanFor(r, programId, rentExempt, first);
    var a := ProvisionAccounts(r, first);
    ProvisionSerials(r, first);
    AfterVoteAccountContents(r, programId, rentExempt, a);
    var ixs := p.depositInstructions;
    assert ixs == DepositInstructions(r, programId, rentExempt, a);
    var head := VoteAccountSegments(r, programId, rentExempt, a.vote);
    if r.existingVoteAccount.None? {
      assert head == [CreateAccount(r.wallet, a.vote, rentExempt), InitTokenAccount(a.vote, r.proposal.votingMint, r.wallet),
                      CreateVotingRecord(p.votingRecord, r.proposal.pubkey, a.vote, r.wallet)];
      forall i | 0 <= i < 3 ensures ixs[i] == head[i] {
        assert ixs[..3][i] == ixs[i];
      }
    } else {
      assert head == [];
    }
  }

  /** Signer coverage of a batch follows from that of its parts. */
  lemma SignedByConcat(a: seq<Instruction>, b: seq<Instruction>, signers: seq<Key>)
    requires SignedBy(a, signers) && SignedBy(b, signers)
    ensures SignedBy(a + b, signers)
  {
    forall i | 0 <= i < |a + b| && ExtraSigner((a + b)[i]).Some?
      ensures ExtraSigner((a + b)[i]).value in signers
    {
      if i < |a| {
        assert (a + b)[i] == a[i];
      } else {
        assert (a + b)[i] == b[i - |a|];
      }
    }
  }

  /** An account created here signs its own allocation. */
  lemma CreationSignedBy(existing: Option<Key>, account: Key, wallet: Key, rentExempt: nat, mint: Key, signers: seq<Key>)
    requires existing.None? ==> account in signers
    ensures SignedBy(Creation(existing, account, wallet, rentExempt, mint), signers)
  {
  }

  /** The deposit phase carries the keypair each of its instructions needs:
      every account it creates and the deposit authority. */
  lemma DepositPhaseSigned(r: Request, programId: Key, rentExempt: nat, a: Accounts)
    ensures SignedBy(DepositInstructions(r, programId, rentExempt, a), DepositSigners(r, a))
  {
    var s1 := CreationSigner(r.existingVoteAccount, a.vote);
    var s2 := CreationSigner(r.existingYesVoteAccount, a.yes);
    var s3 := CreationSigner(r.existingNoVoteAccount, a.no);
    var s := DepositSigners(r, a);
    assert s == s1 + s2 + s3 + [Generated(a.next)];
    assert r.existingVoteAccount.None? ==> s[0] == a.vote;
    assert r.existingYesVoteAccount.None? ==> s[|s1|] == a.yes;
    assert r.existingNoVoteAccount.None? ==> s[|s1| + |s2|] == a.no;
    assert s[|s| - 1] == Generated(a.next);

    var record := VotingRecordAddress(programId, r.proposal.pubkey, a.vote);
    var amount := VotingTokenAmount(r.yesVotingTokenAmount, r.noVotingTokenAmount);
    var c1 := Creation(r.existingVoteAccount, a.vote, r.wallet, rentExempt, r.proposal.votingMint);
    var c2 := VotingRecordCreation(r.existingVoteAccount, record, r.proposal.pubkey, a.vote, r.wallet);
    var c3 := Creation(r.existingYesVoteAccount, a.yes, r.wallet, rentExempt, r.proposal.yesVotingMint);
    var c4 := Creation(r.existingNoVoteAccount, a.no, r.wallet, rentExempt, r.proposal.noVotingMint);
    var c56 := [ApproveDelegate(r.sourceAccount, Generated(a.next), r.wallet, amount),
                DepositSourceTokens(record, a.vote, r.sourceAccount, r.proposal.sourceHolding, r.proposal.votingMint,
                                    r.proposal.pubkey, Generated(a.next), MintAuthorityAddress(programId, r.proposal.pubkey),
                                    amount)];
    assert DepositInstructions(r, programId, rentExempt, a) == c1 + c2 + c3 + c4 + c56;

    CreationSignedBy(r.existingVoteAccount, a.vote, r.wallet, rentExempt, r.proposal.votingMint, s);
    CreationSignedBy(r.existingYesVoteAccount, a.yes, r.wallet, rentExempt, r.proposal.yesVotingMint, s);
    CreationSignedBy(r.existingNoVoteAccount, a.no, r.wallet, rentExempt, r.proposal.noVotingMint, s);
    SignedByConcat(c1, c2, s);
    SignedByConcat(c1 + c2, c3, s);
    SignedByConcat(c1 + c2 + c3, c4, s);
    SignedByConcat(c1 + c2 + c3 + c4, c56, s);
  }

  /** Every instruction of a batch finds the keypair it needs among that
      batch's signers, and each transfer authority signs only its own batch. */
  lemma SignersCoverTheirBatches(r: Request, programId: Key, rentExempt: nat, first: nat)
    ensures var p := PlanFor(r, programId, rentExempt, first);
      && SignedBy(p.depositInstructions, p.depositSigners)
      && SignedBy(p.voteInstructions, p.voteSigners)
      && p.voteAuthority !in p.depositSigners
      && p.depositAuthority !in p.voteSigners
  {
    var a := ProvisionAccounts(r, first);
    DepositPhaseSigned(r, programId, rentExempt, a);
    DepositSignersFresh(r, programId, rentExempt, first);
  }

  /** A retry that passes back the vote account a first call created does not
      create the voting record again, and addresses the same record: over both
      calls the record is created at most once. Passing back all three
      accounts makes the retry create no account at all. */
  lemma RetryCreatesRecordAtMostOnce(r1: Request, r2: Request, programId: Key, rentExempt: nat, first1: nat, first2: nat)
    requires r2.proposal.pubkey == r1.proposal.pubkey
    requires r2.existingVoteAccount == Some(PlanFor(r1, programId, rentExempt, first1).voteAccount)
    ensures var p1 := PlanFor(r1, programId, rentExempt, first1);
            var p2 := PlanFor(r2, programId, rentExempt, first2);
      && Count(p1.depositInstructions, RecordCreation) + Count(p2.depositInstructions, RecordCreation) <= 1
      && p2.votingRecord == p1.votingRecord
      && (r2.existingYesVoteAccount.Some? && r2.existingNoVoteAccount.Some? ==>
            Count(p2.depositInstructions, AccountCreation) == 0)
  {
    DepositPhaseCounts(r1, programId, rentExempt, first1);
    DepositPhaseCounts(r2, programId, rentExempt, first2);
  }

  /** The amount approved for the deposit and the amount the vote spends are
      the same exactly when the vote goes one way only. */
  lemma OneSidedVoteConservesAmount(r: Request, programId: Key, rentExempt: nat, first: nat)
    ensures var p := PlanFor(r, programId, rentExempt, first);
            var ixs := p.depositInstructions;
      && ixs[|ixs| - 2].amount == ixs[|ixs| - 1].amount
      && p.voteInstructions[0].amount
         == p.voteInstructions[1].yesAmount + p.voteInstructions[1].noAmount
      && (ixs[|ixs| - 1].amount == p.voteInstructions[0].amount
          <==> r.yesVotingTokenAmount == 0 || r.noVotingTokenAmount == 0)
  {
  }

  /** The voting record is determined by (program, proposal, vote account) and
      tells them apart; the mint authority depends on the proposal alone; and
      neither coincides with the other or with any generated keypair. */
  lemma DerivedAddressesDistinct(programId: Key, proposal1: Key, voteAccount1: Key, proposal2: Key, voteAccount2: Key)
    ensures VotingRecordAddress(programId, proposal1, voteAccount1) == VotingRecordAddress(programId, proposal2, voteAccount2)
        <==> proposal1 == proposal2 && voteAccount1 == voteAccount2
    ensures MintAuthorityAddress(programId, proposal1) == MintAuthorityAddress(programId, proposal2)
        <==> proposal1 == proposal2
    ensures VotingRecordAddress(programId, proposal1, voteAccount1) != MintAuthorityAddress(programId, proposal2)
  {
    if VotingRecordAddress(programId, proposal1, voteAccount1) == VotingRecordAddress(programId, proposal2, voteAccount2) {
      var s1 := VotingRecordAddress(programId, proposal1, voteAccount1).seeds;
      var s2 := VotingRecordAddress(programId, proposal2, voteAccount2).seeds;
      assert s1[2] == s2[2] && s1[3] == s2[3];
    }
  }

  /** A voter with no accounts yet votes 25 tokens yes: the deposit batch holds
      three account creations, one record creation, one approval of 25 and one
      deposit of 25, signed by four fresh keypairs; the vote batch holds one
      approval of 25 and one vote of 25 yes, 0 no. */
  lemma FreshVoterScenario(wallet: Key, proposal: Proposal, sourceAccount: Key, governance: Key, state: Key,
                           programId: Key, rentExempt: nat, first: nat)
    ensures var r := Request(wallet, proposal, None, None, None, sourceAccount, governance, state, 25, 0);
            var p := PlanFor(r, programId, rentExempt, first);
            var ixs := p.depositInstructions;
      && |ixs| == 9
      && Count(ixs, AccountCreation) == 3 && Count(ixs, TokenAccountInit) == 3
      && Count(ixs, RecordCreation) == 1 && Count(ixs, Approval) == 1 && Count(ixs, Deposit) == 1
      && ixs[7].ApproveDelegate? && ixs[7].amount == 25
      && ixs[8].DepositSourceTokens? && ixs[8].amount == 25
      && |p.depositSigners| == 4
      && |p.voteInstructions| == 2
      && p.voteInstructions[0].ApproveDelegate? && p.voteInstructions[0].amount == 25
      && p.voteInstructions[1].CastVote?
      && p.voteInstructions[1].yesAmount == 25 && p.voteInstructions[1].noAmount == 0
  {
    var r := Request(wallet, proposal, None, None, None, sourceAccount, governance, state, 25, 0);
    DepositPhaseCounts(r, programId, rentExempt, first);
    DepositSignersFresh(r, programId, rentExempt, first);
  }
}
