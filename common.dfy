/** Stand-ins for the helpers the action takes from the shared library: a
    JavaScript array that is pushed to, `createTokenAccount` and `approve`. */
module Common {
  import opened Ledger
  import opened Instructions

  /** A JavaScript array that its users only ever push to. */
  class Vec<T> {
    var elems: seq<T>

    constructor ()
      ensures elems == []
    {
      elems := [];
    }

    method Push(x: T)
      modifies this
      ensures elems == old(elems) + [x]
    {
      elems := elems + [x];
    }
  }

  /** `createTokenAccount`: a fresh keypair becomes a token account of `mint`
      owned by `owner`. The allocation (funded by `payer` with the rent-exempt
      balance) and the initialisation are appended to `instructions`, the new
      keypair to `signers`; its public key is returned. */
  method CreateTokenAccount(instructions: Vec<Instruction>, payer: Key, rentExempt: nat,
                            mint: Key, owner: Key, signers: Vec<Key>, keys: KeyPairs)
    returns (account: Key)
    modifies instructions, signers, keys
    ensures account == Generated(old(keys.issued)) && keys.issued == old(keys.issued) + 1
    ensures instructions.elems
         == old(instructions.elems) + [CreateAccount(payer, account, rentExempt),
                                       InitTokenAccount(account, mint, owner)]
    ensures signers.elems == old(signers.elems) + [account]
  {
    account := keys.NewAccount();
    instructions.Push(CreateAccount(payer, account, rentExempt));
    instructions.Push(InitTokenAccount(account, mint, owner));
    signers.Push(account);
  }

  /** `approve` with an ephemeral transfer authority: a fresh keypair is allowed
      to move `amount` tokens out of `account`, by an approval owned by `owner`
      appended to `instructions`. The keypair is returned; the caller decides
      which signer list it joins. */
  method Approve(instructions: Vec<Instruction>, account: Key, owner: Key, amount: nat, keys: KeyPairs)
    returns (transferAuthority: Key)
    modifies instructions, keys
    ensures transferAuthority == Generated(old(keys.issued)) && keys.issued == old(keys.issued) + 1
    ensures instructions.elems == old(instructions.elems) + [ApproveDelegate(account, transferAuthority, owner, amount)]
  {
    transferAuthority := keys.NewAccount();
    instructions.Push(ApproveDelegate(account, transferAuthority, owner, amount));
  }
}
