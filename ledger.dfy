/** Public keys, program-derived addresses and freshly generated keypairs. */
module Ledger {

  /** A public key. `Address` is any key handed in from outside (the wallet, the
      proposal, a governance account, ...); `Generated` is the public half of a
      keypair created during this run; `ProgramAddress` is the result of deriving
      an address from seeds under a program. */
  datatype Key =
    | Address(id: nat)
    | Generated(serial: nat)
    | ProgramAddress(seeds: seq<Seed>, program: Key)

  /** One seed handed to the address derivation: the governance authority seed
      string, or the 32 bytes of a public key. */
  datatype Seed = AuthoritySeed | KeySeed(key: Key)

  /** `PublicKey.findProgramAddress`, reduced to the address it returns. The hash
      and the bump search are not modelled: the address is a free term of its
      inputs, so equal inputs give equal addresses, distinct inputs distinct
      addresses, and a derived address is never the public key of a keypair. */
  function FindProgramAddress(seeds: seq<Seed>, program: Key): (address: Key)
    ensures !address.Generated?
    ensures address.ProgramAddress? && address.program == program
  {
    ProgramAddress(seeds, program)
  }

  /** The source of fresh keypairs (`new Account()`). Randomness is replaced by a
      counter: every keypair handed out so far has a serial below `issued`, so a
      new one differs from all of them. */
  class KeyPairs {
    var issued: nat

    constructor (issued: nat)
      ensures this.issued == issued
    {
      this.issued := issued;
    }

    method NewAccount() returns (publicKey: Key)
      modifies this
      ensures publicKey == Generated(old(issued))
      ensures issued == old(issued) + 1
    {
      publicKey := Generated(issued);
      issued := issued + 1;
    }
  }
}
