/** `sendTransactions` in its `Sequential` mode, reduced to its ordering
    discipline: batches go out one after another, each only once the one before
    it has been confirmed, and the first failure ends the run. */
module Sequencer {
  import opened Ledger
  import opened Instructions

  /** One transaction: the wallet pays its fee and signs it, together with the
      batch's own signers. */
  datatype Transaction = Transaction(feePayer: Key, instructions: seq<Instruction>, signers: seq<Key>)

  /** The transaction built for every batch, in the order the batches are given. */
  function Transactions(wallet: Key, instructionSet: seq<seq<Instruction>>, signersSet: seq<seq<Key>>)
    : (txs: seq<Transaction>)
    requires |instructionSet| == |signersSet|
    ensures |txs| == |instructionSet|
    ensures forall i :: 0 <= i < |txs| ==> txs[i] == Transaction(wallet, instructionSet[i], signersSet[i])
  {
    seq(|instructionSet|, i requires 0 <= i < |instructionSet| => Transaction(wallet, instructionSet[i], signersSet[i]))
  }

  /** Submits the batches strictly in order. `confirms` stands for the ledger:
      whether a transaction it is sent is confirmed. `submitted` is what reached
      the ledger; `ok` is whether the whole run succeeded (`sendTransactions`
      resolves) rather than failed (`sendTransactions` throws). */
  method SendTransactions(wallet: Key, instructionSet: seq<seq<Instruction>>, signersSet: seq<seq<Key>>,
                          confirms: Transaction -> bool)
    returns (submitted: seq<Transaction>, ok: bool)
    requires |instructionSet| == |signersSet|
    ensures var txs := Transactions(wallet, instructionSet, signersSet);
      && |submitted| <= |txs| && submitted == txs[..|submitted|]
      && (forall i :: 0 <= i < |submitted| - 1 ==> confirms(submitted[i]))
      && (ok <==> |submitted| == |txs| && forall i :: 0 <= i < |txs| ==> confirms(txs[i]))
      && (!ok ==> |submitted| > 0 && !confirms(submitted[|submitted| - 1]))
  {
    ghost var txs := Transactions(wallet, instructionSet, signersSet);
    submitted, ok := [], true;
    var i := 0;
    while i < |instructionSet| && ok
      invariant 0 <= i <= |instructionSet|
      invariant |submitted| == i && submitted == txs[..i]
      invariant ok ==> forall j :: 0 <= j < i ==> confirms(txs[j])
      invariant !ok ==> i > 0 && !confirms(txs[i - 1]) && forall j :: 0 <= j < i - 1 ==> confirms(txs[j])
    {
      var tx := Transaction(wallet, instructionSet[i], signersSet[i]);
      submitted := submitted + [tx];
      ok := confirms(tx);
      i := i + 1;
    }
  }
}
