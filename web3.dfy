/** The two `@solana/web3.js` objects the legacy builders fill in: a
    `Transaction` whose instruction list grows in place, and the compiled
    `VersionedTransaction` that the mint keypair signs. */
module Web3 {
  import opened Sdk

  class Transaction {
    var instructions: seq<Instr>

    constructor ()
      ensures instructions == []
    {
      instructions := [];
    }

    /** `transaction.add(...items)`: appends the items in argument order. */
    method Add(items: seq<Instr>)
      modifies this
      ensures instructions == old(instructions) + items
    {
      instructions := instructions + items;
    }
  }

  /** A version-0 message: the fee payer, the freshness blockhash and the
      instructions in order. How the SDK lays out its account table is not
      modelled. */
  datatype MessageV0 = MessageV0(payerKey: Key, recentBlockhash: string, instructions: seq<Instr>)

  /** `new TransactionMessage({payerKey, recentBlockhash, instructions}).compileToV0Message()`. */
  function CompileToV0Message(payerKey: Key, recentBlockhash: string, instructions: seq<Instr>): (m: MessageV0)
    ensures m.payerKey == payerKey && m.recentBlockhash == recentBlockhash
    ensures |m.instructions| == |instructions|
    ensures forall i :: 0 <= i < |instructions| ==> m.instructions[i] == instructions[i]
  {
    MessageV0(payerKey, recentBlockhash, instructions)
  }

  class VersionedTransaction {
    const message: MessageV0
    /** The public keys whose signatures have been attached, in order. */
    var signatures: seq<Key>

    constructor (message: MessageV0)
      ensures this.message == message && signatures == []
    {
      this.message := message;
      signatures := [];
    }

    /** `vtx.sign(signers)`. */
    method Sign(signers: seq<Key>)
      modifies this
      ensures signatures == old(signatures) + signers
    {
      signatures := signatures + signers;
    }
  }
}
