/** The outside world the builders talk to: an RPC node, the keypair
    generator, and (for the browser client) the upload endpoint. Its answers
    are fixed when it is created; every call is recorded in `log`, so the
    order in which a builder performs its effects is part of what is proved. */
module Effects {
  import opened Wrappers
  import opened Sdk
  import opened Types

  /** The JSON body the upload endpoint answers with; `metadata` is absent
      when the server answered with an error object. */
  datatype UploadReply = UploadReply(metadata: Option<string>)

  datatype Event =
    | UploadRequested(meta: CreateTokenMetadata)
    | KeypairGenerated(publicKey: Key)
    | RentQueried
    | BlockhashQueried

  class Environment {
    /** What `getMinimumBalanceForRentExemptMint` answers. */
    const rentExemptMintLamports: nat
    /** What `getLatestBlockhash("finalized")` answers. */
    const finalizedBlockhash: string
    /** The upload endpoint's reply, or `None` where `fetch` or `json()` rejects. */
    const uploadReply: Option<UploadReply>
    /** The public keys that successive keypair generations produce. */
    const keypairs: nat -> Key
    /** How many keypairs have been generated so far. */
    var generated: nat
    var log: seq<Event>

    constructor (rent: nat, blockhash: string, reply: Option<UploadReply>, keys: nat -> Key)
      ensures rentExemptMintLamports == rent && finalizedBlockhash == blockhash
      ensures uploadReply == reply && keypairs == keys
      ensures generated == 0 && log == []
    {
      rentExemptMintLamports, finalizedBlockhash := rent, blockhash;
      uploadReply, keypairs := reply, keys;
      generated, log := 0, [];
    }

    /** `Keypair.generate()` / Umi's `generateSigner`: a fresh keypair. */
    method GenerateKeypair() returns (k: Key)
      modifies this
      ensures k == keypairs(old(generated))
      ensures generated == old(generated) + 1
      ensures log == old(log) + [KeypairGenerated(k)]
    {
      k := keypairs(generated);
      generated := generated + 1;
      log := log + [KeypairGenerated(k)];
    }

    /** `getMinimumBalanceForRentExemptMint(connection)`. */
    method GetMinimumBalanceForRentExemptMint() returns (lamports: nat)
      modifies this
      ensures lamports == rentExemptMintLamports
      ensures generated == old(generated) && log == old(log) + [RentQueried]
    {
      lamports := rentExemptMintLamports;
      log := log + [RentQueried];
    }

    /** `connection.getLatestBlockhash("finalized").blockhash`. */
    method GetLatestBlockhash() returns (blockhash: string)
      modifies this
      ensures blockhash == finalizedBlockhash
      ensures generated == old(generated) && log == old(log) + [BlockhashQueried]
    {
      blockhash := finalizedBlockhash;
      log := log + [BlockhashQueried];
    }

    /** The browser's `uploadData`: posts the image and the descriptive
        fields to the upload endpoint and returns its parsed reply. */
    method UploadData(image: Option<seq<bv8>>, meta: CreateTokenMetadata) returns (reply: Option<UploadReply>)
      modifies this
      ensures reply == uploadReply
      ensures generated == old(generated) && log == old(log) + [UploadRequested(meta)]
    {
      reply := uploadReply;
      log := log + [UploadRequested(meta)];
    }
  }
}
