/** The server's spl-token `SPLTokenBuilder` (server/src/token-builder.ts):
    it appends the recipe's instructions to a `Transaction` in place,
    compiles them into a version-0 message paid by the creator, and signs it
    with a freshly generated mint keypair. Each method is proved to produce
    the list that `SplRecipe.Recipe` describes. */
module TokenBuilder {
  import opened Wrappers
  import opened Sdk
  import opened Types
  import opened Effects
  import opened Web3
  import opened SplRecipe

  datatype BuildError =
    | InvalidPublicKey(input: string)
      /** `getAssociatedTokenAddressSync` refused the creator as token owner:
          the key is not on the ed25519 curve and off-curve owners are not allowed */
    | OwnerOffCurve(owner: Key)

  class SPLTokenBuilder {
    const connection: Environment

    constructor (connection: Environment)
      ensures this.connection == connection
    {
      this.connection := connection;
    }

    /** `build`: parse the creator's key, generate the mint keypair, build
        the instructions, compile them with the creator as fee payer, and
        sign with the mint keypair only. The base58 encoding of the signed
        bytes is not modelled; the signed transaction is returned. A creator
        key off the curve makes the instruction building throw after the
        rent query, before the blockhash is fetched. */
    method Build(af: AddressFunctions, req: CreateToken, metadataUri: string)
      returns (r: Result<VersionedTransaction, BuildError>)
      modifies connection
      ensures !af.isValid(req.creatorWallet) ==>
        && r == Failure(InvalidPublicKey(req.creatorWallet))
        && connection.log == old(connection.log) && connection.generated == old(connection.generated)
      ensures af.isValid(req.creatorWallet) && !af.isOnCurve(Key(req.creatorWallet)) ==>
        && r == Failure(OwnerOffCurve(Key(req.creatorWallet)))
        && connection.generated == old(connection.generated) + 1
        && connection.log == old(connection.log)
             + [KeypairGenerated(connection.keypairs(old(connection.generated))), RentQueried]
      ensures af.isValid(req.creatorWallet) && af.isOnCurve(Key(req.creatorWallet)) ==>
        var creator := Key(req.creatorWallet);
        var mint := connection.keypairs(old(connection.generated));
        && r.Success? && fresh(r.value)
        && r.value.message == MessageV0(creator, connection.finalizedBlockhash,
             Recipe(af, creator, mint, req, metadataUri, connection.rentExemptMintLamports, TokenProgramId))
        && r.value.signatures == [mint]
        && connection.generated == old(connection.generated) + 1
        && connection.log == old(connection.log) + [KeypairGenerated(mint), RentQueried, BlockhashQueried]
    {
      var creatorKey := ParseKey(af, req.creatorWallet);
      if creatorKey.None? {
        return Failure(InvalidPublicKey(req.creatorWallet));
      }
      var mint := connection.GenerateKeypair();
      var mintIx := CreateTokenInstructions(af, creatorKey.value, mint, req, metadataUri, TokenProgramId);
      if mintIx.Failure? {
        return Failure(mintIx.error);
      }
      var vtx := BuildVersionedTx(creatorKey.value, mintIx.value);
      vtx.Sign([mint]);
      r := Success(vtx);
    }

    /** `createTokenInstructions`: the mint instructions, then the metadata
        instruction, then the token account and the mint of the supply, then
        the revocations the request asks for. Deriving the creator's token
        account throws when the creator is off the curve. */
    method CreateTokenInstructions(af: AddressFunctions, creator: Key, mint: Key, req: CreateToken,
                                   metadataUri: string, tokenProgramId: Key)
      returns (r: Result<Transaction, BuildError>)
      modifies connection
      ensures !af.isOnCurve(creator) ==> r == Failure(OwnerOffCurve(creator))
      ensures af.isOnCurve(creator) ==>
        && r.Success? && fresh(r.value)
        && r.value.instructions
             == Recipe(af, creator, mint, req, metadataUri, connection.rentExemptMintLamports, tokenProgramId)
      ensures connection.generated == old(connection.generated)
      ensures connection.log == old(connection.log) + [RentQueried]
    {
      var instructions := GetMintInstructions(creator, mint, req.decimals, tokenProgramId);
      instructions.Add([MetadataInstruction(af, creator, mint, req, metadataUri)]);
      if !af.isOnCurve(creator) {
        return Failure(OwnerOffCurve(creator));
      }
      var creatorAta := af.associatedTokenAddress(mint, creator, false, tokenProgramId);
      instructions.Add([
        CreateAssociatedTokenAccount(creator, creatorAta, creator, mint, tokenProgramId),
        MintTo(mint, creatorAta, creator, req.supply, [], tokenProgramId)]);
      if req.revokeMint {
        instructions.Add([SetAuthority(mint, creator, MintTokens, None, TokenProgramId)]);
      }
      if req.revokeFreeze {
        instructions.Add([SetAuthority(mint, creator, FreezeAccount, None, TokenProgramId)]);
      }
      r := Success(instructions);
    }

    /** `getMintInstructions`: a new transaction holding the account
        reservation, funded with the rent-exempt minimum, and the mint
        initialisation with the creator as mint and freeze authority. */
    method GetMintInstructions(creator: Key, mintAddress: Key, decimals: nat, tokenProgramId: Key)
      returns (transaction: Transaction)
      modifies connection
      ensures fresh(transaction)
      ensures transaction.instructions
        == MintInstructions(creator, mintAddress, decimals, connection.rentExemptMintLamports, tokenProgramId)
      ensures connection.generated == old(connection.generated)
      ensures connection.log == old(connection.log) + [RentQueried]
    {
      var lamports := connection.GetMinimumBalanceForRentExemptMint();
      transaction := new Transaction();
      transaction.Add([
        CreateAccount(creator, mintAddress, MintSize, lamports, tokenProgramId),
        InitializeMint2(mintAddress, decimals, creator, Some(creator), tokenProgramId)]);
    }

    /** `buildVersionedTx`: the instructions of `tx`, in order, in a
        version-0 message paid by `payer` and bound to the latest finalized
        blockhash. */
    method BuildVersionedTx(payer: Key, tx: Transaction) returns (vtx: VersionedTransaction)
      modifies connection
      ensures fresh(vtx)
      ensures vtx.message == CompileToV0Message(payer, connection.finalizedBlockhash, tx.instructions)
      ensures vtx.signatures == []
      ensures connection.generated == old(connection.generated)
      ensures connection.log == old(connection.log) + [BlockhashQueried]
    {
      var blockHash := connection.GetLatestBlockhash();
      var messageV0 := CompileToV0Message(payer, blockHash, tx.instructions);
      vtx := new VersionedTransaction(messageV0);
    }
  }

  /** What a successful `build` hands back: a message paid by the creator
      whose instructions are the recipe's, in order, signed by the mint
      keypair alone, so the creator's wallet still has to sign. The message
      contents follow from `Build`'s contract and the recipe lemmas. */
  lemma BuiltTransaction(af: AddressFunctions, req: CreateToken, metadataUri: string, mint: Key,
                         lamports: nat, blockhash: string, m: MessageV0)
    requires af.isValid(req.creatorWallet)
    requires m == MessageV0(Key(req.creatorWallet), blockhash,
                            Recipe(af, Key(req.creatorWallet), mint, req, metadataUri, lamports, TokenProgramId))
    ensures m.payerKey == Key(req.creatorWallet) && m.recentBlockhash == blockhash
    ensures |m.instructions| == 5 + Flag(req.revokeMint) + Flag(req.revokeFreeze)
    ensures forall i :: 0 <= i < |m.instructions| ==> MintOf(m.instructions[i]) == Some(mint)
    ensures Has(m.instructions, RevokeMintAuthority) <==> req.revokeMint
    ensures Has(m.instructions, RevokeFreezeAuthority) <==> req.revokeFreeze
    ensures Precedes(m.instructions, MintSupply, RevokeMintAuthority)
    ensures Precedes(m.instructions, MintSupply, RevokeFreezeAuthority)
  {
    var creator := Key(req.creatorWallet);
    EveryInstructionNamesMint(af, creator, mint, req, metadataUri, lamports, TokenProgramId);
    RevocationIffFlag(af, creator, mint, req, metadataUri, lamports, TokenProgramId);
    RecipeOrder(af, creator, mint, req, metadataUri, lamports, TokenProgramId);
  }
}
