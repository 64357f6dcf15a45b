/** The browser client's older copy of the spl-token recipe
    (client/src/composables/use-create-token.ts). `createToken` is a
    script: parse the wallet key, upload the image and descriptive fields,
    generate the mint keypair, build the instructions with the returned
    metadata URI, compile and sign with the mint keypair. */
module UseCreateToken {
  import opened Wrappers
  import opened Sdk
  import opened Types
  import opened Effects
  import opened Web3
  import opened SplRecipe

  /** The client's request record (client/src/types.ts): the server's fields
      without the wallet, plus the image (`File | null`). */
  datatype ClientCreateToken = ClientCreateToken(
    name: string,
    symbol: string,
    decimals: nat,
    supply: nat,
    image: Option<seq<bv8>>,
    description: string,
    revokeUpdate: bool,
    revokeFreeze: bool,
    revokeMint: bool)
  {
    /** The request together with the wallet `createToken` is given. */
    function WithWallet(creatorWallet: string): (req: CreateToken)
      ensures req.name == name && req.symbol == symbol && req.description == description
      ensures req.decimals == decimals && req.supply == supply
      ensures req.revokeUpdate == revokeUpdate && req.revokeFreeze == revokeFreeze && req.revokeMint == revokeMint
      ensures req.creatorWallet == creatorWallet
    {
      CreateToken(name, symbol, description, decimals, supply, revokeUpdate, revokeFreeze, revokeMint, creatorWallet)
    }

    /** The descriptive fields sent with the image. */
    function UploadFields(): CreateTokenMetadata {
      CreateTokenMetadata(name, symbol, description)
    }
  }

  datatype CreateTokenError =
    | InvalidPublicKey(input: string)
      /** `fetch` or `response.json()` rejected */
    | UploadFailed
      /** the reply carried no `metadata` field, so the metadata instruction
          was asked to encode an undefined URI */
    | MissingMetadataUri
      /** `getAssociatedTokenAddressSync` refused the creator as token owner:
          the key is not on the ed25519 curve */
    | OwnerOffCurve(owner: Key)

  /** `createToken`. */
  method CreateToken(connection: Environment, af: AddressFunctions, createToken: ClientCreateToken, creatorWallet: string)
    returns (r: Result<VersionedTransaction, CreateTokenError>)
    modifies connection
    ensures !af.isValid(creatorWallet) ==>
      && r == Failure(InvalidPublicKey(creatorWallet))
      && connection.log == old(connection.log) && connection.generated == old(connection.generated)
    ensures af.isValid(creatorWallet) && connection.uploadReply.None? ==>
      && r == Failure(UploadFailed)
      && connection.log == old(connection.log) + [UploadRequested(createToken.UploadFields())]
      && connection.generated == old(connection.generated)
    ensures af.isValid(creatorWallet) && connection.uploadReply.Some? && connection.uploadReply.value.metadata.None? ==>
      && r == Failure(MissingMetadataUri)
      && connection.log == old(connection.log) + [UploadRequested(createToken.UploadFields()),
           KeypairGenerated(connection.keypairs(old(connection.generated))), RentQueried]
      && connection.generated == old(connection.generated) + 1
    ensures af.isValid(creatorWallet) && !af.isOnCurve(Key(creatorWallet))
            && connection.uploadReply.Some? && connection.uploadReply.value.metadata.Some? ==>
      && r == Failure(OwnerOffCurve(Key(creatorWallet)))
      && connection.log == old(connection.log) + [UploadRequested(createToken.UploadFields()),
           KeypairGenerated(connection.keypairs(old(connection.generated))), RentQueried]
      && connection.generated == old(connection.generated) + 1
    ensures af.isValid(creatorWallet) && af.isOnCurve(Key(creatorWallet))
            && connection.uploadReply.Some? && connection.uploadReply.value.metadata.Some? ==>
      var creator := Key(creatorWallet);
      var mint := connection.keypairs(old(connection.generated));
      var uri := connection.uploadReply.value.metadata.value;
      && r.Success? && fresh(r.value)
      && r.value.message == MessageV0(creator, connection.finalizedBlockhash,
           Recipe(af, creator, mint, createToken.WithWallet(creatorWallet), uri, connection.rentExemptMintLamports, TokenProgramId))
      && r.value.signatures == [mint]
      && connection.generated == old(connection.generated) + 1
      && connection.log == old(connection.log) + [UploadRequested(createToken.UploadFields()),
           KeypairGenerated(mint), RentQueried, BlockhashQueried]
  {
    var creatorKey := ParseKey(af, creatorWallet);
    if creatorKey.None? {
      return Failure(InvalidPublicKey(creatorWallet));
    }
    var metadataResults := connection.UploadData(createToken.image, createToken.UploadFields());
    if metadataResults.None? {
      return Failure(UploadFailed);
    }
    var mint := connection.GenerateKeypair();
    var mintIx := CreateTokenInstructions(connection, af, creatorKey.value, mint,
                                          createToken.WithWallet(creatorWallet),
                                          metadataResults.value.metadata, TokenProgramId);
    if mintIx.Failure? {
      return Failure(mintIx.error);
    }
    var vtx := BuildVersionedTx(connection, creatorKey.value, mintIx.value);
    vtx.Sign([mint]);
    r := Success(vtx);
  }

  /** `createTokenInstructions`. The URI comes straight from the upload
      reply and may be undefined, in which case the metadata instruction
      cannot be encoded and the call fails after the rent query. With a URI,
      deriving the creator's token account throws when the creator is off
      the curve. */
  method CreateTokenInstructions(connection: Environment, af: AddressFunctions, creator: Key, mint: Key,
                                 createToken: CreateToken, metadataUri: Option<string>, tokenProgramId: Key)
    returns (r: Result<Transaction, CreateTokenError>)
    modifies connection
    ensures metadataUri.None? ==> r == Failure(MissingMetadataUri)
    ensures metadataUri.Some? && !af.isOnCurve(creator) ==> r == Failure(OwnerOffCurve(creator))
    ensures metadataUri.Some? && af.isOnCurve(creator) ==>
      && r.Success? && fresh(r.value)
      && r.value.instructions
           == Recipe(af, creator, mint, createToken, metadataUri.value, connection.rentExemptMintLamports, tokenProgramId)
    ensures connection.generated == old(connection.generated)
    ensures connection.log == old(connection.log) + [RentQueried]
  {
    var instructions := GetMintInstructions(connection, creator, mint, createToken.decimals, tokenProgramId);
    if metadataUri.None? {
      return Failure(MissingMetadataUri);
    }
    instructions.Add([MetadataInstruction(af, creator, mint, createToken, metadataUri.value)]);
    if !af.isOnCurve(creator) {
      return Failure(OwnerOffCurve(creator));
    }
    var creatorAta := af.associatedTokenAddress(mint, creator, false, tokenProgramId);
    instructions.Add([
      CreateAssociatedTokenAccount(creator, creatorAta, creator, mint, tokenProgramId),
      MintTo(mint, creatorAta, creator, createToken.supply, [], tokenProgramId)]);
    if createToken.revokeMint {
      instructions.Add([SetAuthority(mint, creator, MintTokens, None, TokenProgramId)]);
    }
    if createToken.revokeFreeze {
      instructions.Add([SetAuthority(mint, creator, FreezeAccount, None, TokenProgramId)]);
    }
    r := Success(instructions);
  }

  /** `getMintInstructions`. */
  method GetMintInstructions(connection: Environment, creator: Key, mintAddress: Key, decimals: nat, tokenProgramId: Key)
    returns (transaction: Transaction)
    modifies connection
    ensures fresh(transaction)
    ensures transaction.instructions
      == MintInstructions(creator, mintAddress, decimals, connection.rentExemptMintLamports, tokenProgramId)
    ensures connection.generated == old(connection.generated)
    ensures connection.log == old(connection.log) + [RentQueried]
  {
    var lamports := connection.GetMinimumBalanceForRentExemptMint();
    transaction := new Transaction();
    transaction.Add([
      CreateAccount(creator, mintAddress, MintSize, lamports, tokenProgramId),
      InitializeMint2(mintAddress, decimals, creator, Some(creator), tokenProgramId)]);
  }

  /** `buildVersionedTx`. */
  method BuildVersionedTx(connection: Environment, payer: Key, tx: Transaction) returns (vtx: VersionedTransaction)
    modifies connection
    ensures fresh(vtx)
    ensures vtx.message == CompileToV0Message(payer, connection.finalizedBlockhash, tx.instructions)
    ensures vtx.signatures == []
    ensures connection.generated == old(connection.generated)
    ensures connection.log == old(connection.log) + [BlockhashQueried]
  {
    var blockHash := connection.GetLatestBlockhash();
    var messageV0 := CompileToV0Message(payer, blockHash, tx.instructions);
    vtx := new VersionedTransaction(messageV0);
  }

  /** The URI built into the metadata instruction of a successful run is the
      one the upload returned, and the message is paid by the creator. */
  lemma UploadedUriIsEmbedded(af: AddressFunctions, createToken: ClientCreateToken, creatorWallet: string,
                              uri: string, mint: Key, lamports: nat, blockhash: string, m: MessageV0)
    requires m == MessageV0(Key(creatorWallet), blockhash,
                            Recipe(af, Key(creatorWallet), mint, createToken.WithWallet(creatorWallet), uri, lamports, TokenProgramId))
    ensures m.payerKey == Key(creatorWallet)
    ensures m.instructions[2].CreateMetadataAccountV3? && m.instructions[2].args.data.uri == uri
    ensures m.instructions[2].args.isMutable <==> !createToken.revokeUpdate
    ensures forall i :: 0 <= i < |m.instructions| && m.instructions[i].MintTo? ==> m.instructions[i].amount == createToken.supply
  {
    HolderAndMint(af, Key(creatorWallet), mint, createToken.WithWallet(creatorWallet), uri, lamports, TokenProgramId);
  }
}
