/** The instruction recipe of the spl-token builders (the server's
    `SPLTokenBuilder` in server/src/token-builder.ts and its older copy in
    the browser client): create and initialise the mint, attach metadata,
    create the creator's token account, mint the supply into it, then revoke
    the mint and the freeze authority when asked. These functions say what
    the instruction list is; the builders' methods are proved to produce it,
    and the lemmas below state the recipe's ordering and content. */
module SplRecipe {
  import opened Wrappers
  import opened Sdk
  import opened Types

  function Flag(b: bool): nat { if b then 1 else 0 }

  /** The metadata account of `mint`: the program-derived address of the
      seeds ("metadata", metadata program id, mint) under the metadata program. */
  function MetadataAddress(af: AddressFunctions, mint: Key): Key {
    af.programAddress([Literal(MetadataSeed), KeyBytes(MetadataProgramId), KeyBytes(mint)], MetadataProgramId)
  }

  /** The creator's associated token account for `mint`. */
  function CreatorAta(af: AddressFunctions, creator: Key, mint: Key, tokenProgramId: Key): Key {
    af.associatedTokenAddress(mint, creator, false, tokenProgramId)
  }

  /** `getMintInstructions`: reserve the mint account and initialise it. */
  function MintInstructions(creator: Key, mint: Key, decimals: nat, lamports: nat, tokenProgramId: Key): seq<Instr> {
    [ CreateAccount(creator, mint, MintSize, lamports, tokenProgramId),
      InitializeMint2(mint, decimals, creator, Some(creator), tokenProgramId) ]
  }

  /** `getCreateTokenMetadataInstructions`: the metadata account creation. */
  function MetadataInstruction(af: AddressFunctions, creator: Key, mint: Key, req: CreateToken, metadataUri: string): (ix: Instr)
    ensures ix.CreateMetadataAccountV3?
    ensures ix.accounts == MetadataAccounts(MetadataAddress(af, mint), mint, creator, creator, creator)
    ensures ix.args.data.name == req.name && ix.args.data.symbol == req.symbol
    ensures ix.args.data.uri == metadataUri
    ensures ix.args.data.sellerFeeBasisPoints == 0
    ensures ix.args.data.creators.None? && ix.args.data.collection.None? && ix.args.data.uses.None?
    ensures ix.args.collectionDetails.None?
    ensures ix.args.isMutable <==> !req.revokeUpdate
  {
    var data := DataV2(req.name, req.symbol, metadataUri, 0, None, None, None);
    CreateMetadataAccountV3(
      MetadataAccounts(MetadataAddress(af, mint), mint, creator, creator, creator),
      MetadataArgsV3(data, !req.revokeUpdate, None))
  }

  /** The creator's token account creation followed by the mint of the
      supply into it; the amount is the request's `supply` as given. */
  function HolderInstructions(af: AddressFunctions, creator: Key, mint: Key, supply: nat, tokenProgramId: Key): seq<Instr> {
    var ata := CreatorAta(af, creator, mint, tokenProgramId);
    [ CreateAssociatedTokenAccount(creator, ata, creator, mint, tokenProgramId),
      MintTo(mint, ata, creator, supply, [], tokenProgramId) ]
  }

  /** Setting one authority of `mint` to none. `createSetAuthorityInstruction`
      is called without a program id, so it targets the SPL Token program. */
  function Revocation(creator: Key, mint: Key, t: AuthorityType): Instr {
    SetAuthority(mint, creator, t, None, TokenProgramId)
  }

  /** The conditional tail: mint authority first, then freeze authority. */
  function RevocationTail(creator: Key, mint: Key, req: CreateToken): seq<Instr> {
    (if req.revokeMint then [Revocation(creator, mint, MintTokens)] else [])
    + (if req.revokeFreeze then [Revocation(creator, mint, FreezeAccount)] else [])
  }

  /** `createTokenInstructions`: the whole list, in order. */
  function Recipe(af: AddressFunctions, creator: Key, mint: Key, req: CreateToken, metadataUri: string,
                  lamports: nat, tokenProgramId: Key): (r: seq<Instr>)
    ensures |r| == 5 + Flag(req.revokeMint) + Flag(req.revokeFreeze)
    ensures r[0] == CreateAccount(creator, mint, MintSize, lamports, tokenProgramId)
    ensures r[1] == InitializeMint2(mint, req.decimals, creator, Some(creator), tokenProgramId)
    ensures r[2] == MetadataInstruction(af, creator, mint, req, metadataUri)
  {
    MintInstructions(creator, mint, req.decimals, lamports, tokenProgramId)
    + [MetadataInstruction(af, creator, mint, req, metadataUri)]
    + HolderInstructions(af, creator, mint, req.supply, tokenProgramId)
    + RevocationTail(creator, mint, req)
  }

  /** The authorities the request asks to revoke, in the order they are revoked. */
  function RevokedAuthorities(req: CreateToken): (ts: seq<AuthorityType>)
    ensures |ts| == Flag(req.revokeMint) + Flag(req.revokeFreeze)
    ensures MintTokens in ts <==> req.revokeMint
    ensures FreezeAccount in ts <==> req.revokeFreeze
  {
    (if req.revokeMint then [MintTokens] else []) + (if req.revokeFreeze then [FreezeAccount] else [])
  }

  // ---------------------------------------------------------------------
  // Properties of the recipe

  /** How many instructions of each kind the recipe holds: one of each of the
      five fixed steps, and one revocation per flag that is set. */
  lemma RecipeCounts(af: AddressFunctions, creator: Key, mint: Key, req: CreateToken, uri: string,
                     lamports: nat, tokenProgramId: Key)
    ensures var r := Recipe(af, creator, mint, req, uri, lamports, tokenProgramId);
      && Count(r, CreateMintAccount) == 1
      && Count(r, InitializeMint) == 1
      && Count(r, CreateMetadata) == 1
      && Count(r, CreateHolderAccount) == 1
      && Count(r, MintSupply) == 1
      && Count(r, RevokeMintAuthority) == Flag(req.revokeMint)
      && Count(r, RevokeFreezeAuthority) == Flag(req.revokeFreeze)
      && Count(r, OtherAuthorityChange) == 0
  {
    RecipeCount(af, creator, mint, req, uri, lamports, tokenProgramId, CreateMintAccount);
    RecipeCount(af, creator, mint, req, uri, lamports, tokenProgramId, InitializeMint);
    RecipeCount(af, creator, mint, req, uri, lamports, tokenProgramId, CreateMetadata);
    RecipeCount(af, creator, mint, req, uri, lamports, tokenProgramId, CreateHolderAccount);
    RecipeCount(af, creator, mint, req, uri, lamports, tokenProgramId, MintSupply);
    RecipeCount(af, creator, mint, req, uri, lamports, tokenProgramId, RevokeMintAuthority);
    RecipeCount(af, creator, mint, req, uri, lamports, tokenProgramId, RevokeFreezeAuthority);
    RecipeCount(af, creator, mint, req, uri, lamports, tokenProgramId, OtherAuthorityChange);
  }

  /** The count of one kind, piece by piece. */
  lemma RecipeCount(af: AddressFunctions, creator: Key, mint: Key, req: CreateToken, uri: string,
                    lamports: nat, tokenProgramId: Key, k: Kind)
    ensures Count(Recipe(af, creator, mint, req, uri, lamports, tokenProgramId), k)
      == (if k in {CreateMintAccount, InitializeMint, CreateMetadata, CreateHolderAccount, MintSupply} then 1 else 0)
       + (if k == RevokeMintAuthority then Flag(req.revokeMint) else 0)
       + (if k == RevokeFreezeAuthority then Flag(req.revokeFreeze) else 0)
  {
    var fixed := MintInstructions(creator, mint, req.decimals, lamports, tokenProgramId)
      + [MetadataInstruction(af, creator, mint, req, uri)]
      + HolderInstructions(af, creator, mint, req.supply, tokenProgramId);
    var tail := RevocationTail(creator, mint, req);
    CountAppend(fixed, tail, k);
    FixedCount(af, creator, mint, req, uri, lamports, tokenProgramId, k);
    TailCount(creator, mint, req, k);
  }

  lemma FixedCount(af: AddressFunctions, creator: Key, mint: Key, req: CreateToken, uri: string,
                   lamports: nat, tokenProgramId: Key, k: Kind)
    ensures Count(MintInstructions(creator, mint, req.decimals, lamports, tokenProgramId)
                  + [MetadataInstruction(af, creator, mint, req, uri)]
                  + HolderInstructions(af, creator, mint, req.supply, tokenProgramId), k)
      == if k in {CreateMintAccount, InitializeMint, CreateMetadata, CreateHolderAccount, MintSupply} then 1 else 0
  {
    var m := MintInstructions(creator, mint, req.decimals, lamports, tokenProgramId);
    var md := [MetadataInstruction(af, creator, mint, req, uri)];
    var h := HolderInstructions(af, creator, mint, req.supply, tokenProgramId);
    CountAppend(m + md, h, k);
    CountAppend(m, md, k);
    CountPair(m[0], m[1], k);
    CountPair(h[0], h[1], k);
    CountOne(md[0], k);
  }

  lemma TailCount(creator: Key, mint: Key, req: CreateToken, k: Kind)
    ensures Count(RevocationTail(creator, mint, req), k)
      == (if k == RevokeMintAuthority then Flag(req.revokeMint) else 0)
       + (if k == RevokeFreezeAuthority then Flag(req.revokeFreeze) else 0)
  {
    var tm := if req.revokeMint then [Revocation(creator, mint, MintTokens)] else [];
    var tf := if req.revokeFreeze then [Revocation(creator, mint, FreezeAccount)] else [];
    CountAppend(tm, tf, k);
    CountOne(Revocation(creator, mint, MintTokens), k);
    CountOne(Revocation(creator, mint, FreezeAccount), k);
  }

  lemma CountOne(x: Instr, k: Kind)
    ensures Count([x], k) == if KindOf(x) == k then 1 else 0
  {
    assert [x][1..] == [];
  }

  lemma CountPair(x: Instr, y: Instr, k: Kind)
    ensures Count([x, y], k) == Count([x], k) + Count([y], k)
  {
    assert [x, y] == [x] + [y];
    CountAppend([x], [y], k);
  }

  /** A revocation of the mint authority is present exactly when `revokeMint`
      is set, and one of the freeze authority exactly when `revokeFreeze` is. */
  lemma RevocationIffFlag(af: AddressFunctions, creator: Key, mint: Key, req: CreateToken, uri: string,
                          lamports: nat, tokenProgramId: Key)
    ensures var r := Recipe(af, creator, mint, req, uri, lamports, tokenProgramId);
      && (Has(r, RevokeMintAuthority) <==> req.revokeMint)
      && (Has(r, RevokeFreezeAuthority) <==> req.revokeFreeze)
  {
    var r := Recipe(af, creator, mint, req, uri, lamports, tokenProgramId);
    RecipeCounts(af, creator, mint, req, uri, lamports, tokenProgramId);
    CountPositive(r, RevokeMintAuthority);
    CountPositive(r, RevokeFreezeAuthority);
  }

  /** With neither revocation flag set, the recipe changes no authority. */
  lemma NoAuthorityChangeWithoutFlags(af: AddressFunctions, creator: Key, mint: Key, req: CreateToken, uri: string,
                                      lamports: nat, tokenProgramId: Key)
    requires !req.revokeMint && !req.revokeFreeze
    ensures var r := Recipe(af, creator, mint, req, uri, lamports, tokenProgramId);
      |r| == 5 && forall i :: 0 <= i < |r| ==> !r[i].SetAuthority?
  {
  }

  /** The index at which the recipe places an instruction of kind `k`. */
  function Step(req: CreateToken, k: Kind): int {
    match k
    case CreateMintAccount => 0
    case InitializeMint => 1
    case CreateMetadata => 2
    case CreateHolderAccount => 3
    case MintSupply => 4
    case RevokeMintAuthority => 5
    case RevokeFreezeAuthority => 5 + Flag(req.revokeMint)
    case _ => -1
  }

  /** Each instruction of the recipe stands at the step of its kind. */
  lemma RecipeSteps(af: AddressFunctions, creator: Key, mint: Key, req: CreateToken, uri: string,
                    lamports: nat, tokenProgramId: Key)
    ensures var r := Recipe(af, creator, mint, req, uri, lamports, tokenProgramId);
      forall i :: 0 <= i < |r| ==> Step(req, KindOf(r[i])) == i
  {
    var r := Recipe(af, creator, mint, req, uri, lamports, tokenProgramId);
    var fixed := MintInstructions(creator, mint, req.decimals, lamports, tokenProgramId)
      + [MetadataInstruction(af, creator, mint, req, uri)]
      + HolderInstructions(af, creator, mint, req.supply, tokenProgramId);
    var tail := RevocationTail(creator, mint, req);
    assert r == fixed + tail;
    forall i | 0 <= i < |r|
      ensures Step(req, KindOf(r[i])) == i
    {
      if i < 5 {
        assert r[i] == fixed[i];
      } else {
        assert r[i] == tail[i - 5];
      }
    }
  }

  /** The order of the recipe: the mint is created, then initialised, then
      its metadata attached; then the token account is created, the supply
      minted, and only then are authorities revoked, mint before freeze. */
  lemma RecipeOrder(af: AddressFunctions, creator: Key, mint: Key, req: CreateToken, uri: string,
                    lamports: nat, tokenProgramId: Key)
    ensures var r := Recipe(af, creator, mint, req, uri, lamports, tokenProgramId);
      && Precedes(r, CreateMintAccount, InitializeMint)
      && Precedes(r, InitializeMint, CreateMetadata)
      && Precedes(r, CreateMetadata, CreateHolderAccount)
      && Precedes(r, CreateMetadata, MintSupply)
      && Precedes(r, CreateHolderAccount, MintSupply)
      && Precedes(r, MintSupply, RevokeMintAuthority)
      && Precedes(r, MintSupply, RevokeFreezeAuthority)
      && Precedes(r, RevokeMintAuthority, RevokeFreezeAuthority)
  {
    RecipeSteps(af, creator, mint, req, uri, lamports, tokenProgramId);
    RevocationIffFlag(af, creator, mint, req, uri, lamports, tokenProgramId);
  }

  /** The mint account is created first and initialised second, and each of
      those happens once, so every later instruction that names the mint
      finds it initialised. */
  lemma MintInitialisedBeforeUse(af: AddressFunctions, creator: Key, mint: Key, req: CreateToken, uri: string,
                                 lamports: nat, tokenProgramId: Key)
    ensures var r := Recipe(af, creator, mint, req, uri, lamports, tokenProgramId);
      && KindOf(r[0]) == CreateMintAccount && KindOf(r[1]) == InitializeMint
      && Count(r, CreateMintAccount) == 1 && Count(r, InitializeMint) == 1
      && forall i :: 2 <= i < |r| ==> MintOf(r[i]) == Some(mint)
  {
    RecipeCounts(af, creator, mint, req, uri, lamports, tokenProgramId);
  }

  /** Every instruction of the recipe acts on the same mint. */
  lemma EveryInstructionNamesMint(af: AddressFunctions, creator: Key, mint: Key, req: CreateToken, uri: string,
                                  lamports: nat, tokenProgramId: Key)
    ensures var r := Recipe(af, creator, mint, req, uri, lamports, tokenProgramId);
      forall i :: 0 <= i < |r| ==> MintOf(r[i]) == Some(mint)
  {
  }

  /** The token account is the creator's associated account for the mint,
      created and paid for by the creator; the supply is minted into that
      same account, unscaled, on the creator's authority. */
  lemma HolderAndMint(af: AddressFunctions, creator: Key, mint: Key, req: CreateToken, uri: string,
                      lamports: nat, tokenProgramId: Key)
    ensures var r := Recipe(af, creator, mint, req, uri, lamports, tokenProgramId);
      var ata := af.associatedTokenAddress(mint, creator, false, tokenProgramId);
      && (forall i :: 0 <= i < |r| && r[i].CreateAssociatedTokenAccount? ==>
            r[i].associatedToken == ata && r[i].payer == creator && r[i].owner == creator)
      && (forall i :: 0 <= i < |r| && r[i].MintTo? ==>
            r[i].destination == ata && r[i].authority == creator && r[i].amount == req.supply)
  {
  }

  /** Every authority change in the recipe sets an authority of the mint to
      none on the creator's authority, and the authorities it revokes are the
      ones the request names, mint before freeze. */
  lemma RevocationsAreTheRequested(af: AddressFunctions, creator: Key, mint: Key, req: CreateToken, uri: string,
                                   lamports: nat, tokenProgramId: Key)
    ensures var r := Recipe(af, creator, mint, req, uri, lamports, tokenProgramId);
      && (forall i :: 0 <= i < |r| && r[i].SetAuthority? ==>
            r[i].account == mint && r[i].currentAuthority == creator && r[i].newAuthority.None?)
      && |r| == 5 + |RevokedAuthorities(req)|
      && forall i :: 5 <= i < |r| ==> r[i].SetAuthority? && r[i].authorityType == RevokedAuthorities(req)[i - 5]
  {
  }

  /** The metadata instruction is the only one, and its record is the one
      the request describes. */
  lemma MetadataRecord(af: AddressFunctions, creator: Key, mint: Key, req: CreateToken, uri: string,
                       lamports: nat, tokenProgramId: Key)
    ensures var r := Recipe(af, creator, mint, req, uri, lamports, tokenProgramId);
      forall i :: 0 <= i < |r| && r[i].CreateMetadataAccountV3? ==>
        && i == 2
        && r[i].accounts.metadata == MetadataAddress(af, mint)
        && r[i].accounts.mintAuthority == creator && r[i].accounts.payer == creator
        && r[i].accounts.updateAuthority == creator
        && r[i].args.data.uri == uri
        && (r[i].args.isMutable <==> !req.revokeUpdate)
  {
  }

  /** Every instruction of the recipe except the revocations goes to the
      token program the caller names; the revocations always go to the SPL
      Token program, since no program id is passed for them. With the
      default program id, which is what `build` uses, all of them agree. */
  lemma ProgramIds(af: AddressFunctions, creator: Key, mint: Key, req: CreateToken, uri: string,
                   lamports: nat, tokenProgramId: Key)
    ensures var r := Recipe(af, creator, mint, req, uri, lamports, tokenProgramId);
      && (forall i :: 0 <= i < |r| && (r[i].CreateAccount? || r[i].InitializeMint2? ||
                                       r[i].CreateAssociatedTokenAccount? || r[i].MintTo?) ==>
            r[i].programId == tokenProgramId)
      && (forall i :: 0 <= i < |r| && r[i].SetAuthority? ==> r[i].programId == TokenProgramId)
  {
  }
}
