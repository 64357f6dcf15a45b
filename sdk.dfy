/** The parts of the Solana, SPL Token, Metaplex token-metadata and Umi SDKs
    that the token builders call, as values. Each SDK call that produces an
    instruction is one constructor of `Instr`, carrying the arguments the
    builders pass to it; what the SDK then encodes into bytes is not modelled.
    The hash-based address derivations and the base58 validity test of the SDK
    cannot be seen, so they are the fields of an `AddressFunctions` value that
    every caller receives as a parameter: nothing is assumed about them. */
module Sdk {
  import opened Wrappers

  /** A public key, identified by its canonical base58 text. */
  datatype Key = Key(address: string)

  /** The Metaplex token-metadata program, as the builders spell it. */
  const MetadataProgramId: Key := Key("metaqbxxUerdq28cj1RbAWkYQm3ybzjb6a8bt518x1s")

  /** The SPL Token program (`TOKEN_PROGRAM_ID` of `@solana/spl-token`). */
  const TokenProgramId: Key := Key("TokenkegQfeZyiNwAJbNbGKPFXCWuBvf9Ss623VQ5DA")

  /** Size in bytes of a mint account (`MINT_SIZE` of `@solana/spl-token`). */
  const MintSize: nat := 82

  /** The first seed of a metadata account address. */
  const MetadataSeed: string := "metadata"

  /** A seed of a program-derived address: literal bytes or a key's 32 bytes. */
  datatype Seed = Literal(text: string) | KeyBytes(key: Key)

  /** The SDK's opaque functions on addresses:
      - `isValid(s)`: `new PublicKey(s)` / Umi's `publicKey(s)` accept `s`;
      - `programAddress(seeds, program)`: `PublicKey.findProgramAddressSync`;
      - `isOnCurve(k)`: `PublicKey.isOnCurve(k.toBytes())`, whether the key
        is an ed25519 point (a wallet) rather than a program-derived address;
      - `associatedTokenAddress(mint, owner, allowOwnerOffCurve, program)`:
        `getAssociatedTokenAddressSync`, for an owner it accepts (it throws
        `TokenOwnerOffCurveError` for an off-curve owner unless allowed). */
  datatype AddressFunctions = AddressFunctions(
    isValid: string -> bool,
    isOnCurve: Key -> bool,
    programAddress: (seq<Seed>, Key) -> Key,
    associatedTokenAddress: (Key, Key, bool, Key) -> Key)

  /** `new PublicKey(s)`: the key named by `s`, or `None` where the SDK throws. */
  function ParseKey(af: AddressFunctions, s: string): (r: Option<Key>)
    ensures r.Some? <==> af.isValid(s)
    ensures r.Some? ==> r.value.address == s
  {
    if af.isValid(s) then Some(Key(s)) else None
  }

  /** `AuthorityType` of the SPL Token program. */
  datatype AuthorityType = MintTokens | FreezeAccount | AccountOwner | CloseAccount

  /** The metadata record types of `createMetadataAccountV3`. */
  datatype Creator = Creator(address: Key, verified: bool, share: nat)
  datatype Collection = Collection(verified: bool, key: Key)
  datatype UseMethod = Burn | Multiple | Single
  datatype Uses = Uses(useMethod: UseMethod, remaining: nat, total: nat)
  datatype CollectionDetails = V1(size: nat)

  datatype DataV2 = DataV2(
    name: string,
    symbol: string,
    uri: string,
    sellerFeeBasisPoints: nat,
    creators: Option<seq<Creator>>,
    collection: Option<Collection>,
    uses: Option<Uses>)

  datatype MetadataAccounts = MetadataAccounts(
    metadata: Key,
    mint: Key,
    mintAuthority: Key,
    payer: Key,
    updateAuthority: Key)

  datatype MetadataArgsV3 = MetadataArgsV3(
    data: DataV2,
    isMutable: bool,
    collectionDetails: Option<CollectionDetails>)

  /** A Umi signer: the default `nullSigner`, a no-op signer that knows only a
      public key, or a signer that holds a keypair's secret. */
  datatype Signer = NullSigner | NoopSigner(publicKey: Key) | KeypairSigner(publicKey: Key)

  /** `TokenStandard` of the token-metadata program. */
  datatype TokenStandard =
    NonFungible | FungibleAsset | Fungible | NonFungibleEdition | ProgrammableNonFungible

  /** The input record of Umi's `createAndMint`. */
  datatype CreateAndMintArgs = CreateAndMintArgs(
    mint: Signer,
    authority: Signer,
    name: string,
    symbol: string,
    uri: string,
    sellerFeeBasisPoints: nat,
    decimals: nat,
    amount: nat,
    tokenOwner: Key,
    tokenStandard: TokenStandard,
    isMutable: bool)

  /** One constructor per SDK call that yields an instruction. */
  datatype Instr =
      /** `SystemProgram.createAccount` */
    | CreateAccount(fromPubkey: Key, newAccountPubkey: Key, space: nat, lamports: nat, programId: Key)
      /** `createInitializeMint2Instruction` */
    | InitializeMint2(mint: Key, decimals: nat, mintAuthority: Key, freezeAuthority: Option<Key>, programId: Key)
      /** `createCreateMetadataAccountV3Instruction` */
    | CreateMetadataAccountV3(accounts: MetadataAccounts, args: MetadataArgsV3)
      /** `createAssociatedTokenAccountInstruction` */
    | CreateAssociatedTokenAccount(payer: Key, associatedToken: Key, owner: Key, mint: Key, programId: Key)
      /** `createMintToInstruction` */
    | MintTo(mint: Key, destination: Key, authority: Key, amount: nat, multiSigners: seq<Key>, programId: Key)
      /** `createSetAuthorityInstruction` (its program id defaults to the SPL Token program) */
    | SetAuthority(account: Key, currentAuthority: Key, authorityType: AuthorityType, newAuthority: Option<Key>, programId: Key)
      /** Umi toolbox `setComputeUnitPrice` */
    | SetComputeUnitPrice(microLamports: nat)
      /** Umi token-metadata `createAndMint`, one opaque bundle */
    | CreateAndMint(input: CreateAndMintArgs)
      /** Umi toolbox `setAuthority` */
    | ToolboxSetAuthority(owned: Key, ownerSigner: Signer, newAuthority: Option<Key>, authorityType: AuthorityType)

  /** Umi's `percentAmount(p)`, as basis points (two decimals). */
  function PercentAmount(percent: nat): (basisPoints: nat)
    ensures basisPoints / 100 == percent && basisPoints % 100 == 0
  {
    percent * 100
  }

  /** The mint account an instruction acts on, if any. */
  function MintOf(ix: Instr): Option<Key> {
    match ix
    case CreateAccount(_, newAccount, _, _, _) => Some(newAccount)
    case InitializeMint2(mint, _, _, _, _) => Some(mint)
    case CreateMetadataAccountV3(accounts, _) => Some(accounts.mint)
    case CreateAssociatedTokenAccount(_, _, _, mint, _) => Some(mint)
    case MintTo(mint, _, _, _, _, _) => Some(mint)
    case SetAuthority(account, _, _, _, _) => Some(account)
    case SetComputeUnitPrice(_) => None
    case CreateAndMint(input) => if input.mint.NullSigner? then None else Some(input.mint.publicKey)
    case ToolboxSetAuthority(owned, _, _, _) => Some(owned)
  }

  /** What an instruction does to the token, independent of which SDK built it. */
  datatype Kind =
    | CreateMintAccount | InitializeMint | CreateMetadata | CreateHolderAccount | MintSupply
    | RevokeMintAuthority | RevokeFreezeAuthority | OtherAuthorityChange
    | ComputeUnitPrice | CreateAndMintBundle

  function KindOf(ix: Instr): Kind {
    match ix
    case CreateAccount(_, _, _, _, _) => CreateMintAccount
    case InitializeMint2(_, _, _, _, _) => InitializeMint
    case CreateMetadataAccountV3(_, _) => CreateMetadata
    case CreateAssociatedTokenAccount(_, _, _, _, _) => CreateHolderAccount
    case MintTo(_, _, _, _, _, _) => MintSupply
    case SetAuthority(_, _, t, newAuthority, _) => AuthorityKind(t, newAuthority)
    case SetComputeUnitPrice(_) => ComputeUnitPrice
    case CreateAndMint(_) => CreateAndMintBundle
    case ToolboxSetAuthority(_, _, newAuthority, t) => AuthorityKind(t, newAuthority)
  }

  /** Setting an authority to none is a revocation; anything else is not. */
  function AuthorityKind(t: AuthorityType, newAuthority: Option<Key>): Kind {
    if newAuthority.Some? then OtherAuthorityChange
    else if t == MintTokens then RevokeMintAuthority
    else if t == FreezeAccount then RevokeFreezeAuthority
    else OtherAuthorityChange
  }

  /** Number of instructions of kind `k` in `s`. */
  function Count(s: seq<Instr>, k: Kind): (c: nat)
    ensures c <= |s|
  {
    if s == [] then 0
    else (if KindOf(s[0]) == k then 1 else 0) + Count(s[1..], k)
  }

  /** An instruction of kind `k` is present exactly when the count of `k` is positive. */
  lemma {:induction false} CountPositive(s: seq<Instr>, k: Kind)
    ensures Count(s, k) > 0 <==> Has(s, k)
  {
    if s != [] {
      CountPositive(s[1..], k);
      if KindOf(s[0]) != k && Has(s, k) {
        var i :| 0 <= i < |s| && KindOf(s[i]) == k;
        assert KindOf(s[1..][i - 1]) == k;
      }
      if Has(s[1..], k) {
        var i :| 0 <= i < |s[1..]| && KindOf(s[1..][i]) == k;
        assert KindOf(s[i + 1]) == k;
      }
    }
  }

  lemma {:induction false} CountAppend(a: seq<Instr>, b: seq<Instr>, k: Kind)
    ensures Count(a + b, k) == Count(a, k) + Count(b, k)
  {
    if a == [] {
      assert a + b == b;
    } else {
      assert (a + b)[1..] == a[1..] + b;
      CountAppend(a[1..], b, k);
    }
  }

  /** Every instruction of kind `a` stands before every instruction of kind `b`. */
  predicate Precedes(s: seq<Instr>, a: Kind, b: Kind) {
    forall i, j :: 0 <= i < |s| && 0 <= j < |s| && KindOf(s[i]) == a && KindOf(s[j]) == b ==> i < j
  }

  /** Some instruction of `s` is of kind `k`. */
  predicate Has(s: seq<Instr>, k: Kind) {
    exists i :: 0 <= i < |s| && KindOf(s[i]) == k
  }
}
