/** The server's Umi-based `SPLTokenBuilder`
    (server/src/spl-token-builder.ts): it makes the creator's no-op signer
    the Umi identity, bundles mint creation, metadata and the initial mint
    into one `createAndMint` step with the supply scaled to base units,
    puts a compute-unit price in front, and appends the revocations the
    request asks for. How `createAndMint` expands into primitive
    instructions is the SDK's and is one opaque step here. */
module SplTokenBuilder {
  import opened Wrappers
  import opened Sdk
  import opened Types
  import opened Effects
  import SplRecipe

  /** The priority fee the builder sets, in micro-lamports per compute unit. */
  const ComputeUnitPriceMicroLamports: nat := 10_000

  function Pow10(n: nat): (p: nat)
    ensures p >= 1
  {
    if n == 0 then 1 else 10 * Pow10(n - 1)
  }

  /** `computedSupply`: the whole-token supply in base units. The source
      computes it with `Math.pow` in floating point; here it is exact. */
  function ComputedSupply(supply: nat, decimals: nat): (amount: nat)
    ensures amount % Pow10(decimals) == 0
    ensures amount / Pow10(decimals) == supply
  {
    ScaledDivides(supply, Pow10(decimals));
    supply * Pow10(decimals)
  }

  lemma ScaledDivides(a: nat, b: nat)
    requires b >= 1
    ensures (a * b) % b == 0 && (a * b) / b == a
  {
    var q, r := (a * b) / b, (a * b) % b;
    assert (a - q) * b == r;
    if a - q >= 1 {
      assert false;
    } else if a - q <= -1 {
      assert false;
    }
  }

  /** A Umi transaction builder: the items it will send, in order. */
  datatype TransactionBuilder = TransactionBuilder(items: seq<Instr>) {
    /** `builder.prepend(ix)`: a new builder with `ix` in front. */
    function Prepend(ix: Instr): (b: TransactionBuilder)
      ensures |b.items| == |items| + 1 && b.items[0] == ix && b.items[1..] == items
    {
      TransactionBuilder([ix] + items)
    }

    /** `builder.add(ix)`: a new builder with `ix` at the end. */
    function Add(ix: Instr): (b: TransactionBuilder)
      ensures |b.items| == |items| + 1 && b.items[|items|] == ix && b.items[..|items|] == items
    {
      TransactionBuilder(items + [ix])
    }
  }

  /** What `buildAndSign` produces: the items, in order, with the fee payer
      and blockhash bound. Signing and serialisation are the SDK's. */
  datatype UmiTransaction = UmiTransaction(feePayer: Signer, recentBlockhash: string, instructions: seq<Instr>)

  /** The part of a Umi context the builder uses: its identity and payer,
      and the RPC node and key generator behind it. */
  class Umi {
    var identity: Signer
    var payer: Signer
    const env: Environment

    /** `buildUmi`: a fresh context whose identity and payer are the null signer. */
    constructor (env: Environment)
      ensures this.env == env && identity == NullSigner && payer == NullSigner
    {
      this.env := env;
      identity, payer := NullSigner, NullSigner;
    }

    /** `umi.use(signerIdentity(s))`: `s` becomes both identity and payer. */
    method UseSignerIdentity(s: Signer)
      modifies this
      ensures identity == s && payer == s
    {
      identity, payer := s, s;
    }
  }

  /** `generateSigner(umi)`: a signer holding a fresh keypair. */
  method GenerateSigner(umi: Umi) returns (s: Signer)
    modifies umi.env
    ensures s == KeypairSigner(umi.env.keypairs(old(umi.env.generated)))
    ensures umi.env.generated == old(umi.env.generated) + 1
    ensures umi.env.log == old(umi.env.log) + [KeypairGenerated(s.publicKey)]
  {
    var k := umi.env.GenerateKeypair();
    s := KeypairSigner(k);
  }

  /** `builder.buildAndSign(umi)`: binds the latest blockhash and the
      context's payer to the builder's items. */
  method BuildAndSign(builder: TransactionBuilder, umi: Umi) returns (tx: UmiTransaction)
    modifies umi.env
    ensures tx == UmiTransaction(umi.payer, umi.env.finalizedBlockhash, builder.items)
    ensures umi.env.generated == old(umi.env.generated)
    ensures umi.env.log == old(umi.env.log) + [BlockhashQueried]
  {
    var blockhash := umi.env.GetLatestBlockhash();
    tx := UmiTransaction(umi.payer, blockhash, builder.items);
  }

  datatype BuildError = InvalidPublicKey(input: string)

  /** The `createAndMint` input `build` passes, with `authority` the Umi
      identity at the time of the call. */
  function MintArgs(req: CreateToken, mint: Key, authority: Signer, metadataUri: string, tokenOwner: Key): CreateAndMintArgs {
    CreateAndMintArgs(
      KeypairSigner(mint), authority, req.name, req.symbol, metadataUri, PercentAmount(0),
      req.decimals, ComputedSupply(req.supply, req.decimals), tokenOwner, Fungible, !req.revokeUpdate)
  }

  /** Setting one authority of `mint` to none, on the identity's authority. */
  function ToolboxRevocation(mint: Key, owner: Signer, t: AuthorityType): Instr {
    ToolboxSetAuthority(mint, owner, None, t)
  }

  /** The items `build` sends: the compute-unit price, the `createAndMint`
      bundle, then the revocations. */
  function Items(req: CreateToken, mint: Key, identity: Signer, metadataUri: string, creator: Key): (items: seq<Instr>)
    ensures |items| == 2 + SplRecipe.Flag(req.revokeMint) + SplRecipe.Flag(req.revokeFreeze)
    ensures items[0] == SetComputeUnitPrice(ComputeUnitPriceMicroLamports)
    ensures items[1] == CreateAndMint(MintArgs(req, mint, identity, metadataUri, creator))
  {
    [ SetComputeUnitPrice(ComputeUnitPriceMicroLamports),
      CreateAndMint(MintArgs(req, mint, identity, metadataUri, creator)) ]
    + (if req.revokeMint then [ToolboxRevocation(mint, identity, MintTokens)] else [])
    + (if req.revokeFreeze then [ToolboxRevocation(mint, identity, FreezeAccount)] else [])
  }

  class SPLTokenBuilder {
    const umi: Umi

    /** `new SPLTokenBuilder(rpcUrl)`: the builder makes its own Umi
        context over the node `env` stands for, with the null signer as
        identity and payer. */
    constructor (env: Environment)
      ensures fresh(umi) && umi.env == env
      ensures umi.identity == NullSigner && umi.payer == NullSigner
    {
      umi := new Umi(env);
    }

    /** `build`. The mint signer is generated before the wallet address is
        parsed, so a bad address still consumes a keypair; the context's
        identity and payer change only once the address is accepted. */
    method Build(af: AddressFunctions, req: CreateToken, metadataUri: string)
      returns (r: Result<UmiTransaction, BuildError>)
      modifies umi, umi.env
      ensures umi.env.generated == old(umi.env.generated) + 1
      ensures !af.isValid(req.creatorWallet) ==>
        && r == Failure(InvalidPublicKey(req.creatorWallet))
        && umi.identity == old(umi.identity) && umi.payer == old(umi.payer)
        && umi.env.log == old(umi.env.log) + [KeypairGenerated(umi.env.keypairs(old(umi.env.generated)))]
      ensures af.isValid(req.creatorWallet) ==>
        var creator := Key(req.creatorWallet);
        var mint := umi.env.keypairs(old(umi.env.generated));
        && umi.identity == NoopSigner(creator) && umi.payer == NoopSigner(creator)
        && r == Success(UmiTransaction(NoopSigner(creator), umi.env.finalizedBlockhash,
                                       Items(req, mint, NoopSigner(creator), metadataUri, creator)))
        && umi.env.log == old(umi.env.log) + [KeypairGenerated(mint), BlockhashQueried]
    {
      var mint := GenerateSigner(umi);
      var creatorKey := ParseKey(af, req.creatorWallet);
      if creatorKey.None? {
        return Failure(InvalidPublicKey(req.creatorWallet));
      }
      var creatorNoopSigner := NoopSigner(creatorKey.value);
      umi.UseSignerIdentity(creatorNoopSigner);

      var computedSupply := req.supply * Pow10(req.decimals);

      var mintTxBuilder := TransactionBuilder([CreateAndMint(CreateAndMintArgs(
          mint, umi.identity, req.name, req.symbol, metadataUri, PercentAmount(0),
          req.decimals, computedSupply, creatorKey.value, Fungible, !req.revokeUpdate))])
        .Prepend(SetComputeUnitPrice(10_000));

      if req.revokeMint {
        mintTxBuilder := mintTxBuilder.Add(ToolboxSetAuthority(mint.publicKey, umi.identity, None, MintTokens));
      }
      if req.revokeFreeze {
        mintTxBuilder := mintTxBuilder.Add(ToolboxSetAuthority(mint.publicKey, umi.identity, None, FreezeAccount));
      }

      assert mintTxBuilder.items
        == Items(req, mint.publicKey, creatorNoopSigner, metadataUri, creatorKey.value);
      var tx := BuildAndSign(mintTxBuilder, umi);
      r := Success(tx);
    }
  }

  // ---------------------------------------------------------------------
  // Properties of the items `build` sends

  /** The supply of five whole tokens with nine decimals is five billion base units. */
  lemma ComputedSupplyExample()
    ensures ComputedSupply(5, 9) == 5_000_000_000
  {
  }

  /** The index at which `build` places an item of kind `k`. */
  function UmiStep(req: CreateToken, k: Kind): int {
    match k
    case ComputeUnitPrice => 0
    case CreateAndMintBundle => 1
    case RevokeMintAuthority => 2
    case RevokeFreezeAuthority => 2 + SplRecipe.Flag(req.revokeMint)
    case _ => -1
  }

  /** Each item stands at the step of its kind. */
  lemma ItemSteps(req: CreateToken, mint: Key, identity: Signer, uri: string, creator: Key)
    ensures var items := Items(req, mint, identity, uri, creator);
      forall i :: 0 <= i < |items| ==> UmiStep(req, KindOf(items[i])) == i
  {
    var items := Items(req, mint, identity, uri, creator);
    var head := [ SetComputeUnitPrice(ComputeUnitPriceMicroLamports),
                  CreateAndMint(MintArgs(req, mint, identity, uri, creator)) ];
    var tail := (if req.revokeMint then [ToolboxRevocation(mint, identity, MintTokens)] else [])
      + (if req.revokeFreeze then [ToolboxRevocation(mint, identity, FreezeAccount)] else []);
    assert items == head + tail;
    forall i | 0 <= i < |items|
      ensures UmiStep(req, KindOf(items[i])) == i
    {
      if i < 2 {
        assert items[i] == head[i];
      } else {
        assert items[i] == tail[i - 2];
      }
    }
  }

  /** The compute-unit price comes first, the `createAndMint` bundle next,
      and the revocations after it, mint before freeze. */
  lemma ItemsOrder(req: CreateToken, mint: Key, identity: Signer, uri: string, creator: Key)
    ensures var items := Items(req, mint, identity, uri, creator);
      && Precedes(items, ComputeUnitPrice, CreateAndMintBundle)
      && Precedes(items, CreateAndMintBundle, RevokeMintAuthority)
      && Precedes(items, CreateAndMintBundle, RevokeFreezeAuthority)
      && Precedes(items, RevokeMintAuthority, RevokeFreezeAuthority)
  {
    ItemSteps(req, mint, identity, uri, creator);
    ItemsRevocationIffFlag(req, mint, identity, uri, creator);
  }

  /** A revocation of the mint authority is present exactly when
      `revokeMint` is set, one of the freeze authority exactly when
      `revokeFreeze` is; each sets the authority of the mint to none and is
      authorised by the identity. */
  lemma ItemsRevocationIffFlag(req: CreateToken, mint: Key, identity: Signer, uri: string, creator: Key)
    ensures var items := Items(req, mint, identity, uri, creator);
      && (Has(items, RevokeMintAuthority) <==> req.revokeMint)
      && (Has(items, RevokeFreezeAuthority) <==> req.revokeFreeze)
      && forall i :: 0 <= i < |items| && items[i].ToolboxSetAuthority? ==>
           items[i].owned == mint && items[i].ownerSigner == identity && items[i].newAuthority.None?
  {
    var items := Items(req, mint, identity, uri, creator);
    ItemSteps(req, mint, identity, uri, creator);
    if req.revokeMint {
      assert KindOf(items[2]) == RevokeMintAuthority;
    }
    if req.revokeFreeze {
      assert KindOf(items[2 + SplRecipe.Flag(req.revokeMint)]) == RevokeFreezeAuthority;
    }
  }

  /** With neither revocation flag set, `build` sends exactly the compute-unit
      price and the `createAndMint` bundle. */
  lemma NoFlagsExactlyTwo(req: CreateToken, mint: Key, identity: Signer, uri: string, creator: Key)
    requires !req.revokeMint && !req.revokeFreeze
    ensures Items(req, mint, identity, uri, creator)
      == [SetComputeUnitPrice(10_000), CreateAndMint(MintArgs(req, mint, identity, uri, creator))]
  {
  }

  /** The `createAndMint` input: the request's decimals, name and symbol, the
      uploaded metadata URI, no seller fee, the supply scaled to base units,
      the creator as token owner, a fungible token, mutable exactly when the
      update authority is kept, minted by the new mint signer on the
      identity's authority. */
  lemma CreateAndMintInput(req: CreateToken, mint: Key, identity: Signer, uri: string, creator: Key)
    ensures var items := Items(req, mint, identity, uri, creator);
      forall i :: 0 <= i < |items| && items[i].CreateAndMint? ==>
        var input := items[i].input;
        && i == 1
        && input.mint == KeypairSigner(mint) && input.authority == identity
        && input.name == req.name && input.symbol == req.symbol && input.decimals == req.decimals
        && input.uri == uri && input.sellerFeeBasisPoints == 0
        && input.amount / Pow10(req.decimals) == req.supply && input.amount % Pow10(req.decimals) == 0
        && input.tokenOwner == creator && input.tokenStandard == Fungible
        && (input.isMutable <==> !req.revokeUpdate)
  {
    ItemSteps(req, mint, identity, uri, creator);
  }

  /** The signers `build` hands to the SDK calls of an item. */
  function SignerArgs(ix: Instr): set<Signer> {
    match ix
    case CreateAndMint(input) => {input.mint, input.authority}
    case ToolboxSetAuthority(_, owner, _, _) => {owner}
    case _ => {}
  }

  /** Once the creator's no-op signer is the identity and payer, the only
      signer with a secret key among the items and the fee payer is the new
      mint's: the builder never holds the creator's secret. */
  lemma OnlyMintSignerHoldsSecret(req: CreateToken, mint: Key, uri: string, creator: Key, blockhash: string)
    ensures var tx := UmiTransaction(NoopSigner(creator), blockhash, Items(req, mint, NoopSigner(creator), uri, creator));
      && !tx.feePayer.KeypairSigner?
      && forall i, s :: 0 <= i < |tx.instructions| && s in SignerArgs(tx.instructions[i]) && s.KeypairSigner? ==>
           s == KeypairSigner(mint)
  {
    ItemSteps(req, mint, NoopSigner(creator), uri, creator);
  }

  // ---------------------------------------------------------------------
  // The two server builders side by side

  /** Both builders revoke the same authorities in the same order: the ones
      the request names, mint before freeze. */
  lemma RevocationsAgree(af: AddressFunctions, creator: Key, mint: Key, req: CreateToken, uri: string,
                         lamports: nat, tokenProgramId: Key, identity: Signer)
    ensures var legacy := SplRecipe.Recipe(af, creator, mint, req, uri, lamports, tokenProgramId);
      var umi := Items(req, mint, identity, uri, creator);
      var ts := SplRecipe.RevokedAuthorities(req);
      && |legacy| == 5 + |ts| && |umi| == 2 + |ts|
      && forall i :: 0 <= i < |ts| ==>
           && legacy[5 + i].SetAuthority? && legacy[5 + i].authorityType == ts[i]
           && umi[2 + i].ToolboxSetAuthority? && umi[2 + i].authorityType == ts[i]
  {
    SplRecipe.RevocationsAreTheRequested(af, creator, mint, req, uri, lamports, tokenProgramId);
  }

  /** The spl-token builder mints the request's `supply` as a raw base-unit
      amount, while the Umi builder scales it by ten to the decimals; the two
      amounts agree only when there are no decimals or nothing is minted. */
  lemma MintedAmountsAgreeOnlyUnscaled(af: AddressFunctions, creator: Key, mint: Key, req: CreateToken, uri: string,
                                       lamports: nat, tokenProgramId: Key, identity: Signer)
    ensures var legacy := SplRecipe.Recipe(af, creator, mint, req, uri, lamports, tokenProgramId);
      var umi := Items(req, mint, identity, uri, creator);
      legacy[4].MintTo? && umi[1].CreateAndMint?
      && (legacy[4].amount == umi[1].input.amount <==> req.decimals == 0 || req.supply == 0)
  {
    var p := Pow10(req.decimals);
    if req.decimals > 0 && req.supply > 0 {
      Pow10AtLeastTen(req.decimals);
      assert req.supply * p >= req.supply * 10;
    }
  }

  lemma {:induction false} Pow10AtLeastTen(n: nat)
    requires n >= 1
    ensures Pow10(n) >= 10
  {
    if n > 1 {
      Pow10AtLeastTen(n - 1);
    }
  }
}
