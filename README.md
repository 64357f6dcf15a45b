# Token-creation instruction recipe, modelled in Dafny

The repository lets a user mint a fungible token on Solana from a web page. Its own logic is the
recipe that turns a `CreateToken` request, the creator's wallet key, a freshly generated mint key and
an uploaded metadata URI into one ordered transaction. Everything inside each instruction (byte
encoding, address derivation, signing, base58) is done by the Solana, SPL Token, Metaplex and Umi
SDKs, which are not modelled here.

The recipe exists three times, and each copy is modelled:

- `server/src/token-builder.ts` (spl-token builder). It appends instructions to a `Transaction` in
  place: create and initialise the mint, attach metadata, create the creator's associated token
  account (ATA), mint the supply into it, and optionally revoke the mint and freeze authorities. It
  then compiles a version-0 message paid by the creator and signs it with the mint keypair.
- `client/src/composables/use-create-token.ts`. This is the browser's older copy of the same
  recipe. `createToken` runs it after uploading the image and descriptive fields.
- `server/src/spl-token-builder.ts` (Umi builder). It makes the creator's no-op signer the Umi
  identity, puts a compute-unit price in front of one `createAndMint` bundle, and appends the
  revocations.

Files:

- `wrappers.dfy`: `Option` and `Result`.
- `sdk.dfy`: the SDK surface as values. `Key`, one `Instr` constructor per SDK call, and the
  metadata record types. `Kind` classifies instructions, with `Count`, `Has` and `Precedes` over
  instruction lists. The hash-based derivations (metadata PDA, ATA), the on-curve test and the address-validity test
  are fields of `AddressFunctions`, which every caller receives as a parameter; nothing is assumed
  about them (in particular no injectivity).
- `types.dfy`: the server's `CreateToken`, with `decimals` and `supply` as `nat`.
- `effects.dfy`: `Environment`, which stands for the RPC node, the keypair generator and the upload
  endpoint. Its answers are fixed at construction. Each call is appended to `log`, so the order of
  effects (upload, then key generation, then RPC queries) is part of the contracts.
- `web3.dfy`: `Transaction` (an instruction list that `Add` grows in place), `MessageV0` and
  `VersionedTransaction`.
- `spl_recipe.dfy`: `Recipe`, the pure specification of the spl-token recipe, and its lemmas.
- `token_builder.dfy`: the server's spl-token `SPLTokenBuilder` class. Each method is proved to
  produce the list that `Recipe` describes.
- `use_create_token.dfy`: the client's copy, including the `createToken` script.
- `spl_token_builder.dfy`: the Umi builder. It also holds lemmas that compare the two server
  builders.

Notes on what the code does:

- The Umi builder computes `computedSupply = supply × 10^decimals`
  (server/src/spl-token-builder.ts:36-37), so there `supply` counts whole tokens. Both spl-token
  copies pass `createToken.supply` to `createMintToInstruction` unscaled
  (server/src/token-builder.ts:94, client/src/composables/use-create-token.ts:95), so there it
  counts base units. `SplTokenBuilder.MintedAmountsAgreeOnlyUnscaled` states when the two
  amounts agree.
- `createSetAuthorityInstruction` is called without a program id. The revocations therefore go to
  the SPL Token program even when a caller passes another `tokenProgramId`; see
  `SplRecipe.ProgramIds`.
- `getAssociatedTokenAddressSync` is called with `allowOwnerOffCurve = false`. A creator key that
  is valid base58 but not an ed25519 point, such as a program-derived address, makes both
  spl-token copies throw after the rent query, so no transaction is built.

## Model

| member | source | states |
|---|---|---|
| Sdk.ParseKey | server/src/token-builder.ts:35 | defines the stand-in for `new PublicKey(s)`: the key named by `s` when the SDK accepts `s`, otherwise a failure |
| Sdk.PercentAmount | server/src/spl-token-builder.ts:45 | `percentAmount(p)` is `p` percent in basis points: it divides by 100 back to `p` with no remainder |
| Sdk.Count | server/src/token-builder.ts:59-122 | the number of instructions of a kind never exceeds the list length |
| Sdk.CountAppend | server/src/token-builder.ts:59-122 | counts of a kind add up over concatenated lists (the builders concatenate by successive `add` calls) |
| Sdk.CountPositive | server/src/token-builder.ts:100-120 | an instruction of a kind is present exactly when its count is positive |
| Web3.Transaction.Add | server/src/token-builder.ts:66-98 | `transaction.add(...items)` appends the items in argument order and keeps what was there |
| Web3.CompileToV0Message | server/src/token-builder.ts:208-212 | defines the stand-in for `compileToV0Message`: a message keeps only its payer, blockhash and instructions in order |
| Web3.VersionedTransaction.Sign | server/src/token-builder.ts:47 | signing appends the signers' keys and keeps the message |
| Effects.Environment.GenerateKeypair | server/src/token-builder.ts:37 | each generation hands out the next key of the generator and records it |
| Effects.Environment.GetMinimumBalanceForRentExemptMint | server/src/token-builder.ts:131 | the rent query answers the node's rent-exempt minimum and is recorded |
| Effects.Environment.GetLatestBlockhash | server/src/token-builder.ts:205-206 | the blockhash query answers the node's finalized blockhash and is recorded |
| Effects.Environment.UploadData | client/src/composables/use-create-token.ts:220-232 | the upload posts the descriptive fields, is recorded, and returns the endpoint's reply or nothing when the request rejects |
| SplRecipe.MetadataInstruction | server/src/token-builder.ts:151-198 | the metadata instruction writes to the PDA of ("metadata", metadata program, mint); it names the creator as mint authority, payer and update authority; it carries the request's name and symbol, `uri` = the metadata URI, seller fee 0, no creators, collection, uses or collection details, and `isMutable` exactly when `revokeUpdate` is false |
| SplRecipe.Recipe | server/src/token-builder.ts:52-123 | the list has 5 entries plus one per revoke flag; it opens with the mint account reservation (payer creator, account mint, `MINT_SIZE` bytes, rent-exempt lamports, token program), then the mint initialisation (requested decimals, creator as mint and freeze authority), then the metadata instruction |
| SplRecipe.RevokedAuthorities | server/src/token-builder.ts:100-120 | the authorities a request revokes: mint exactly when `revokeMint`, freeze exactly when `revokeFreeze`, one entry per flag |
| SplRecipe.RecipeCounts | server/src/token-builder.ts:59-122 | the recipe holds each of the five fixed steps once, one mint revocation per `revokeMint`, one freeze revocation per `revokeFreeze`, and no other authority change |
| SplRecipe.RecipeCount | server/src/token-builder.ts:59-122 | the same count for one kind at a time |
| SplRecipe.FixedCount | server/src/token-builder.ts:59-98 | the unconditional part holds each of the five fixed steps exactly once |
| SplRecipe.TailCount | server/src/token-builder.ts:100-120 | the conditional tail holds one mint revocation iff `revokeMint` and one freeze revocation iff `revokeFreeze` |
| SplRecipe.RevocationIffFlag | server/src/token-builder.ts:100-120 | a mint-authority revocation is present iff `revokeMint`, a freeze-authority revocation iff `revokeFreeze` |
| SplRecipe.NoAuthorityChangeWithoutFlags | server/src/token-builder.ts:59-122 | with both revoke flags false the list has 5 entries and no set-authority instruction |
| SplRecipe.RecipeSteps | server/src/token-builder.ts:59-122 | every instruction stands at the fixed step of its kind (mint account 0, initialise 1, metadata 2, ATA 3, mint 4, then mint revocation, then freeze revocation) |
| SplRecipe.RecipeOrder | server/src/token-builder.ts:59-122 | mint account before initialisation, before metadata, before the ATA and the mint; the ATA before the mint; the mint before both revocations; the mint revocation before the freeze revocation |
| SplRecipe.MintInitialisedBeforeUse | server/src/token-builder.ts:125-148 | the mint is created once at index 0 and initialised once at index 1, and every later instruction names that mint |
| SplRecipe.EveryInstructionNamesMint | server/src/token-builder.ts:52-123 | every instruction acts on the same mint key |
| SplRecipe.HolderAndMint | server/src/token-builder.ts:75-98 | the ATA creation and the mint use the same ATA, derived from (mint, creator); the creator pays for and owns the ATA; the mint is authorised by the creator and its amount is the request's `supply`, unscaled |
| SplRecipe.RevocationsAreTheRequested | server/src/token-builder.ts:100-120 | every set-authority instruction sets an authority of the mint to none on the creator's authority; from index 5 on the list revokes exactly the requested authorities, in order |
| SplRecipe.MetadataRecord | server/src/token-builder.ts:151-198 | the only metadata instruction is the third entry; its account is the metadata PDA and its record carries the URI and `isMutable` iff not `revokeUpdate` |
| SplRecipe.ProgramIds | server/src/token-builder.ts:57-120 | the mint, ATA and mint-to instructions go to the caller's token program; the revocations always go to the SPL Token program |
| TokenBuilder.SPLTokenBuilder.constructor | server/src/token-builder.ts:27-29 | the builder keeps the connection it is given |
| TokenBuilder.SPLTokenBuilder.Build | server/src/token-builder.ts:31-50 | an invalid wallet fails before any effect; a creator key off the curve fails after key generation and the rent query, with no blockhash query; otherwise one mint key is generated, the message is paid by the creator, bound to the finalized blockhash and holds the recipe for that mint and the rent-exempt lamports, signed by the mint key alone; effects happen in the order key generation, rent query, blockhash query |
| TokenBuilder.SPLTokenBuilder.CreateTokenInstructions | server/src/token-builder.ts:52-123 | after one rent query, the in-place appends produce exactly `Recipe`, or fail with `OwnerOffCurve` when the creator is not on the curve |
| TokenBuilder.SPLTokenBuilder.GetMintInstructions | server/src/token-builder.ts:125-149 | a new transaction holding the mint account reservation and the mint initialisation, funded with the queried lamports |
| TokenBuilder.SPLTokenBuilder.BuildVersionedTx | server/src/token-builder.ts:201-215 | a new, unsigned version-0 transaction paid by `payer`, with the finalized blockhash and the transaction's instructions in order |
| TokenBuilder.BuiltTransaction | server/src/token-builder.ts:31-50 | the built message is paid by the creator, has 5 + flags entries all naming the mint, holds a revocation iff its flag is set, and mints before revoking |
| UseCreateToken.ClientCreateToken.WithWallet | client/src/types.ts:1-11 | defines the adapter from the client's record (no wallet, plus an image) to the request the recipe reads; no property is proved |
| UseCreateToken.CreateToken | client/src/composables/use-create-token.ts:30-54 | an invalid wallet fails before the upload; a rejected upload fails with no key generated; a reply without `metadata`, or a creator off the curve, fails after key generation and the rent query; otherwise the upload comes first, then one mint key, and the message is paid by the creator and holds the recipe with the uploaded URI, signed by the mint key alone |
| UseCreateToken.CreateTokenInstructions | client/src/composables/use-create-token.ts:56-124 | with a URI and a creator on the curve the appends produce exactly `Recipe`; without a URI, or with the creator off the curve, the call fails after the rent query |
| UseCreateToken.GetMintInstructions | client/src/composables/use-create-token.ts:126-151 | a new transaction holding the mint account reservation and the mint initialisation |
| UseCreateToken.BuildVersionedTx | client/src/composables/use-create-token.ts:203-218 | a new, unsigned version-0 transaction paid by `payer` holding the instructions in order |
| UseCreateToken.UploadedUriIsEmbedded | client/src/composables/use-create-token.ts:34-48 | in the built message the third instruction creates metadata with the uploaded URI and `isMutable` iff not `revokeUpdate`; the mint amount is the unscaled supply; the creator pays |
| SplTokenBuilder.ComputedSupply | server/src/spl-token-builder.ts:36-37 | `computedSupply` is a whole multiple of `10^decimals` and divides back to the supply |
| SplTokenBuilder.ComputedSupplyExample | server/src/spl-token-builder.ts:36-37 | decimals 9 and supply 5 give 5 000 000 000 base units |
| SplTokenBuilder.Pow10AtLeastTen | server/src/spl-token-builder.ts:36-37 | any positive number of decimals scales by at least ten |
| SplTokenBuilder.TransactionBuilder.Prepend | server/src/spl-token-builder.ts:51-55 | defines the stand-in for `prepend`: the item first, the rest in order |
| SplTokenBuilder.TransactionBuilder.Add | server/src/spl-token-builder.ts:57-77 | defines the stand-in for `add`: the item last, the rest in order |
| SplTokenBuilder.Umi.constructor | server/src/spl-token-builder.ts:25-28 | a fresh context has the null signer as identity and payer |
| SplTokenBuilder.Umi.UseSignerIdentity | server/src/spl-token-builder.ts:33-34 | `use(signerIdentity(s))` makes `s` both identity and payer |
| SplTokenBuilder.GenerateSigner | server/src/spl-token-builder.ts:31 | the mint is a keypair signer for the next generated key |
| SplTokenBuilder.BuildAndSign | server/src/spl-token-builder.ts:79 | the transaction carries the context's payer, the latest blockhash and the builder's items in order |
| SplTokenBuilder.Items | server/src/spl-token-builder.ts:39-77 | 2 entries plus one per revoke flag; the compute-unit price of 10 000 micro-lamports first, the `createAndMint` bundle second |
| SplTokenBuilder.SPLTokenBuilder.constructor | server/src/spl-token-builder.ts:25-28 | the builder makes its own new Umi context over the given node, with the null signer as identity and payer |
| SplTokenBuilder.SPLTokenBuilder.Build | server/src/spl-token-builder.ts:30-82 | one mint signer is generated first; an invalid wallet then fails and leaves identity and payer alone; otherwise the creator's no-op signer becomes identity and payer, and the transaction is paid by it and holds `Items` for that mint, identity and URI |
| SplTokenBuilder.ItemSteps | server/src/spl-token-builder.ts:39-77 | every item stands at the fixed step of its kind (price 0, bundle 1, then mint revocation, then freeze revocation) |
| SplTokenBuilder.ItemsOrder | server/src/spl-token-builder.ts:39-77 | the price precedes the bundle, the bundle precedes both revocations, and the mint revocation precedes the freeze revocation |
| SplTokenBuilder.ItemsRevocationIffFlag | server/src/spl-token-builder.ts:57-77 | a mint revocation is present iff `revokeMint`, a freeze revocation iff `revokeFreeze`; each targets the mint, sets the authority to none and is owned by the identity |
| SplTokenBuilder.NoFlagsExactlyTwo | server/src/spl-token-builder.ts:51-77 | with both flags false the items are exactly the compute-unit price and the `createAndMint` bundle |
| SplTokenBuilder.CreateAndMintInput | server/src/spl-token-builder.ts:39-50 | the only bundle is second; its input has the mint signer, the identity as authority, the request's name, symbol and decimals, the URI, seller fee 0, an amount that divides by `10^decimals` back to the supply, the creator as token owner, the fungible standard and `isMutable` iff not `revokeUpdate` |
| SplTokenBuilder.OnlyMintSignerHoldsSecret | server/src/spl-token-builder.ts:31-77 | for any blockhash, with the creator's no-op signer as identity and payer, no signer with a secret appears except the new mint's, so the builder never holds the creator's secret |
| SplTokenBuilder.RevocationsAgree | server/src/spl-token-builder.ts:57-77 | the spl-token builder and the Umi builder revoke the same authorities in the same order, the requested ones, mint before freeze |
| SplTokenBuilder.MintedAmountsAgreeOnlyUnscaled | server/src/spl-token-builder.ts:36-47 | the spl-token builder's minted amount equals the Umi builder's only when decimals are 0 or the supply is 0 |

## Left out

- Keypair generation is a parameter: `Environment.keypairs` gives the keys in order. The model does not say the keys are fresh or distinct.
- Signing, `serialize` and base58 encoding are left out. `Build` returns the signed transaction object, not its encoded string. `vtx.sign` is modelled as recording which keys signed.
- The RPC answers (rent-exempt lamports, latest blockhash) are fixed inputs of `Environment`. Failures of these calls are not modelled.
- Address derivation (`findProgramAddressSync`, `getAssociatedTokenAddressSync`) and base58 validity of a wallet string are opaque functions passed in `AddressFunctions`. No injectivity is assumed, so the model does not state that different mints get different metadata addresses.
- The expansion of Umi's `createAndMint` into primitive instructions is one opaque `CreateAndMint` item. The signers that Umi's `buildAndSign` adds, and the signatures it makes, are not modelled. `OnlyMintSignerHoldsSecret` speaks of the signers the builder passes. Whether the bundle refuses an off-curve token owner is also inside it, so the Umi builder's `Build` has no off-curve error.
- The message layout of `compileToV0Message` is left out, including the account table and the signer flags. A message is its payer, blockhash and instruction list.
- SplTokenBuilder.ComputedSupply: exact `nat` arithmetic. `Math.pow` and the multiplication are floating point in the source, so amounts above 2^53 lose precision there; that is not modelled.
- `decimals` and `supply` are `nat`. Negative or fractional JavaScript numbers, and the SDK's range checks on them, are not modelled.
- Concurrency: the Umi builder calls `this.umi.use(...)` on a context shared by all requests, and `buildAndSign` reads the payer after awaiting the blockhash. Interleaved requests are not modelled. Each `Build` is a single uninterrupted call.
- Uploads are the server's `/api/upload` route, `Uploader.uploadImage`/`uploadJson` and the client's `uploadData` over HTTP. The model sees only the client's view: one recorded request and the reply it gets. The server-side step that embeds the image URI in the metadata JSON is not part of this model.
- `new Connection(...)`, Express, multer, CORS, dotenv, `buildUmi`'s plugin wiring, `sendTransaction` and confirmation polling are plumbing and are left out.
- The client's `image` field is carried to `UploadData` unchanged. What the endpoint does with a missing image is the server's concern, and the reply stands for it.
