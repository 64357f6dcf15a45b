/** The server's request records (server/src/types.ts). */
module Types {

  /** A token-creation request as the server receives it. `decimals` and
      `supply` are JavaScript numbers in the source; here they are exact. */
  datatype CreateToken = CreateToken(
    name: string,
    symbol: string,
    description: string,
    decimals: nat,
    supply: nat,
    revokeUpdate: bool,
    revokeFreeze: bool,
    revokeMint: bool,
    creatorWallet: string)

  /** The descriptive fields that are uploaded with the image. */
  datatype CreateTokenMetadata = CreateTokenMetadata(name: string, symbol: string, description: string)
}
