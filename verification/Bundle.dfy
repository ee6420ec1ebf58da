/** The values of an account migration bundle (`accountbundle`). */
module Bundle {
  import opened Options

  newtype byte = x: int | 0 <= x < 0x100

  type bytes = seq<byte>

  datatype Error =
    | InvalidInput | Forbidden | PlanChanged | ConfirmationRequired | Integrity | WrongPassword | Conflicts | Backend

  datatype Outcome<+T> = Success(value: T) | Failure(error: Error)

  /** The public fields of an account; `settings` stands for all those nothing here looks at. */
  datatype PublicConfig = PublicConfig(name: string, accountType: string, settings: string)

  datatype PortableCredential = PortableCredential(vendor: string, authMode: string, payload: string, identity: string)

  datatype PortableProxy = PortableProxy(ref: string, name: string, endpoint: string, authSecret: string)

  datatype PortableAccount = PortableAccount(
    ref: string, sourceProviderID: int, sourceChannelID: int, config: PublicConfig,
    credential: PortableCredential, proxyRef: string)

  datatype Content = Content(createdAt: int, accounts: seq<PortableAccount>, proxies: seq<PortableProxy>)

  const MAX_ACCOUNTS := 500

  /** `compareHash`: two SHA-256 digests in hexadecimal that are the same. */
  predicate SameHash(left: string, right: string) {
    |left| == |right| == 64 && left == right
  }

  lemma HashesAgree(left: string, right: string)
    ensures SameHash(left, right) <==> left == right && |left| == 64
  {
  }
}
