/** The router configuration (`BaseRouterConfig`) as far as the modelled handlers use it. */
module Config {
  import opened Jose

  /**
   * `priv_key`, `pub_key`, `algorithm`, `expire_limit` (minutes) and `prefix`; of the
   * adapter `crud` only its password hash function is kept here, the user table itself
   * being the router's state.
   */
  datatype RouterConfig = RouterConfig(
    privKey: Key,
    pubKey: Key,
    passwordHash: string -> string,
    prefix: string,
    algorithm: string,
    expireLimit: int)

  const DefaultPrefix: string := "/internal"
  const DefaultAlgorithm: string := "RS256"
  const DefaultExpireLimit: int := 180

  /**
   * A configuration that supplies only the required fields and takes the defaults for the rest;
   * the default expiry limit is a positive number of minutes.
   */
  function WithDefaults(privKey: Key, pubKey: Key, passwordHash: string -> string): (c: RouterConfig)
    ensures c.privKey == privKey && c.pubKey == pubKey && c.passwordHash == passwordHash
    ensures c.prefix == DefaultPrefix && c.algorithm == DefaultAlgorithm && c.expireLimit == DefaultExpireLimit
    ensures c.expireLimit > 0
  {
    RouterConfig(privKey, pubKey, passwordHash, DefaultPrefix, DefaultAlgorithm, DefaultExpireLimit)
  }
}
