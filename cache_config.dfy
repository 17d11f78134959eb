/** The settings of the in-memory cache (cache/inmemory/config.go). */
module CacheConfig {
  import opened Values

  /** Both settings are `time.Duration`s, in nanoseconds. */
  datatype CacheConfig = CacheConfig(expiration: int, cleanupInterval: int)

  const Prefix: string := "cache.inmemory"
  const ExpirationKey: string := "default-expiration"
  const ExpirationDefault: int := 5

  /** The cleanup-interval key as written: the same key as the
      expiration's. */
  const CleanupIntervalKeyAsWritten: string := "default-expiration"
  /** The cleanup-interval key the constant's name calls for. */
  const CleanupIntervalKey: string := "cleanup-interval"
  const CleanupIntervalDefault: int := 10

  const NanosPerMinute: int := 60_000_000_000

  /** `"%s.%s"` under the cache prefix. */
  function Key(property: string): string
  {
    Prefix + "." + property
  }

  /** `time.Duration(n) * time.Minute`, wrapping around at 64 bits. */
  function Minutes(n: int): (r: int)
    ensures IsInt64(r)
    ensures IsInt64(n * NanosPerMinute) ==> r == n * NanosPerMinute
  {
    Wrap64(Wrap64(n) * NanosPerMinute)
  }

  /** The reader, given the key the cleanup interval is read from: each
      setting is read as minutes, 5 and 10 when unset or zero. */
  function Read(cfg: Config, cleanupKey: string): (r: CacheConfig)
    ensures GetInt(cfg, Key(ExpirationKey)) == 0 ==> r.expiration == Minutes(ExpirationDefault)
    ensures GetInt(cfg, Key(ExpirationKey)) != 0 ==> r.expiration == Minutes(GetInt(cfg, Key(ExpirationKey)))
    ensures GetInt(cfg, Key(cleanupKey)) == 0 ==> r.cleanupInterval == Minutes(CleanupIntervalDefault)
    ensures GetInt(cfg, Key(cleanupKey)) != 0 ==> r.cleanupInterval == Minutes(GetInt(cfg, Key(cleanupKey)))
  {
    CacheConfig(
      Minutes(OrDefault(GetInt(cfg, Key(ExpirationKey)), ExpirationDefault)),
      Minutes(OrDefault(GetInt(cfg, Key(cleanupKey)), CleanupIntervalDefault)))
  }

  /** `NewConfig` as written: it never fails, and a configured expiration
      is also the cleanup interval, so the cleanup interval cannot be set
      on its own. */
  function NewConfigAsWritten(cfg: Config): (r: CacheConfig)
    ensures GetInt(cfg, Key(ExpirationKey)) != 0 ==> r.cleanupInterval == r.expiration
    ensures GetInt(cfg, Key(ExpirationKey)) == 0 ==> r.cleanupInterval == Minutes(CleanupIntervalDefault)
  {
    Read(cfg, CleanupIntervalKeyAsWritten)
  }

  /** A configuration asking for a 5-minute expiration and a 1-minute
      cleanup gets a 5-minute cleanup, as written. */
  lemma CleanupIntervalIgnored()
    ensures var cfg := map[Key(ExpirationKey) := VInt(5), Key(CleanupIntervalKey) := VInt(1)];
      NewConfigAsWritten(cfg).cleanupInterval == 5 * NanosPerMinute
  {
    var cfg := map[Key(ExpirationKey) := VInt(5), Key(CleanupIntervalKey) := VInt(1)];
    assert GetInt(cfg, Key(ExpirationKey)) == 5;
  }

  /** `NewConfig` reading the cleanup interval from its own key; the
      expiration is read as before. */
  function NewConfig(cfg: Config): (r: CacheConfig)
    ensures r.expiration == NewConfigAsWritten(cfg).expiration
  {
    Read(cfg, CleanupIntervalKey)
  }

  /** With its own key, the cleanup interval does not depend on the
      expiration setting, and the expiration does not depend on the
      cleanup setting. */
  lemma SettingsIndependent(cfg: Config, n: int)
    ensures NewConfig(cfg[Key(ExpirationKey) := VInt(n)]).cleanupInterval == NewConfig(cfg).cleanupInterval
    ensures NewConfig(cfg[Key(CleanupIntervalKey) := VInt(n)]).expiration == NewConfig(cfg).expiration
  {
    assert Key(ExpirationKey) != Key(CleanupIntervalKey) by {
      assert Key(ExpirationKey)[|Prefix| + 1] == 'd';
      assert Key(CleanupIntervalKey)[|Prefix| + 1] == 'c';
    }
  }

  /** With its own key, a configured cleanup interval is the one used. */
  lemma ConfiguredCleanupIntervalKept(cfg: Config, n: int)
    requires n != 0 && IsInt64(n * NanosPerMinute)
    ensures NewConfig(cfg[Key(CleanupIntervalKey) := VInt(n)]).cleanupInterval == n * NanosPerMinute
  {
  }
}
