/**
 * Constructor options: `mergeRight(defaultBorillaOptions, opts)`. Each field
 * the caller supplies wins; each field left out takes the default.
 */
module Options {
  import opened Wrappers
  import opened AssetLoader

  type Concurrency = n: nat | 1 <= n witness 1

  /** The `fetchLimit` option: a positive whole number, or `Infinity`. */
  datatype FetchLimit = Limit(n: Concurrency) | Unbounded

  /** What the caller passes to the constructor; `None` is a field left out. */
  datatype BorillaOptions = BorillaOptions(isIos: Option<bool>, audioUrls: Option<AudioUrls>, fetchLimit: Option<FetchLimit>)

  /** Every field set. */
  datatype Config = Config(isIos: bool, audioUrls: AudioUrls, fetchLimit: FetchLimit)

  const NoOptions := BorillaOptions(None, None, None)

  /** `defaultBorillaOptions`: the detected platform, no assets, no fetch limit. */
  function DefaultOptions(platformIsIos: bool): Config {
    Config(platformIsIos, [], Unbounded)
  }

  /** Every field of `c`, supplied. */
  function Supply(c: Config): BorillaOptions {
    BorillaOptions(Some(c.isIos), Some(c.audioUrls), Some(c.fetchLimit))
  }

  function MergeRight(defaults: Config, opts: BorillaOptions): (r: Config)
    ensures opts.isIos.Some? ==> r.isIos == opts.isIos.value
    ensures opts.isIos.None? ==> r.isIos == defaults.isIos
    ensures opts.audioUrls.Some? ==> r.audioUrls == opts.audioUrls.value
    ensures opts.audioUrls.None? ==> r.audioUrls == defaults.audioUrls
    ensures opts.fetchLimit.Some? ==> r.fetchLimit == opts.fetchLimit.value
    ensures opts.fetchLimit.None? ==> r.fetchLimit == defaults.fetchLimit
  {
    Config(opts.isIos.GetOr(defaults.isIos), opts.audioUrls.GetOr(defaults.audioUrls), opts.fetchLimit.GetOr(defaults.fetchLimit))
  }

  /** With no options the defaults come through unchanged. */
  lemma MergeNothingKeepsDefaults(defaults: Config)
    ensures MergeRight(defaults, NoOptions) == defaults
  {
  }

  /** With every field supplied the defaults play no part. */
  lemma MergeEverythingIgnoresDefaults(defaults: Config, c: Config)
    ensures MergeRight(defaults, Supply(c)) == c
  {
  }

  /** Merging the same options a second time changes nothing. */
  lemma MergeRightIdempotent(defaults: Config, opts: BorillaOptions)
    ensures MergeRight(MergeRight(defaults, opts), opts) == MergeRight(defaults, opts)
  {
  }
}
