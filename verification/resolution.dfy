/** Option resolution at the start of `addAsyncIterator`: the caller's options
    merged over the defaults, the chunker parsed, and the CID version forced
    to 1 when a hash algorithm is named. */
module Resolution {
  import opened AddValues

  /** The shard split threshold used when the caller gives none. */
  function DefaultShardSplitThreshold(sharding: bool): Limit {
    if sharding then Finite(1000) else Unbounded
  }

  /** `Object.assign({}, {shardSplitThreshold: default}, options, {chunker, chunkerOptions})`:
      later sources win, so the caller's keys override the default threshold
      and the parsed chunker overrides the caller's chunker keys. */
  function MergeOptions(options: CallerOptions, sharding: bool, parsed: ParsedChunker): (r: ResolvedOptions)
    ensures r.shardSplitThreshold ==
      (if options.shardSplitThreshold.Some? then options.shardSplitThreshold.value
       else if sharding then Finite(1000) else Unbounded)
    ensures r.chunker == parsed.chunker && r.chunkerOptions == parsed.chunkerOptions
    ensures r.cidVersion == options.cidVersion && r.hashAlg == options.hashAlg
    ensures r.onlyHash == options.onlyHash && r.wrapWithDirectory == options.wrapWithDirectory
    ensures r.pin == options.pin && r.preload == options.preload
  {
    var threshold := match options.shardSplitThreshold
      case Some(t) => t
      case None => DefaultShardSplitThreshold(sharding);
    ResolvedOptions(
      parsed.chunker, parsed.chunkerOptions,
      options.cidVersion, options.hashAlg,
      options.onlyHash, options.wrapWithDirectory,
      options.pin, options.preload,
      threshold)
  }

  /** The options every stage sees. `parse` stands for `parseChunkerString`. */
  function Resolve(options: CallerOptions, sharding: bool, parse: Option<string> -> ParsedChunker): (r: ResolvedOptions)
    ensures r.cidVersion == (if HasText(options.hashAlg) then Some(1) else options.cidVersion)
    ensures r.shardSplitThreshold ==
      (if options.shardSplitThreshold.Some? then options.shardSplitThreshold.value
       else if sharding then Finite(1000) else Unbounded)
    ensures r.chunker == parse(options.chunker).chunker
    ensures r.chunkerOptions == parse(options.chunker).chunkerOptions
    ensures r.hashAlg == options.hashAlg && r.onlyHash == options.onlyHash
    ensures r.wrapWithDirectory == options.wrapWithDirectory
    ensures r.pin == options.pin && r.preload == options.preload
  {
    var opts := MergeOptions(options, sharding, parse(options.chunker));
    if HasText(opts.hashAlg) && opts.cidVersion != Some(1) then opts.(cidVersion := Some(1)) else opts
  }
}
