/** `addAsyncIterator`: option resolution, the progress closure, source
    wrapping, and the chain validate → normalize → import → prepare →
    preload → pin, with the IPFS node's collaborators recorded in a call log. */
module Pipeline {
  import opened AddValues
  import opened Resolution
  import opened Progress
  import opened Normalization
  import opened Preparation
  import opened Policies

  /** What the importer produced for the entries it was fed: its nodes (and
      the error it ended with, if any), and the byte counts it reported
      through `opts.progress`, in order. */
  datatype Imported = Imported(nodes: Emitted<ImportedNode>, progress: seq<int>)

  /** The IPFS node and the code the pipeline calls but does not define. */
  datatype Env = Env(
    sharding: bool,                                               // self._options.EXPERIMENTAL.sharding
    fileReader: bool,                                             // supportsFileReader
    parseChunker: Option<string> -> ParsedChunker,                // parseChunkerString
    validate: Value -> bool,                                      // validateAddInput does not throw
    importer: (Emitted<Entry>, ResolvedOptions) -> Imported,      // ipfs-unixfs-importer
    encode: Cid -> string,                                        // cid.toBaseEncodedString()
    store: map<Cid, StoredNode>,                                  // what object.get can fetch
    pinRefused: set<string>)                                      // hashes pin.add throws for

  /** One add: what the caller receives, the collaborator calls made (the
      calls of prepareFile, then of preloadFile, then of pinFile), and the
      values handed to the caller's progress callback. */
  datatype AddRun = AddRun(results: Emitted<ResultEntry>, calls: seq<Call>, reported: seq<int>)

  function Options(env: Env, options: CallerOptions): ResolvedOptions {
    Resolve(options, env.sharding, env.parseChunker)
  }

  /** The entries the importer is fed. */
  function Entries(env: Env, options: CallerOptions, source: Value): Emitted<Entry> {
    var opts := Options(env, options);
    NormalizeStage(env.fileReader, opts.wrapWithDirectory, ValidateStage(env.validate, WrapSource(source)))
  }

  /** What the importer yields and reports. The importer is not called for
      a source that cannot be iterated: nothing is yielded or reported and
      the stream ends with `NotIterable`. */
  function Import(env: Env, options: CallerOptions, source: Value): (r: Imported)
    ensures CanIterate(source) ==> r == env.importer(Entries(env, options, source), Options(env, options))
    ensures !CanIterate(source) ==> r.nodes.items == [] && r.progress == []
    ensures ImporterPassesErrors(env.importer) && Entries(env, options, source).error.Some? ==>
      r.nodes.error == Entries(env, options, source).error
  {
    if CanIterate(source) then env.importer(Entries(env, options, source), Options(env, options))
    else Imported(Emitted([], Some(NotIterable)), [])
  }

  /** What `prepareFile` yields and calls. */
  function Prepared(env: Env, options: CallerOptions, source: Value): Staged<ResultEntry> {
    PrepareStage(env.store, env.encode, Options(env, options), Import(env, options, source).nodes)
  }

  /** The whole add, as a composition of its stages. */
  function Add(env: Env, options: CallerOptions, source: Value): (run: AddRun)
    ensures !CanIterate(source) ==> run == AddRun(Emitted([], Some(NotIterable)), [], [])
    ensures options.onlyHash ==> run.calls == [] && |run.results.items| <= 1
    ensures HasText(options.hashAlg) ==> forall i :: 0 <= i < |run.calls| ==> !run.calls[i].PinAdd?
    ensures !options.progress ==> run.reported == []
    ensures options.progress ==> run.reported == RunningTotals(Import(env, options, source).progress)
  {
    var opts := Options(env, options);
    var prepared := Prepared(env, options, source);
    var preloaded := PreloadStage(opts, prepared.out);
    var pinned := PinStage(env.pinRefused, opts, preloaded.out);
    AddRun(pinned.out, prepared.calls + preloaded.calls + pinned.calls,
           if options.progress then RunningTotals(Import(env, options, source).progress) else [])
  }

  /** What the model assumes of the importer: when its input ends with an
      error, it re-throws that error after the nodes it has yielded. */
  ghost predicate ImporterPassesErrors(importer: (Emitted<Entry>, ResolvedOptions) -> Imported) {
    forall entries: Emitted<Entry>, opts: ResolvedOptions ::
      entries.error.Some? ==> importer(entries, opts).nodes.error == entries.error
  }

  /** Without `onlyHash`, an add whose importer input ends with an error
      ends with an error too: the input's own error when every node can be
      fetched and pinned, else the failed fetch or pin. */
  lemma InputErrorEndsAdd(env: Env, options: CallerOptions, source: Value)
    requires ImporterPassesErrors(env.importer)
    requires !options.onlyHash
    requires Entries(env, options, source).error.Some?
    ensures var e := Add(env, options, source).results.error;
      e.Some? && (e == Entries(env, options, source).error || e.value.ObjectNotFound? || e.value.PinFailed?)
  {
    if CanIterate(source) {
      var opts := Options(env, options);
      var nodes := Import(env, options, source).nodes;
      assert nodes.error == Entries(env, options, source).error;
      PrepareResults(env.store, env.encode, opts, nodes);
      PinPassesPrefix(env.pinRefused, opts, Prepared(env, options, source).out);
    }
  }

  /** Without `onlyHash`, an item that `validateAddInput` rejects, or, under
      `wrapWithDirectory`, an item that normalizes to an entry without a
      path, makes the whole add end with an error. */
  lemma AbortedInputFailsAdd(env: Env, options: CallerOptions, source: Value, k: nat)
    requires ImporterPassesErrors(env.importer)
    requires !options.onlyHash
    requires var items := WrapSource(source).items;
      k < |items| &&
      (!env.validate(items[k]) || (options.wrapWithDirectory && !HasText(NormalizeItem(env.fileReader, items[k]).path)))
    ensures Add(env, options, source).results.error.Some?
  {
    var items := WrapSource(source).items;
    var validated := ValidateStage(env.validate, WrapSource(source));
    if |validated.items| > k {
      assert validated.items[k] == items[k];
      WrapFeedsOnlyPaths(env, options, source, k);
    }
    InputErrorEndsAdd(env, options, source);
  }

  /** Without `onlyHash`, a source iterable that throws while it is read
      makes the whole add end with an error, whatever it yielded before. */
  lemma FailingSourceFailsAdd(env: Env, options: CallerOptions, source: Value)
    requires ImporterPassesErrors(env.importer)
    requires !options.onlyHash
    requires source.Iterable? && source.rejects
    ensures Add(env, options, source).results.error.Some?
  {
    var validated := ValidateStage(env.validate, WrapSource(source));
    assert validated.error.Some?;
    InputErrorEndsAdd(env, options, source);
  }

  /** The add as written under FileReader support: `normalizeInput` throws
      at the first item that passes validation, so the importer is handed no
      entry at all, and without `onlyHash` the add ends with an error. */
  lemma FileReaderAddFailsAsWritten(env: Env, options: CallerOptions, source: Value)
    requires ImporterPassesErrors(env.importer)
    requires env.fileReader && !options.onlyHash
    requires ValidateStage(env.validate, WrapSource(source)).items != []
    ensures var opts := Options(env, options);
      var entries := NormalizeStageAsWritten(true, opts.wrapWithDirectory, ValidateStage(env.validate, WrapSource(source)));
      var prepared := PrepareStage(env.store, env.encode, opts, env.importer(entries, opts).nodes);
      && entries == Emitted([], Some(ReferenceError))
      && PinStage(env.pinRefused, opts, PreloadStage(opts, prepared.out).out).out.error.Some?
  {
    var opts := Options(env, options);
    var entries := NormalizeStageAsWritten(true, opts.wrapWithDirectory, ValidateStage(env.validate, WrapSource(source)));
    var nodes := env.importer(entries, opts).nodes;
    assert nodes.error == Some(ReferenceError);
    PrepareResults(env.store, env.encode, opts, nodes);
    PinPassesPrefix(env.pinRefused, opts, PrepareStage(env.store, env.encode, opts, nodes).out);
  }

  /** With `wrapWithDirectory`, the importer is never fed an entry without
      a path: when some item normalizes to one, the importer's input stops
      before it and ends with the "must provide a path" error. */
  lemma WrapFeedsOnlyPaths(env: Env, options: CallerOptions, source: Value, k: nat)
    requires options.wrapWithDirectory
    requires var items := ValidateStage(env.validate, WrapSource(source)).items;
      k < |items| && !HasText(NormalizeItem(env.fileReader, items[k]).path)
    ensures var entries := Entries(env, options, source);
      && (forall i :: 0 <= i < |entries.items| ==> HasText(entries.items[i].path))
      && |entries.items| <= k
      && entries.error == Some(PathRequired)
  {
    NormalizedInOrder(env.fileReader, true, ValidateStage(env.validate, WrapSource(source)));
  }

  /** Without `onlyHash`, when every node can be fetched and no pin is
      refused, the caller receives exactly one result per imported node, in
      order, with the node's hash, path and size. */
  lemma OneResultPerNode(env: Env, options: CallerOptions, source: Value)
    requires !options.onlyHash
    requires var nodes := Import(env, options, source).nodes.items;
      forall i :: 0 <= i < |nodes| ==> nodes[i].cid in env.store && env.encode(nodes[i].cid) !in env.pinRefused
    ensures var nodes := Import(env, options, source).nodes;
      var results := Add(env, options, source).results;
      && |results.items| == |nodes.items|
      && results.error == nodes.error
      && forall i :: 0 <= i < |nodes.items| ==>
           && results.items[i].hash == env.encode(nodes.items[i].cid)
           && results.items[i].path == ResultPath(nodes.items[i], env.encode(nodes.items[i].cid), options.wrapWithDirectory)
           && results.items[i].size == StoredSize(env.store[nodes.items[i].cid])
  {
    var opts := Options(env, options);
    var nodes := Import(env, options, source).nodes;
    PrepareOneToOne(env.store, env.encode, opts, nodes);
    var prepared := Prepared(env, options, source).out;
    PinPassesPrefix(env.pinRefused, opts, prepared);
    var pinned := PinStage(env.pinRefused, opts, prepared);
  }

  /** `_preload(h)` is called iff a prepared result with hash `h` is a root
      (under the wrapping rule), the add is not `onlyHash` and `preload` is
      not `false`. */
  lemma PreloadedIff(env: Env, options: CallerOptions, source: Value, h: string)
    ensures var prepared := Prepared(env, options, source).out;
      Preload(h) in Add(env, options, source).calls <==>
        exists i :: 0 <= i < |prepared.items| && prepared.items[i].hash == h
          && IsRootFile(prepared.items[i].path, options.wrapWithDirectory)
          && !options.onlyHash && options.preload != Some(false)
  {
    var opts := Options(env, options);
    var prepared := Prepared(env, options, source);
    var preloaded := PreloadStage(opts, prepared.out);
    var pinned := PinStage(env.pinRefused, opts, preloaded.out);
    PreloadCalledIff(opts, prepared.out, h);
    assert Preload(h) !in prepared.calls by {
      if !options.onlyHash {
        assert forall i :: 0 <= i < |prepared.calls| ==> prepared.calls[i].ObjectGet?;
      }
    }
    assert Preload(h) !in pinned.calls;
    assert Add(env, options, source).calls == prepared.calls + preloaded.calls + pinned.calls;
  }

  /** `pin.add(h, {preload: false})` is called iff a result the pin stage
      reached has hash `h`, `pin` is not switched off, its path has no
      separator, and the add is neither `onlyHash` nor given a `hashAlg`. */
  lemma PinnedIff(env: Env, options: CallerOptions, source: Value, h: string)
    ensures var prepared := Prepared(env, options, source).out;
      var run := Add(env, options, source);
      PinAdd(h, false) in run.calls <==>
        exists i :: 0 <= i < |prepared.items| && i <= |run.results.items| && prepared.items[i].hash == h
          && (options.pin != Some(false)) && '/' !in prepared.items[i].path
          && !options.onlyHash && !HasText(options.hashAlg)
  {
    var opts := Options(env, options);
    var prepared := Prepared(env, options, source);
    var preloaded := PreloadStage(opts, prepared.out);
    var pinned := PinStage(env.pinRefused, opts, preloaded.out);
    PinCalledIff(env.pinRefused, opts, prepared.out, h);
    assert PinAdd(h, false) !in prepared.calls by {
      if !options.onlyHash {
        assert forall i :: 0 <= i < |prepared.calls| ==> prepared.calls[i].ObjectGet?;
      }
    }
    assert forall i :: 0 <= i < |preloaded.calls| ==> preloaded.calls[i].Preload?;
    assert PinAdd(h, false) !in preloaded.calls;
    assert Add(env, options, source).calls == prepared.calls + preloaded.calls + pinned.calls;
  }

  /** The IPFS node (`self`): its collaborators, and the log of the calls
      the add pipeline makes on them. */
  class Ipfs {
    const env: Env
    ghost var log: seq<Call>

    constructor (env: Env)
      ensures this.env == env && log == []
    {
      this.env := env;
      log := [];
    }

    /** The `for await` loop of `prepareFile`. */
    method PrepareFile(opts: ResolvedOptions, s: Emitted<ImportedNode>) returns (out: Emitted<ResultEntry>)
      modifies this
      ensures out == PrepareStage(env.store, env.encode, opts, s).out
      ensures log == old(log) + PrepareStage(env.store, env.encode, opts, s).calls
    {
      ghost var whole := PrepareStage(env.store, env.encode, opts, s);
      ghost var done: seq<Call> := [];
      assert Drop(s, 0) == s;
      assert whole.out.items == [] + whole.out.items;
      assert whole.calls == [] + whole.calls;
      var items: seq<ResultEntry> := [];
      var i := 0;
      while i < |s.items|
        invariant 0 <= i <= |s.items|
        invariant whole.out == After(items, PrepareStage(env.store, env.encode, opts, Drop(s, i)).out)
        invariant whole.calls == done + PrepareStage(env.store, env.encode, opts, Drop(s, i)).calls
        invariant log == old(log) + done
      {
        var file := s.items[i];
        PrepareStep(env.store, env.encode, opts, s, i, items, done, whole);
        var cid := file.cid;
        var hash := env.encode(cid);
        var path := if HasText(file.path) then file.path.value else hash;
        if opts.wrapWithDirectory && !HasText(file.path) {
          path := "";
        }
        assert path == ResultPath(file, hash, opts.wrapWithDirectory);
        if opts.onlyHash {
          return Emitted(items + [ResultEntry(path, hash, file.fileSize)], None);
        }
        AppendAssoc(old(log), done, [ObjectGet(file.cid, false)]);
        log := log + [ObjectGet(file.cid, false)];
        done := done + [ObjectGet(file.cid, false)];
        if file.cid !in env.store {
          return Emitted(items, Some(ObjectNotFound(file.cid)));
        }
        var node := env.store[file.cid];
        if opts.cidVersion == Some(1) {
          cid := ToV1(cid);
        }
        var size: nat;
        if node.RawBlock? {
          size := |node.bytes|;
        } else {
          size := node.size;
        }
        assert size == StoredSize(node);
        ghost var rest := PrepareStage(env.store, env.encode, opts, Drop(s, i + 1));
        items := items + [ResultEntry(path, hash, size)];
        i := i + 1;
        assert rest == PrepareStage(env.store, env.encode, opts, Drop(s, i));
      }
      assert Drop(s, i).items == [];
      out := Emitted(items, s.error);
      assert items + [] == items;
      assert done + [] == done;
    }

    /** The `for await` loop of `preloadFile`. */
    method PreloadFile(opts: ResolvedOptions, s: Emitted<ResultEntry>) returns (out: Emitted<ResultEntry>)
      modifies this
      ensures out == s
      ensures log == old(log) + PreloadStage(opts, s).calls
    {
      ghost var done: seq<Call> := [];
      var items: seq<ResultEntry> := [];
      var i := 0;
      while i < |s.items|
        invariant 0 <= i <= |s.items|
        invariant items == s.items[..i]
        invariant PreloadStage(opts, s).calls == done + PreloadStage(opts, Drop(s, i)).calls
        invariant log == old(log) + done
      {
        var file := s.items[i];
        var shouldPreload := ShouldPreload(opts, file);
        ghost var step := if shouldPreload then [Preload(file.hash)] else [];
        PreloadStep(opts, s, i);
        AppendAssoc(done, step, PreloadStage(opts, Drop(s, i + 1)).calls);
        AppendAssoc(old(log), done, step);
        if shouldPreload {
          log := log + [Preload(file.hash)];
        }
        done := done + step;
        assert s.items[..i + 1] == s.items[..i] + [file];
        items := items + [file];
        i := i + 1;
      }
      out := Emitted(items, s.error);
      assert PreloadStage(opts, Drop(s, i)).calls == [];
      assert done + [] == done;
    }

    /** The `for await` loop of `pinFile`. */
    method PinFile(opts: ResolvedOptions, s: Emitted<ResultEntry>) returns (out: Emitted<ResultEntry>)
      modifies this
      ensures out == PinStage(env.pinRefused, opts, s).out
      ensures log == old(log) + PinStage(env.pinRefused, opts, s).calls
    {
      ghost var whole := PinStage(env.pinRefused, opts, s);
      ghost var done: seq<Call> := [];
      assert Drop(s, 0) == s;
      assert whole.out.items == [] + whole.out.items;
      assert whole.calls == [] + whole.calls;
      var items: seq<ResultEntry> := [];
      var i := 0;
      while i < |s.items|
        invariant 0 <= i <= |s.items|
        invariant whole.out == After(items, PinStage(env.pinRefused, opts, Drop(s, i)).out)
        invariant whole.calls == done + PinStage(env.pinRefused, opts, Drop(s, i)).calls
        invariant log == old(log) + done
      {
        var file := s.items[i];
        PinStep(env.pinRefused, opts, s, i, items, done, whole);
        var pin := PinRequested(opts);
        var isRootDir := '/' !in file.path;
        var shouldPin := pin && isRootDir && !opts.onlyHash && !HasText(opts.hashAlg);
        if shouldPin {
          AppendAssoc(old(log), done, [PinAdd(file.hash, false)]);
          log := log + [PinAdd(file.hash, false)];
          done := done + [PinAdd(file.hash, false)];
          if file.hash in env.pinRefused {
            return Emitted(items, Some(PinFailed(file.hash)));
          }
        }
        ghost var rest := PinStage(env.pinRefused, opts, Drop(s, i + 1));
        items := items + [file];
        i := i + 1;
        assert rest == PinStage(env.pinRefused, opts, Drop(s, i));
      }
      assert Drop(s, i).items == [];
      out := Emitted(items, s.error);
      assert items + [] == items;
      assert done + [] == done;
    }

    /** The importer run over `entries` with the progress closure of
        `addAsyncIterator` installed as `opts.progress`: the closure's
        counter starts at zero and each byte count the importer reports is
        added to it, the new total going to the caller's callback if one was
        given. */
    method RunImporter(entries: Emitted<Entry>, opts: ResolvedOptions, hasCallback: bool)
      returns (imported: Imported, reported: seq<int>)
      ensures imported == env.importer(entries, opts)
      ensures hasCallback ==> reported == RunningTotals(imported.progress)
      ensures !hasCallback ==> reported == []
    {
      var progress := new ProgressCounter(hasCallback);
      imported := env.importer(entries, opts);
      progress.ReportAll(imported.progress);
      assert progress.seen == imported.progress;
      reported := progress.reports;
    }

    /** Option resolution at the head of `addAsyncIterator`: the chunker
        string is parsed, the caller's options are merged over the defaults,
        and a custom hash algorithm forces CID version 1 in place. */
    method ResolveOptions(options: CallerOptions) returns (opts: ResolvedOptions)
      ensures opts == Options(env, options)
    {
      var parsed := env.parseChunker(options.chunker);
      opts := MergeOptions(options, env.sharding, parsed);
      if HasText(opts.hashAlg) && opts.cidVersion != Some(1) {
        opts := opts.(cidVersion := Some(1));
      }
    }

    /** The two stages before the importer: `validateAddInput` on each item,
        then `normalizeInput`. */
    method ReadInput(opts: ResolvedOptions, wrapped: Emitted<Value>) returns (entries: Emitted<Entry>)
      ensures entries == NormalizeStage(env.fileReader, opts.wrapWithDirectory, ValidateStage(env.validate, wrapped))
    {
      var validated := ValidateInput(env.validate, wrapped);
      entries := NormalizeInput(env.fileReader, opts.wrapWithDirectory, validated);
    }

    /** The three stages after the importer, in the order the source chains
        them: `prepareFile`, `preloadFile`, `pinFile`. */
    method Publish(opts: ResolvedOptions, nodes: Emitted<ImportedNode>) returns (results: Emitted<ResultEntry>)
      modifies this
      ensures var p := PrepareStage(env.store, env.encode, opts, nodes);
        var q := PreloadStage(opts, p.out);
        var t := PinStage(env.pinRefused, opts, q.out);
        results == t.out && log == old(log) + (p.calls + q.calls + t.calls)
    {
      ghost var p := PrepareStage(env.store, env.encode, opts, nodes);
      var prepared := PrepareFile(opts, nodes);
      ghost var q := PreloadStage(opts, prepared);
      var preloaded := PreloadFile(opts, prepared);
      ghost var t := PinStage(env.pinRefused, opts, preloaded);
      AppendAssoc(old(log), p.calls, q.calls);
      results := PinFile(opts, preloaded);
      AppendAssoc(old(log), p.calls + q.calls, t.calls);
    }

    /** `addAsyncIterator(source, options)`. The shared GC lock taken around
        the stages is not part of this model. */
    method AddAsyncIterator(options: CallerOptions, source: Value) returns (results: Emitted<ResultEntry>, reported: seq<int>)
      modifies this
      ensures var run := Add(env, options, source);
        results == run.results && reported == run.reported && log == old(log) + run.calls
    {
      var opts := ResolveOptions(options);
      var wrapped := WrapSource(source);
      if !CanIterate(source) {
        // Iterating the source throws in the first stage; no item reaches
        // the importer or any other collaborator.
        assert Add(env, options, source) == AddRun(Emitted([], Some(NotIterable)), [], []);
        return Emitted([], Some(NotIterable)), [];
      }
      assert CanIterate(source);
      var entries := ReadInput(opts, wrapped);
      assert entries == Entries(env, options, source);
      var imported: Imported;
      imported, reported := RunImporter(entries, opts, options.progress);
      assert imported == Import(env, options, source);
      results := Publish(opts, imported.nodes);
      ghost var p := PrepareStage(env.store, env.encode, opts, imported.nodes);
      ghost var q := PreloadStage(opts, p.out);
      ghost var t := PinStage(env.pinRefused, opts, q.out);
      assert Add(env, options, source) == AddRun(t.out, p.calls + q.calls + t.calls, reported);
    }
  }
}
