/** Values that flow through the add pipeline: the caller's input shapes,
    normalized entries, nodes produced by the importer, the results handed
    back to the caller, the options, and the log of collaborator calls. */
module AddValues {

  datatype Option<T> = None | Some(value: T)

  /** JavaScript truthiness of an optional string (`undefined` and `''` are falsy). */
  predicate HasText(s: Option<string>) {
    s.Some? && s.value != ""
  }

  /** A value the caller may pass, as the whole source, as one item of it, or
      as the `content` of a `{path, content}` record. */
  datatype Value =
    | Buffer(bytes: seq<bv8>)                               // a Node.js Buffer
    | Text(text: string)                                    // a JavaScript string
    | FileHandle(name: string)                              // a browser File (kindOf(x) === 'file')
    | PullSource(source: nat)                               // a pull-stream source function
    | Array(elements: seq<Value>)                           // a JavaScript array
    | Iterable(elements: seq<Value>, rejects: bool)         // any other (async) iterable; it may
                                                            // throw after yielding its elements
    | Record(path: Option<string>, content: Option<Value>)  // an object with `path` / `content` keys
    | Other(id: nat)                                        // any other truthy value

  /** JavaScript truthiness of a value: the empty string is the only falsy one here. */
  predicate Truthy(v: Value) {
    !(v.Text? && v.text == "")
  }

  /** The content of an entry after normalization: either converted into a
      byte-producing form, or the value left as it was. */
  datatype Content =
    | ReaderStream(file: string)   // streamFromFileReader(file)
    | PullIterator(source: nat)    // toAsyncIterator(pullSource)
    | TextBytes(text: string)      // Buffer.from(text)
    | AsIs(value: Value)

  /** A normalized `{path, content}` entry, as handed to the importer. */
  datatype Entry = Entry(path: Option<string>, content: Content)

  /** A content identifier; its string encoding is a collaborator (`Env.encode`). */
  datatype Cid = Cid(version: nat, codec: string, multihash: seq<bv8>)

  /** `cid.toV1()`: the same codec and multihash under CID version 1. */
  function ToV1(c: Cid): Cid {
    Cid(1, c.codec, c.multihash)
  }

  /** One node yielded by the importer: its CID, its path (if any) and the
      file size recorded in its UnixFS metadata (`unixfs.fileSize()`). */
  datatype ImportedNode = ImportedNode(cid: Cid, path: Option<string>, fileSize: nat)

  /** What `object.get` returns: a raw block (a Buffer) or a DAG node with a `size`. */
  datatype StoredNode = RawBlock(bytes: seq<bv8>) | DagNode(size: nat)

  /** The caller-facing result of one imported node. */
  datatype ResultEntry = ResultEntry(path: string, hash: string, size: nat)

  /** A shard split threshold: a number or `Infinity`. */
  datatype Limit = Finite(n: nat) | Unbounded

  /** What `parseChunkerString` returns. */
  datatype ParsedChunker = ParsedChunker(chunker: string, chunkerOptions: map<string, nat>)

  /** The options the caller passes; `None` is a key that is absent. */
  datatype CallerOptions = CallerOptions(
    chunker: Option<string>,
    chunkerOptions: Option<map<string, nat>>,
    cidVersion: Option<nat>,
    hashAlg: Option<string>,
    onlyHash: bool,
    wrapWithDirectory: bool,
    pin: Option<bool>,
    preload: Option<bool>,
    shardSplitThreshold: Option<Limit>,
    progress: bool)  // whether a progress callback was given

  /** The options every stage reads after resolution. */
  datatype ResolvedOptions = ResolvedOptions(
    chunker: string,
    chunkerOptions: map<string, nat>,
    cidVersion: Option<nat>,
    hashAlg: Option<string>,
    onlyHash: bool,
    wrapWithDirectory: bool,
    pin: Option<bool>,
    preload: Option<bool>,
    shardSplitThreshold: Limit)

  /** A call the pipeline makes on the IPFS node's collaborators. */
  datatype Call =
    | ObjectGet(cid: Cid, preload: bool)   // ipfs.object.get(cid, {..., preload})
    | Preload(hash: string)                // ipfs._preload(hash)
    | PinAdd(hash: string, preload: bool)  // ipfs.pin.add(hash, {preload})

  /** Why an add stops. */
  datatype AddError =
    | NotIterable               // the source cannot be iterated
    | SourceFailed              // the caller's iterable threw while being read
    | InvalidInput              // validateAddInput threw
    | ReferenceError            // normalizeContent called an undefined name
    | PathRequired              // wrapWithDirectory and an entry without a path
    | ObjectNotFound(cid: Cid)  // object.get failed
    | PinFailed(hash: string)   // pin.add failed

  /** What one async-generator stage produced: the items it yielded, in
      order, followed by the error it threw, if any. */
  datatype Emitted<T> = Emitted(items: seq<T>, error: Option<AddError>)

  /** A stage's output together with the collaborator calls it made, in order. */
  datatype Staged<T> = Staged(out: Emitted<T>, calls: seq<Call>)

  /** The stream `rest` with `done` yielded in front of it. */
  function After<T>(done: seq<T>, rest: Emitted<T>): Emitted<T> {
    Emitted(done + rest.items, rest.error)
  }

  /** The stream `s` without its first `i` items. */
  function Drop<T>(s: Emitted<T>, i: nat): Emitted<T>
    requires i <= |s.items|
  {
    Emitted(s.items[i..], s.error)
  }

  lemma AppendAssoc<T>(a: seq<T>, b: seq<T>, c: seq<T>)
    ensures (a + b) + c == a + (b + c)
  {
  }
}
