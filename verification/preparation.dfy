/** `prepareFile`: each node the importer yields becomes a `{path, hash, size}`
    result; with `onlyHash` the first node is answered from its metadata and
    the stage ends. */
module Preparation {
  import opened AddValues

  /** The result path: the node's own path when it has one, else its hash;
      under `wrapWithDirectory` a node without a path is the wrapping
      directory and gets the empty path. */
  function ResultPath(node: ImportedNode, hash: string, wrap: bool): (p: string)
    ensures HasText(node.path) ==> p == node.path.value
    ensures !HasText(node.path) && wrap ==> p == ""
    ensures !HasText(node.path) && !wrap ==> p == hash
  {
    var path := if HasText(node.path) then node.path.value else hash;
    if wrap && !HasText(node.path) then "" else path
  }

  /** The size of a fetched node: the byte length of a raw block, else the
      node's own `size`. */
  function StoredSize(n: StoredNode): nat {
    match n
    case RawBlock(bytes) => |bytes|
    case DagNode(size) => size
  }

  /** The result for `node` with the given size; its hash is the encoding of
      the CID the importer produced. */
  function ResultFor(encode: Cid -> string, wrap: bool, node: ImportedNode, size: nat): ResultEntry {
    var hash := encode(node.cid);
    ResultEntry(ResultPath(node, hash, wrap), hash, size)
  }

  /** `prepareFile` over the importer's output. `store` is what
      `object.get` can fetch; a CID it does not hold makes the call throw.
      `PrepareResults` states what it yields and `PrepareFetches` what it calls. */
  function PrepareStage(store: map<Cid, StoredNode>, encode: Cid -> string, opts: ResolvedOptions,
                        s: Emitted<ImportedNode>): (r: Staged<ResultEntry>)
    ensures opts.onlyHash ==> r.calls == [] && |r.out.items| <= 1
    ensures forall i :: 0 <= i < |r.calls| ==> r.calls[i].ObjectGet?
    decreases |s.items|
  {
    if s.items == [] then Staged(Emitted([], s.error), [])
    else
      var node := s.items[0];
      if opts.onlyHash then
        Staged(Emitted([ResultFor(encode, opts.wrapWithDirectory, node, node.fileSize)], None), [])
      else if node.cid !in store then
        Staged(Emitted([], Some(ObjectNotFound(node.cid))), [ObjectGet(node.cid, false)])
      else
        var rest := PrepareStage(store, encode, opts, Drop(s, 1));
        var result := ResultFor(encode, opts.wrapWithDirectory, node, StoredSize(store[node.cid]));
        Staged(After([result], rest.out), [ObjectGet(node.cid, false)] + rest.calls)
  }

  /** Without `onlyHash`, `object.get` is called once per node, in order,
      with no preload, up to and including the first node the store lacks;
      there is one call per result, plus one for a missing node. */
  lemma {:induction false} PrepareFetches(store: map<Cid, StoredNode>, encode: Cid -> string,
                                          opts: ResolvedOptions, s: Emitted<ImportedNode>)
    requires !opts.onlyHash
    ensures var r := PrepareStage(store, encode, opts, s);
      && |r.out.items| <= |r.calls| <= |s.items|
      && |r.calls| <= |r.out.items| + 1
      && (|r.out.items| < |s.items| ==> |r.calls| == |r.out.items| + 1)
      && (forall i :: 0 <= i < |r.calls| ==> r.calls[i] == ObjectGet(s.items[i].cid, false))
    decreases |s.items|
  {
    if s.items != [] && s.items[0].cid in store {
      var tail := Drop(s, 1);
      PrepareFetches(store, encode, opts, tail);
      var r := PrepareStage(store, encode, opts, s);
      var rest := PrepareStage(store, encode, opts, tail);
      assert r.calls == [ObjectGet(s.items[0].cid, false)] + rest.calls;
      forall i | 0 < i < |r.calls|
        ensures r.calls[i] == ObjectGet(s.items[i].cid, false)
      {
        assert r.calls[i] == rest.calls[i - 1];
        assert tail.items[i - 1] == s.items[i];
      }
    }
  }

  /** With `onlyHash` the first node is answered from its metadata alone.
      Otherwise every node before the first one the store lacks yields its
      result with the stored size, in order; a missing node ends the stage
      with `ObjectNotFound`, and if none is missing the upstream error
      passes on. */
  lemma {:induction false} PrepareResults(store: map<Cid, StoredNode>, encode: Cid -> string,
                                          opts: ResolvedOptions, s: Emitted<ImportedNode>)
    ensures var r := PrepareStage(store, encode, opts, s);
      opts.onlyHash && s.items != [] ==>
        r.out == Emitted([ResultFor(encode, opts.wrapWithDirectory, s.items[0], s.items[0].fileSize)], None)
    ensures var r := PrepareStage(store, encode, opts, s);
      !opts.onlyHash ==>
        && |r.out.items| <= |s.items|
        && (forall i :: 0 <= i < |r.out.items| ==>
              && s.items[i].cid in store
              && r.out.items[i] == ResultFor(encode, opts.wrapWithDirectory, s.items[i], StoredSize(store[s.items[i].cid])))
    ensures var r := PrepareStage(store, encode, opts, s);
      !opts.onlyHash && |r.out.items| < |s.items| ==>
        && s.items[|r.out.items|].cid !in store
        && r.out.error == Some(ObjectNotFound(s.items[|r.out.items|].cid))
    ensures var r := PrepareStage(store, encode, opts, s);
      !opts.onlyHash && |r.out.items| == |s.items| ==> r.out.error == s.error
    decreases |s.items|
  {
    if s.items != [] && !opts.onlyHash && s.items[0].cid in store {
      var tail := Drop(s, 1);
      PrepareResults(store, encode, opts, tail);
      var r := PrepareStage(store, encode, opts, s);
      var rest := PrepareStage(store, encode, opts, tail);
      assert r.out.items == [r.out.items[0]] + rest.out.items;
      forall i | 0 < i < |r.out.items|
        ensures s.items[i].cid in store
        ensures r.out.items[i] == ResultFor(encode, opts.wrapWithDirectory, s.items[i], StoredSize(store[s.items[i].cid]))
      {
        assert r.out.items[i] == rest.out.items[i - 1];
        assert tail.items[i - 1] == s.items[i];
      }
      if |r.out.items| < |s.items| {
        assert tail.items[|rest.out.items|] == s.items[|r.out.items|];
      }
    }
  }

  /** One step of the `prepareFile` loop: if the stage's output is `items`
      followed by what it makes of the nodes from `i` on, and its calls are
      `done` followed by theirs, then node `i` either ends the stage or adds
      its result and its `object.get` call in front of the rest. */
  lemma PrepareStep(store: map<Cid, StoredNode>, encode: Cid -> string, opts: ResolvedOptions,
                    s: Emitted<ImportedNode>, i: nat, items: seq<ResultEntry>, done: seq<Call>, whole: Staged<ResultEntry>)
    requires i < |s.items|
    requires whole.out == After(items, PrepareStage(store, encode, opts, Drop(s, i)).out)
    requires whole.calls == done + PrepareStage(store, encode, opts, Drop(s, i)).calls
    ensures var node := s.items[i];
      opts.onlyHash ==> whole == Staged(Emitted(items + [ResultFor(encode, opts.wrapWithDirectory, node, node.fileSize)], None), done)
    ensures var node := s.items[i];
      !opts.onlyHash && node.cid !in store ==>
        whole == Staged(Emitted(items, Some(ObjectNotFound(node.cid))), done + [ObjectGet(node.cid, false)])
    ensures var node := s.items[i];
      var rest := PrepareStage(store, encode, opts, Drop(s, i + 1));
      !opts.onlyHash && node.cid in store ==>
        && whole.out == After(items + [ResultFor(encode, opts.wrapWithDirectory, node, StoredSize(store[node.cid]))], rest.out)
        && whole.calls == (done + [ObjectGet(node.cid, false)]) + rest.calls
  {
    var node := s.items[i];
    var rest := PrepareStage(store, encode, opts, Drop(s, i + 1));
    assert Drop(Drop(s, i), 1) == Drop(s, i + 1);
    if !opts.onlyHash && node.cid in store {
      var result := ResultFor(encode, opts.wrapWithDirectory, node, StoredSize(store[node.cid]));
      AppendAssoc(items, [result], rest.out.items);
      AppendAssoc(done, [ObjectGet(node.cid, false)], rest.calls);
    } else if !opts.onlyHash {
      assert items + [] == items;
    } else {
      assert done + [] == done;
    }
  }

  /** Without `onlyHash`, and when every node can be fetched, there is
      exactly one result per imported node, in order, and one `object.get`
      per node, each asking for no preload. */
  lemma PrepareOneToOne(store: map<Cid, StoredNode>, encode: Cid -> string, opts: ResolvedOptions,
                        s: Emitted<ImportedNode>)
    requires !opts.onlyHash
    requires forall i :: 0 <= i < |s.items| ==> s.items[i].cid in store
    ensures var r := PrepareStage(store, encode, opts, s);
      && |r.out.items| == |s.items| == |r.calls|
      && r.out.error == s.error
      && (forall i :: 0 <= i < |s.items| ==>
            && r.out.items[i].hash == encode(s.items[i].cid)
            && r.out.items[i].path == ResultPath(s.items[i], encode(s.items[i].cid), opts.wrapWithDirectory)
            && r.out.items[i].size == StoredSize(store[s.items[i].cid])
            && r.calls[i] == ObjectGet(s.items[i].cid, false))
  {
    PrepareFetches(store, encode, opts, s);
    PrepareResults(store, encode, opts, s);
  }

  /** The requested CID version never changes what the stage yields or
      calls: the hash is taken from the importer's CID before any upgrade. */
  lemma {:induction false} PrepareIgnoresCidVersion(store: map<Cid, StoredNode>, encode: Cid -> string,
                                                    opts: ResolvedOptions, s: Emitted<ImportedNode>, v: Option<nat>)
    ensures PrepareStage(store, encode, opts.(cidVersion := v), s) == PrepareStage(store, encode, opts, s)
    decreases |s.items|
  {
    if s.items != [] {
      PrepareIgnoresCidVersion(store, encode, opts, Drop(s, 1), v);
    }
  }
}
