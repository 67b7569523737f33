/** `preloadFile` and `pinFile`: two pass-through stages that decide, per
    result, whether to call `_preload` and whether to call `pin.add`. */
module Policies {
  import opened AddValues

  /** `isRootFile`, written with the source's precedence
      `(!path || wrap) ? path === '' : !path.includes('/')`. It reduces to:
      under wrapping only the empty path is a root; otherwise a path is a
      root when it has no separator (the empty path included). */
  function IsRootFile(path: string, wrap: bool): (root: bool)
    ensures wrap ==> (root <==> path == "")
    ensures !wrap ==> (root <==> '/' !in path)
  {
    if path == "" || wrap then path == "" else '/' !in path
  }

  /** `shouldPreload`. */
  predicate ShouldPreload(opts: ResolvedOptions, file: ResultEntry) {
    IsRootFile(file.path, opts.wrapWithDirectory) && !opts.onlyHash && opts.preload != Some(false)
  }

  /** `'pin' in opts ? opts.pin : true`. */
  predicate PinRequested(opts: ResolvedOptions) {
    match opts.pin
    case Some(b) => b
    case None => true
  }

  /** `shouldPin`; note that it does not look at `wrapWithDirectory`. */
  predicate ShouldPin(opts: ResolvedOptions, file: ResultEntry) {
    PinRequested(opts) && '/' !in file.path && !opts.onlyHash && !HasText(opts.hashAlg)
  }

  /** `preloadFile`: every result passes through unchanged; `_preload` is
      called for the ones `ShouldPreload` selects. */
  function PreloadStage(opts: ResolvedOptions, s: Emitted<ResultEntry>): (r: Staged<ResultEntry>)
    ensures r.out == s
    ensures |r.calls| <= |s.items|
    ensures forall i :: 0 <= i < |r.calls| ==> r.calls[i].Preload?
    ensures opts.onlyHash || opts.preload == Some(false) ==> r.calls == []
    decreases |s.items|
  {
    if s.items == [] then Staged(s, [])
    else
      var file := s.items[0];
      var rest := PreloadStage(opts, Drop(s, 1));
      var call := if ShouldPreload(opts, file) then [Preload(file.hash)] else [];
      Staged(After([file], rest.out), call + rest.calls)
  }

  /** One step of `PreloadStage`, at item `i`. */
  lemma PreloadStep(opts: ResolvedOptions, s: Emitted<ResultEntry>, i: nat)
    requires i < |s.items|
    ensures PreloadStage(opts, Drop(s, i)).calls ==
      (if ShouldPreload(opts, s.items[i]) then [Preload(s.items[i].hash)] else []) + PreloadStage(opts, Drop(s, i + 1)).calls
  {
    assert Drop(Drop(s, i), 1) == Drop(s, i + 1);
  }

  /** `_preload(h)` is called iff some result with hash `h` is a root, the
      add is not `onlyHash` and preloading is not switched off. */
  lemma {:induction false} PreloadCalledIff(opts: ResolvedOptions, s: Emitted<ResultEntry>, h: string)
    ensures Preload(h) in PreloadStage(opts, s).calls <==>
      exists i :: 0 <= i < |s.items| && s.items[i].hash == h && ShouldPreload(opts, s.items[i])
    decreases |s.items|
  {
    if s.items != [] {
      var tail := Drop(s, 1);
      PreloadCalledIff(opts, tail, h);
      if exists i :: 0 <= i < |s.items| && s.items[i].hash == h && ShouldPreload(opts, s.items[i]) {
        var i :| 0 <= i < |s.items| && s.items[i].hash == h && ShouldPreload(opts, s.items[i]);
        if i > 0 {
          assert tail.items[i - 1] == s.items[i];
        }
      }
      if exists i :: 0 <= i < |tail.items| && tail.items[i].hash == h && ShouldPreload(opts, tail.items[i]) {
        var i :| 0 <= i < |tail.items| && tail.items[i].hash == h && ShouldPreload(opts, tail.items[i]);
        assert s.items[i + 1] == tail.items[i];
      }
    }
  }

  /** `pinFile`. `refused` holds the hashes for which `pin.add` throws; the
      first such pin ends the stream with that error (`PinPassesPrefix`). */
  function PinStage(refused: set<string>, opts: ResolvedOptions, s: Emitted<ResultEntry>): (r: Staged<ResultEntry>)
    ensures |r.out.items| <= |s.items| && |r.calls| <= |s.items|
    ensures forall i :: 0 <= i < |r.calls| ==> r.calls[i].PinAdd? && !r.calls[i].preload
    ensures opts.onlyHash || HasText(opts.hashAlg) ==> r.calls == []
    decreases |s.items|
  {
    if s.items == [] then Staged(s, [])
    else
      var file := s.items[0];
      if ShouldPin(opts, file) then
        if file.hash in refused then Staged(Emitted([], Some(PinFailed(file.hash))), [PinAdd(file.hash, false)])
        else
          var rest := PinStage(refused, opts, Drop(s, 1));
          Staged(After([file], rest.out), [PinAdd(file.hash, false)] + rest.calls)
      else
        var rest := PinStage(refused, opts, Drop(s, 1));
        Staged(After([file], rest.out), rest.calls)
  }

  /** The results pass through unchanged and in order, up to the first one
      whose pin is refused; that one ends the stream with `PinFailed`, and if
      there is none the upstream error passes on. */
  lemma {:induction false} PinPassesPrefix(refused: set<string>, opts: ResolvedOptions, s: Emitted<ResultEntry>)
    ensures var r := PinStage(refused, opts, s);
      && |r.out.items| <= |s.items| && r.out.items == s.items[..|r.out.items|]
      && (|r.out.items| == |s.items| ==> r.out.error == s.error)
      && (|r.out.items| < |s.items| ==>
            var file := s.items[|r.out.items|];
            ShouldPin(opts, file) && file.hash in refused && r.out.error == Some(PinFailed(file.hash)))
    decreases |s.items|
  {
    if s.items != [] {
      var file := s.items[0];
      var tail := Drop(s, 1);
      PinPassesPrefix(refused, opts, tail);
      var r := PinStage(refused, opts, s);
      var rest := PinStage(refused, opts, tail);
      if !(ShouldPin(opts, file) && file.hash in refused) {
        assert r.out.items == [file] + rest.out.items;
        assert s.items[..|r.out.items|] == [file] + tail.items[..|rest.out.items|];
        if |r.out.items| < |s.items| {
          assert s.items[|r.out.items|] == tail.items[|rest.out.items|];
        }
      }
    }
  }

  /** One step of the `pinFile` loop: if the stage's output is `items`
      followed by what it makes of the results from `i` on, and its calls are
      `done` followed by theirs, then result `i` is pinned when `ShouldPin`
      selects it, and either ends the stage (a refused pin) or passes on. */
  lemma PinStep(refused: set<string>, opts: ResolvedOptions, s: Emitted<ResultEntry>, i: nat,
                items: seq<ResultEntry>, done: seq<Call>, whole: Staged<ResultEntry>)
    requires i < |s.items|
    requires whole.out == After(items, PinStage(refused, opts, Drop(s, i)).out)
    requires whole.calls == done + PinStage(refused, opts, Drop(s, i)).calls
    ensures var file := s.items[i];
      ShouldPin(opts, file) && file.hash in refused ==>
        whole == Staged(Emitted(items, Some(PinFailed(file.hash))), done + [PinAdd(file.hash, false)])
    ensures var file := s.items[i];
      var rest := PinStage(refused, opts, Drop(s, i + 1));
      ShouldPin(opts, file) && file.hash !in refused ==>
        && whole.out == After(items + [file], rest.out)
        && whole.calls == (done + [PinAdd(file.hash, false)]) + rest.calls
    ensures var file := s.items[i];
      var rest := PinStage(refused, opts, Drop(s, i + 1));
      !ShouldPin(opts, file) ==>
        && whole.out == After(items + [file], rest.out)
        && whole.calls == done + rest.calls
  {
    var file := s.items[i];
    var rest := PinStage(refused, opts, Drop(s, i + 1));
    assert Drop(Drop(s, i), 1) == Drop(s, i + 1);
    AppendAssoc(items, [file], rest.out.items);
    if ShouldPin(opts, file) {
      if file.hash in refused {
        assert items + [] == items;
      } else {
        AppendAssoc(done, [PinAdd(file.hash, false)], rest.calls);
      }
    }
  }

  /** `pinFile` does not look at `wrapWithDirectory`: under wrapping, every
      top-level entry (a path with no separator) is pinned as well as the
      wrapping directory. */
  lemma {:induction false} PinIgnoresWrap(refused: set<string>, opts: ResolvedOptions, s: Emitted<ResultEntry>, wrap: bool)
    ensures PinStage(refused, opts.(wrapWithDirectory := wrap), s) == PinStage(refused, opts, s)
    decreases |s.items|
  {
    if s.items != [] {
      PinIgnoresWrap(refused, opts, Drop(s, 1), wrap);
    }
  }

  /** `pin.add(h, {preload: false})` is called iff some result the stage
      reached (every one before a failed pin, and the failing one) has hash
      `h` and `ShouldPin` selects it. */
  lemma {:induction false} PinCalledIff(refused: set<string>, opts: ResolvedOptions, s: Emitted<ResultEntry>, h: string)
    ensures var r := PinStage(refused, opts, s);
      PinAdd(h, false) in r.calls <==>
        exists i :: 0 <= i < |s.items| && i <= |r.out.items| && s.items[i].hash == h && ShouldPin(opts, s.items[i])
    decreases |s.items|
  {
    var r := PinStage(refused, opts, s);
    if s.items != [] {
      var tail := Drop(s, 1);
      var rt := PinStage(refused, opts, tail);
      PinCalledIff(refused, opts, tail, h);
      var file := s.items[0];
      if ShouldPin(opts, file) && file.hash in refused {
        assert |r.out.items| == 0;
      } else {
        assert |r.out.items| == |rt.out.items| + 1;
        assert r.calls == (if ShouldPin(opts, file) then [PinAdd(file.hash, false)] else []) + rt.calls;
        if exists i :: 0 <= i < |s.items| && i <= |r.out.items| && s.items[i].hash == h && ShouldPin(opts, s.items[i]) {
          var i :| 0 <= i < |s.items| && i <= |r.out.items| && s.items[i].hash == h && ShouldPin(opts, s.items[i]);
          if i > 0 {
            assert tail.items[i - 1] == s.items[i];
          }
        }
        if exists i :: 0 <= i < |tail.items| && i <= |rt.out.items| && tail.items[i].hash == h && ShouldPin(opts, tail.items[i]) {
          var i :| 0 <= i < |tail.items| && i <= |rt.out.items| && tail.items[i].hash == h && ShouldPin(opts, tail.items[i]);
          assert s.items[i + 1] == tail.items[i];
        }
      }
    }
  }
}
