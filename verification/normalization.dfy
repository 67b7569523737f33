/** The first stages of the add pipeline: wrapping a lone buffer or string
    into a one-item source, `validateInput` and `normalizeInput` (with
    `normalizeContent`). */
module Normalization {
  import opened AddValues

  /** The shapes of source the pipeline can iterate. */
  predicate CanIterate(source: Value) {
    source.Buffer? || source.Text? || source.Array? || source.Iterable?
  }

  /** The source as the pipeline iterates it: a Buffer or a string becomes a
      one-item array; arrays and other iterables are iterated as they are,
      and an iterable that throws ends the stream with its error; anything
      else cannot be iterated and the add fails. */
  function WrapSource(source: Value): (r: Emitted<Value>)
    ensures source.Buffer? || source.Text? ==> r == Emitted([source], None)
    ensures source.Array? || source.Iterable? ==> r.items == source.elements
    ensures r.error == Some(NotIterable) <==> !CanIterate(source)
    ensures r.error == Some(SourceFailed) <==> source.Iterable? && source.rejects
    ensures r.error.Some? ==> r.error == Some(NotIterable) || r.error == Some(SourceFailed)
    ensures !CanIterate(source) ==> r.items == []
  {
    match source
    case Buffer(_) => Emitted([source], None)
    case Text(_) => Emitted([source], None)
    case Array(elements) => Emitted(elements, None)
    case Iterable(elements, rejects) => Emitted(elements, if rejects then Some(SourceFailed) else None)
    case _ => Emitted([], Some(NotIterable))
  }

  /** `validateInput`: every item is checked by `valid` (standing for
      `validateAddInput`) before it is passed on; the first invalid item
      ends the stream with an error. */
  function ValidateStage(valid: Value -> bool, s: Emitted<Value>): (r: Emitted<Value>)
    ensures |r.items| <= |s.items| && r.items == s.items[..|r.items|]
    ensures forall i :: 0 <= i < |r.items| ==> valid(r.items[i])
    ensures |r.items| < |s.items| ==> !valid(s.items[|r.items|]) && r.error == Some(InvalidInput)
    ensures |r.items| == |s.items| ==> r.error == s.error
    decreases |s.items|
  {
    if s.items == [] then s
    else if !valid(s.items[0]) then Emitted([], Some(InvalidInput))
    else After([s.items[0]], ValidateStage(valid, Drop(s, 1)))
  }

  /** The `for await` loop of `validateInput`. */
  method ValidateInput(valid: Value -> bool, s: Emitted<Value>) returns (r: Emitted<Value>)
    ensures r == ValidateStage(valid, s)
  {
    var items: seq<Value> := [];
    var i := 0;
    assert Drop(s, 0) == s;
    assert ValidateStage(valid, s).items == [] + ValidateStage(valid, s).items;
    while i < |s.items|
      invariant 0 <= i <= |s.items|
      invariant ValidateStage(valid, s) == After(items, ValidateStage(valid, Drop(s, i)))
    {
      var data := s.items[i];
      if !valid(data) {
        assert items + [] == items;
        return Emitted(items, Some(InvalidInput));
      }
      assert Drop(Drop(s, i), 1) == Drop(s, i + 1);
      ghost var rest := ValidateStage(valid, Drop(s, i + 1));
      assert Drop(s, i).items[0] == s.items[i];
      assert ValidateStage(valid, Drop(s, i)) == After([data], rest);
      AppendAssoc(items, [data], rest.items);
      items := items + [data];
      i := i + 1;
      assert rest == ValidateStage(valid, Drop(s, i));
    }
    assert Drop(s, i).items == [];
    assert items + [] == items;
    r := Emitted(items, s.error);
  }

  /** A non-empty array whose first element is not itself an array: a flat
      list of chunks of one file. */
  predicate FlatChunks(v: Value) {
    v.Array? && |v.elements| > 0 && !v.elements[0].Array?
  }

  /** The shapes `normalizeContent` converts; every other value passes unchanged. */
  predicate NeedsConversion(fileReader: bool, v: Value) {
    (fileReader && v.FileHandle?) || v.PullSource? || v.Text? || FlatChunks(v)
  }

  /** `normalizeContent`, its checks in the source's order. `fileReader`
      stands for the platform flag `supportsFileReader`. */
  function NormalizeContent(fileReader: bool, c: Value): (r: Content)
    ensures fileReader && c.FileHandle? ==> r == ReaderStream(c.name)
    ensures c.PullSource? ==> r == PullIterator(c.source)
    ensures c.Text? ==> r == TextBytes(c.text)
    ensures FlatChunks(c) ==> r == AsIs(Array([c]))
    ensures !NeedsConversion(fileReader, c) ==> r == AsIs(c)
    ensures r.AsIs? ==> !NeedsConversion(fileReader, r.value)
  {
    if fileReader && c.FileHandle? then ReaderStream(c.name)
    else if c.PullSource? then PullIterator(c.source)
    else if c.Text? then TextBytes(c.text)
    else if c.Array? && |c.elements| > 0 && !c.elements[0].Array? then AsIs(Array([c]))
    else AsIs(c)
  }

  /** Whether an item carries a truthy `content` key (`if (data.content)`). */
  predicate HasContent(data: Value) {
    data.Record? && data.content.Some? && Truthy(data.content.value)
  }

  /** One item of `normalizeInput`: a record with content keeps its path and
      gets its content normalized; anything else becomes the content of an
      entry with the empty path. */
  function NormalizeItem(fileReader: bool, data: Value): (e: Entry)
    ensures HasContent(data) ==> e.path == data.path && e.content == NormalizeContent(fileReader, data.content.value)
    ensures !HasContent(data) ==> e.path == Some("") && e.content == NormalizeContent(fileReader, data)
    ensures e.content.AsIs? ==> !NeedsConversion(fileReader, e.content.value)
  {
    if HasContent(data) then Entry(data.path, NormalizeContent(fileReader, data.content.value))
    else Entry(Some(""), NormalizeContent(fileReader, data))
  }

  /** `normalizeInput`: each item normalized in order; with
      `wrapWithDirectory`, the first entry without a path ends the stream
      with the "must provide a path" error and is not passed on. */
  function NormalizeStage(fileReader: bool, wrap: bool, s: Emitted<Value>): (r: Emitted<Entry>)
    ensures |r.items| <= |s.items|
    ensures wrap ==> forall i :: 0 <= i < |r.items| ==> HasText(r.items[i].path)
    ensures |r.items| < |s.items| ==>
      && wrap
      && !HasText(NormalizeItem(fileReader, s.items[|r.items|]).path)
      && r.error == Some(PathRequired)
    ensures |r.items| == |s.items| ==> r.error == s.error
    decreases |s.items|
  {
    if s.items == [] then Emitted([], s.error)
    else
      var entry := NormalizeItem(fileReader, s.items[0]);
      if wrap && !HasText(entry.path) then Emitted([], Some(PathRequired))
      else After([entry], NormalizeStage(fileReader, wrap, Drop(s, 1)))
  }

  /** Each entry passed on is the normalization of the item at the same
      position: nothing is dropped, reordered or added before the stream ends. */
  lemma {:induction false} NormalizedInOrder(fileReader: bool, wrap: bool, s: Emitted<Value>)
    ensures var r := NormalizeStage(fileReader, wrap, s);
      forall i :: 0 <= i < |r.items| ==> r.items[i] == NormalizeItem(fileReader, s.items[i])
    decreases |s.items|
  {
    var r := NormalizeStage(fileReader, wrap, s);
    if r.items != [] {
      var tail := Drop(s, 1);
      NormalizedInOrder(fileReader, wrap, tail);
      var rest := NormalizeStage(fileReader, wrap, tail);
      assert r.items == [NormalizeItem(fileReader, s.items[0])] + rest.items;
      forall i | 0 < i < |r.items|
        ensures r.items[i] == NormalizeItem(fileReader, s.items[i])
      {
        assert r.items[i] == rest.items[i - 1];
        assert tail.items[i - 1] == s.items[i];
      }
    }
  }

  /** With `wrapWithDirectory`, the first item that normalizes to an entry
      without a path raises the error: exactly the items before it are
      passed on, and nothing at or after it. */
  lemma FirstPathlessAborts(fileReader: bool, s: Emitted<Value>, k: nat)
    requires k < |s.items|
    requires !HasText(NormalizeItem(fileReader, s.items[k]).path)
    requires forall j :: 0 <= j < k ==> HasText(NormalizeItem(fileReader, s.items[j]).path)
    ensures NormalizeStage(fileReader, true, s).items == seq(k, j requires 0 <= j < k => NormalizeItem(fileReader, s.items[j]))
    ensures NormalizeStage(fileReader, true, s).error == Some(PathRequired)
  {
    NormalizedInOrder(fileReader, true, s);
  }

  /** `normalizeContent` as it is written: with FileReader support its first
      check calls `kindOf`, a name the module never defines, so every call
      throws (`None`) before any branch is taken. Without FileReader support
      it is `NormalizeContent`. */
  function NormalizeContentAsWritten(fileReader: bool, c: Value): (r: Option<Content>)
    ensures r.None? <==> fileReader
    ensures r.Some? ==> r.value == NormalizeContent(fileReader, c)
  {
    if fileReader then None else Some(NormalizeContent(false, c))
  }

  /** `normalizeInput` over `NormalizeContentAsWritten`: the item's content
      is normalized first, and a throw ends the stream with `ReferenceError`. */
  function NormalizeStageAsWritten(fileReader: bool, wrap: bool, s: Emitted<Value>): (r: Emitted<Entry>)
    ensures |r.items| <= |s.items|
    ensures fileReader && s.items != [] ==> r == Emitted([], Some(ReferenceError))
    decreases |s.items|
  {
    if s.items == [] then Emitted([], s.error)
    else
      var data := s.items[0];
      match NormalizeContentAsWritten(fileReader, if HasContent(data) then data.content.value else data)
      case None => Emitted([], Some(ReferenceError))
      case Some(content) =>
        var entry := Entry(if HasContent(data) then data.path else Some(""), content);
        if wrap && !HasText(entry.path) then Emitted([], Some(PathRequired))
        else After([entry], NormalizeStageAsWritten(fileReader, wrap, Drop(s, 1)))
  }

  /** Without FileReader support the code as written is `NormalizeStage`. */
  lemma {:induction false} AsWrittenWithoutFileReader(wrap: bool, s: Emitted<Value>)
    ensures NormalizeStageAsWritten(false, wrap, s) == NormalizeStage(false, wrap, s)
    decreases |s.items|
  {
    if s.items != [] {
      AsWrittenWithoutFileReader(wrap, Drop(s, 1));
    }
  }

  /** With FileReader support the code as written passes on no entry at
      all, where `NormalizeStage` without wrapping passes on every item:
      a single string source already shows the difference. */
  lemma FileReaderDropsEveryItem(s: Emitted<Value>)
    requires s.items != []
    ensures NormalizeStageAsWritten(true, false, s) == Emitted([], Some(ReferenceError))
    ensures |NormalizeStage(true, false, s).items| == |s.items| > 0
    ensures NormalizeStage(true, false, Emitted([Text("x")], None)) == Emitted([Entry(Some(""), TextBytes("x"))], None)
  {
    var one := Emitted([Text("x")], None);
    assert Drop(one, 1) == Emitted([], None);
  }

  /** The `for await` loop of `normalizeInput`. */
  method NormalizeInput(fileReader: bool, wrap: bool, s: Emitted<Value>) returns (r: Emitted<Entry>)
    ensures r == NormalizeStage(fileReader, wrap, s)
  {
    var items: seq<Entry> := [];
    var i := 0;
    assert Drop(s, 0) == s;
    assert NormalizeStage(fileReader, wrap, s).items == [] + NormalizeStage(fileReader, wrap, s).items;
    while i < |s.items|
      invariant 0 <= i <= |s.items|
      invariant NormalizeStage(fileReader, wrap, s) == After(items, NormalizeStage(fileReader, wrap, Drop(s, i)))
    {
      var data := NormalizeItem(fileReader, s.items[i]);
      if wrap && !HasText(data.path) {
        assert items + [] == items;
        return Emitted(items, Some(PathRequired));
      }
      assert Drop(Drop(s, i), 1) == Drop(s, i + 1);
      ghost var rest := NormalizeStage(fileReader, wrap, Drop(s, i + 1));
      assert Drop(s, i).items[0] == s.items[i];
      assert NormalizeStage(fileReader, wrap, Drop(s, i)) == After([data], rest);
      AppendAssoc(items, [data], rest.items);
      items := items + [data];
      i := i + 1;
      assert rest == NormalizeStage(fileReader, wrap, Drop(s, i));
    }
    assert Drop(s, i).items == [];
    assert items + [] == items;
    r := Emitted(items, s.error);
  }
}
