/** The printer as it runs: a buffer that grows in loops over the parts of the chunk. */
module Writing {
  import opened Wire
  import opened Records
  import opened Printing

  method Each<T>(append: (Bytes, T) -> Bytes, width: nat, before: Bytes, xs: seq<T>) returns (out: Bytes)
    ensures out == AppendEach(append, AppendWord(before, width, |xs|), xs)
  {
    out := AppendWord(before, width, |xs|);
    ghost var start := out;
    for i := 0 to |xs|
      invariant out == AppendEach(append, start, xs[..i])
    {
      out := append(out, xs[i]);
      assert xs[..i + 1][..i] == xs[..i];
    }
    assert xs[..|xs|] == xs;
  }

  method All<T>(append: Appender<T>, width: nat, before: Bytes, xs: seq<T>) returns (r: Result<Bytes>)
    ensures r == AppendAll(append, AppendWord(before, width, |xs|), xs)
  {
    var out := AppendWord(before, width, |xs|);
    ghost var start := out;
    for i := 0 to |xs|
      invariant AppendAll(append, start, xs[..i]) == Ok(out)
    {
      r := append(out, xs[i]);
      assert xs[..i + 1][..i] == xs[..i];
      if r.Bad? {
        Refused(append, start, xs, i + 1);
        return;
      }
      out := r.value;
    }
    assert xs[..|xs|] == xs;
    r := Ok(out);
  }

  /** One item that is refused is enough. */
  lemma {:induction false} Refused<T>(append: Appender<T>, out: Bytes, xs: seq<T>, n: nat)
    requires n <= |xs| && AppendAll(append, out, xs[..n]).Bad?
    ensures AppendAll(append, out, xs).Bad?
    decreases |xs|
  {
    if n < |xs| {
      assert xs[..|xs| - 1][..n] == xs[..n];
      Refused(append, out, xs[..|xs| - 1], n);
    } else {
      assert xs[..n] == xs;
    }
  }

  method EncodeHead(c: Chunk) returns (out: Bytes)
    ensures out == AppendChunkHead([], c)
  {
    hide AppendEach, AppendWord, AppendString, AppendLong;
    out := [];
    out := out + MAGIC;
    out := AppendWord(out, 2, VERSION);
    out := out + c.sourceHash;
    out := AppendString(out, c.compiler);
    out := AppendLong(out, c.topLevelLocalCount);
    out := AppendLong(out, c.globalCount);
    out := Each(AppendString, 4, out, c.globalNames);
  }

  method EncodeCode(before: Bytes, c: Chunk, order: Order) returns (r: Result<Bytes>)
    ensures r == AppendCode(order, before, c)
  {
    hide AppendEach, AppendAll, AppendWord;
    r := All(ConstantAppender(order), 4, before, c.constants);
    if r.Bad? { return; }
    var out := Each(AppendInstruction, 4, r.value, c.instructions);
    r := All(FunctionAppender(order), 4, out, c.functions);
    if r.Bad? { return; }
    r := All(ClassAppender(order), 4, r.value, c.classes);
    if r.Bad? { return; }
    r := All(InterfaceAppender(order), 4, r.value, c.interfaces);
  }

  method EncodeTail(before: Bytes, c: Chunk, order: Order) returns (out: Bytes)
    ensures out == AppendChunkTail(order, before, c)
  {
    hide AppendEach, AppendWord, AppendTable;
    out := Each(AppendExport, 2, before, c.exports);
    out := Each(AppendEmbed, 2, out, c.embeds);
    out := AppendTable(AppendNamedString, order, out, c.moduleAliases);
    out := AppendTable(AppendNamedString, order, out, c.fromImports);
    out := AppendTable(AppendNamedString, order, out, c.typeAliasDeps);
  }

  /** Encode: a chunk with a value that cannot be printed is refused; nothing else is checked. */
  method Encode(c: Chunk, order: Order) returns (file: Result<Bytes>)
    ensures file == PrintedChunk(order, c)
  {
    hide AppendChunkHead, AppendCode, AppendChunkTail;
    var out := EncodeHead(c);
    file := EncodeCode(out, c, order);
    if file.Bad? { return; }
    out := EncodeTail(file.value, c, order);
    file := Ok(out);
  }
}
