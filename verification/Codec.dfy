/** The binary form of a chunk: printer and parser, each spelt out on its own, agree. */
module Codec {
  import opened Wire
  import opened Records
  import opened Printing
  import opened Parsing
  import opened Fitting
  import opened RoundTrip
  import opened Stable
  import Reading
  import Writing

  // ----- what comes back fits only if what was printed does

  lemma {:induction false} LowerSize(keys: set<Bytes>)
    requires forall j, k :: j in keys && k in keys && Lower(j) == Lower(k) ==> j == k
    ensures |set k | k in keys :: Lower(k)| == |keys|
  {
    hide Lower;
    if keys != {} {
      var k :| k in keys;
      LowerSize(keys - {k});
      assert (set j | j in keys :: Lower(j)) == (set j | j in keys - {k} :: Lower(j)) + {Lower(k)};
    } else {
      assert (set k | k in keys :: Lower(k)) == {};
    }
  }

  lemma LowerMapFits(m: map<Bytes, seq<Int64>>)
    requires Distinct(m) && FitsMap(LowerKeys(m), FitsLongs)
    ensures FitsMap(m, FitsLongs)
  {
    LowerSize(m.Keys);
    assert LowerKeys(m).Keys == set k | k in m.Keys :: Lower(k);
    forall k | k in m ensures FitsString(k) && FitsLongs(m[k]) { assert Lower(k) in LowerKeys(m); }
  }

  lemma FunctionReadFits(f: FunctionInfo)
    requires FitsFunction(FunctionRead(f))
    ensures FitsFunction(f)
  {
    hide Lower, FitsDecorators, FitsDecoratorLists;
    var low := LowerAll(f.paramNames);
    forall s | s in f.paramNames ensures FitsString(s) {
      var i :| 0 <= i < |f.paramNames| && f.paramNames[i] == s;
      assert low[i] in low;
    }
  }

  lemma ClassReadFits(c: ClassInfo)
    requires ClashFreeClass(c) && FitsClass(ClassRead(c)) && |c.fieldNames| <= |c.fieldDefaults|
    ensures FitsClass(c)
  {
    hide FitsDecorators, FitsDecoratorLists, FitsDecoratorMap, FitsStrings, FitsField, LowerKeys, Distinct, Lower;
    LowerMapFits(c.methods);
    LowerMapFits(c.staticMethods);
    assert Rows(ClassRead(c)) == Rows(c);
  }

  lemma InterfaceReadFits(i: InterfaceInfo)
    requires FitsInterface(InterfaceRead(i))
    ensures FitsInterface(i)
  {
    hide FitsFunctionMetadata, FitsStrings;
    assert InterfaceRows(InterfaceRead(i)) == InterfaceRows(i);
  }

  /** Something is refused if any of the items is. */
  lemma {:induction false} AllOk<T>(append: Appender<T>, out: Bytes, xs: seq<T>, i: nat)
    requires i < |xs| && AppendAll(append, out, xs).Ok?
    ensures exists before :: append(before, xs[i]).Ok?
    decreases |xs|
  {
    if i < |xs| - 1 {
      AllOk(append, out, xs[..|xs| - 1], i);
    } else {
      var before := AppendAll(append, out, xs[..|xs| - 1]).value;
      assert append(before, xs[i]).Ok?;
    }
  }

  lemma ClassesWhole(order: Order, c: Chunk)
    requires PrintedChunk(order, c).Ok?
    ensures forall i :: 0 <= i < |c.classes| ==> |c.classes[i].fieldNames| <= |c.classes[i].fieldDefaults|
  {
    var out := AppendChunkHead([], c);
    var out1 := AppendAll(ConstantAppender(order), AppendWord(out, 4, |c.constants|), c.constants).value;
    var out2 := AppendEach(AppendInstruction, AppendWord(out1, 4, |c.instructions|), c.instructions);
    var out3 := AppendAll(FunctionAppender(order), AppendWord(out2, 4, |c.functions|), c.functions).value;
    forall i | 0 <= i < |c.classes| ensures |c.classes[i].fieldNames| <= |c.classes[i].fieldDefaults| {
      AllOk(ClassAppender(order), AppendWord(out3, 4, |c.classes|), c.classes, i);
    }
  }

  lemma ChunkReadFits(order: Order, c: Chunk)
    requires ClashFree(c) && FitsChunk(ChunkRead(c)) && PrintedChunk(order, c).Ok?
    ensures FitsChunk(c)
  {
    hide FitsConstant, FitsInstruction, FitsFunction, FitsClass, FitsInterface, FitsExport, FitsEmbed, FitsMap,
        FitsString,
         FunctionRead, ClassRead, InterfaceRead, ClashFreeClass, PrintedChunk;
    var r := ChunkRead(c);
    ClassesWhole(order, c);
    forall i | 0 <= i < |c.functions| ensures FitsFunction(c.functions[i]) {
      assert r.functions[i] in r.functions;
      FunctionReadFits(c.functions[i]);
    }
    forall i | 0 <= i < |c.classes| ensures FitsClass(c.classes[i]) {
      assert r.classes[i] in r.classes;
      ClassReadFits(c.classes[i]);
    }
    forall i | 0 <= i < |c.interfaces| ensures FitsInterface(c.interfaces[i]) {
      assert r.interfaces[i] in r.interfaces;
      InterfaceReadFits(c.interfaces[i]);
    }
  }

  // ----- the main results

  /** The main result on the binary form: in whatever order its maps are printed, a chunk is
      printed and comes back, with match names in lower case and lists about fields filled up,
      if and only if it has no value that cannot be printed and every length, count and line
      fits its width. */
  lemma Exact(order: Order, c: Chunk)
    requires ClashFree(c)
    ensures PrintedChunk(order, c).Ok? && Parse(PrintedChunk(order, c).value) == Ok(ChunkRead(c)) <==> FitsChunk(c)
  {
    hide FitsChunk, PrintedChunk, ClashFree, ChunkRead, ReadChunk;
    if FitsChunk(c) {
      ChunkBack(order, c, []);
      var file := PrintedChunk(order, c).value;
      ChunkBack(order, c, file);
      assert Begins(file, file);
    } else if PrintedChunk(order, c).Ok? && Parse(PrintedChunk(order, c).value) == Ok(ChunkRead(c)) {
      ChunkStays(PrintedChunk(order, c).value, []);
      ChunkReadFits(order, c);
      assert false;
    }
  }

  /** No file of a chunk that fits can be cut short or added to and still be read. */
  lemma Whole(order: Order, c: Chunk, part: Bytes, more: Bytes)
    requires ClashFree(c) && FitsChunk(c)
    ensures PrintedChunk(order, c).Ok?
    ensures part < PrintedChunk(order, c).value ==> Parse(part) == Bad
    ensures more != [] ==> Parse(PrintedChunk(order, c).value + more) == Bad
  {
    hide FitsChunk, PrintedChunk, ClashFree, ChunkRead, ReadChunk;
    ChunkBack(order, c, []);
    var file := PrintedChunk(order, c).value;
    ChunkBack(order, c, file + more);
    assert Begins(file, file + more);
    if part < file && Parse(part).Ok? {
      ChunkBack(order, c, file);
      assert Begins(file, file);
      assert part + file[|part|..] == file;
      ChunkStays(part, file[|part|..]);
    }
  }

  /** Whatever file is read, however it came about: its content fits, and a file printed from it
      is read as the same content. */
  lemma ReadAgain(order: Order, data: Bytes)
    requires Parse(data).Ok?
    ensures
      var c := Parse(data).value;
      Settled(c) && PrintedChunk(order, c).Ok? && Parse(PrintedChunk(order, c).value) == Ok(c)
  {
    hide FitsChunk, PrintedChunk, ClashFree, ChunkRead, ReadChunk;
    ChunkStays(data, []);
    assert data + [] == data;
    Exact(order, Parse(data).value);
  }

  /** Written and read, by the printer and the reader as they run. */
  method WriteAndRead(c: Chunk, order: Order) returns (back: Result<Chunk>)
    requires ClashFree(c)
    ensures back == Ok(ChunkRead(c)) <==> FitsChunk(c)
  {
    hide FitsChunk, PrintedChunk, ClashFree, ChunkRead, Parse;
    Exact(order, c);
    var file := Writing.Encode(c, order);
    if file.Bad? { return Bad; }
    back := Reading.Decode(file.value);
  }

  // ----- method names that differ by case only

  /** Names that come to the same in lower case have the same methods. */
  predicate Compatible<V(==)>(m: map<Bytes, V>) {
    forall j, k :: j in m && k in m && Lower(j) == Lower(k) ==> m[j] == m[k]
  }

  lemma SameRead<V>(m: map<Bytes, V>, a: seq<(Bytes, V)>, b: seq<(Bytes, V)>, k: Bytes)
    requires Compatible(m) && IsListing(a, m) && IsListing(b, m) && k in Inserted(LowerEntries(a))
    ensures k in Inserted(LowerEntries(b)) && Inserted(LowerEntries(b))[k] == Inserted(LowerEntries(a))[k]
  {
    hide Lower, Inserted, LowerEntries;
    var low := LowerEntries(a);
    InsertedIs(low);
    var i :| 0 <= i < |low| && low[i] == (k, Inserted(low)[k]);
    assert (a[i].0, m[a[i].0]) in b;
    var j :| 0 <= j < |b| && b[j] == a[i];
    InsertedIs(LowerEntries(b));
    assert LowerEntries(b)[j].0 == k;
    var l :| 0 <= l < |b| && LowerEntries(b)[l] == (k, Inserted(LowerEntries(b))[k]);
    assert m[b[l].0] == m[a[i].0];
  }

  lemma LastWins<V>(es: seq<(Bytes, V)>)
    requires es != []
    ensures es[|es| - 1].0 in Inserted(es) && Inserted(es)[es[|es| - 1].0] == es[|es| - 1].1
  {}

  lemma KeysListed<V>(keys: seq<Bytes>, m: map<Bytes, V>) returns (es: seq<(Bytes, V)>)
    requires |keys| == |m| && forall k :: k in m <==> k in keys
    ensures IsListing(es, m) && |es| == |keys| && forall i :: 0 <= i < |es| ==> es[i].0 == keys[i]
  {
    hide Lower, Inserted;
    assert forall i :: 0 <= i < |keys| ==> keys[i] in keys;
    es := seq(|keys|, i requires 0 <= i < |keys| => (keys[i], m[keys[i]]));
    Listed(keys, m, es);
  }

  /** Some listing of the map that ends with this key. */
  lemma LastEntry<V>(m: map<Bytes, V>, k: Bytes) returns (es: seq<(Bytes, V)>)
    requires k in m
    ensures IsListing(es, m) && Lower(k) in Inserted(LowerEntries(es)) && Inserted(LowerEntries(es))[Lower(k)] == m[k]
  {
    hide Lower, Inserted, LowerEntries, SomeOrder;
    var keys := SomeOrder(m.Keys - {k}) + [k];
    assert |m.Keys| == |m.Keys - {k}| + 1;
    es := KeysListed(keys, m);
    LastWins(LowerEntries(es));
  }

  /** Every order of printing gives the same table if and only if names that are the same in lower
      case have the same methods. */
  lemma OrderFree<V(!new)>(m: map<Bytes, V>)
    ensures (forall a, b :: IsListing(a, m) && IsListing(b, m) ==>
        Inserted(LowerEntries(a)) == Inserted(LowerEntries(b)))
            <==> Compatible(m)
  {
    hide Lower, Inserted, IsListing;
    if Compatible(m) {
      forall a, b | IsListing(a, m) && IsListing(b, m) ensures Inserted(LowerEntries(a)) == Inserted(LowerEntries(b)) {
        forall k ensures k in Inserted(LowerEntries(a)) <==> k in Inserted(LowerEntries(b)) {
          if k in Inserted(LowerEntries(a)) { SameRead(m, a, b, k); }
          if k in Inserted(LowerEntries(b)) { SameRead(m, b, a, k); }
        }
        forall k | k in Inserted(LowerEntries(a)) ensures Inserted(LowerEntries(a))[k] == Inserted(LowerEntries(b))[k] {
          SameRead(m, a, b, k);
        }
      }
    } else {
      var j, k :| j in m && k in m && Lower(j) == Lower(k) && m[j] != m[k];
      var a := LastEntry(m, j);
      var b := LastEntry(m, k);
      assert Inserted(LowerEntries(a))[Lower(j)] != Inserted(LowerEntries(b))[Lower(j)];
    }
  }

  /** So the order can matter. */
  lemma CaseClash()
    ensures
      var m: map<Bytes, int> := map[[77] := 1, [109] := 2];
      var a: seq<(Bytes, int)>, b: seq<(Bytes, int)> := [([77], 1), ([109], 2)], [([109], 2), ([77], 1)];
      && IsListing(a, m) && IsListing(b, m) && !Compatible(m)
      && Inserted(LowerEntries(a)) == map[[109] := 2] && Inserted(LowerEntries(b)) == map[[109] := 1]
  {
    var big, small: Bytes := [77], [109];
    assert Lower(big) == small && Lower(small) == small;
    TwoEntries(big, 1, small, 2);
    TwoEntries(small, 2, big, 1);
    var m: map<Bytes, int> := map[big := 1, small := 2];
    assert |m| == 2;
    assert big in m && small in m && m[big] != m[small];
    var a: seq<(Bytes, int)>, b: seq<(Bytes, int)> := [(big, 1), (small, 2)], [(small, 2), (big, 1)];
    assert a[0] in a && a[1] in a && b[0] in b && b[1] in b;
  }

  lemma TwoEntries(j: Bytes, n: int, k: Bytes, p: int)
    requires Lower(j) == Lower(k)
    ensures Inserted(LowerEntries([(j, n), (k, p)])) == map[Lower(k) := p]
  {
    hide Lower;
    var es := LowerEntries([(j, n), (k, p)]);
    var first := es[..1];
    var none := first[..0];
    assert first == [(Lower(j), n)] && |none| == 0;
    assert Inserted(none) == map[] && Inserted(first) == map[Lower(j) := n];
  }
}
