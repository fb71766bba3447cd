/** What the printer appended, the parser finds. */
module RoundTrip {
  import opened Wire
  import opened Records
  import opened Printing
  import opened Parsing
  import opened Fitting

  // ----- lists and maps

  lemma ListBack<T, U>(append: Appender<T>, read: Reader<U>, width: nat, out: Bytes, xs: seq<T>, ys: seq<U>,
          data: Bytes)
    requires |xs| == |ys| < Room(width)
    requires forall i :: 0 <= i < |xs| ==> Returns(append, read, xs[i], ys[i], data)
    ensures Back(AppendAll(append, AppendWord(out, width, |xs|), xs), ReadList(read, width, data, |out|), ys, out, data)
  {
    hide Begins, AppendWord, Word, AppendAll, ReadAll, Returns;
    var start := AppendWord(out, width, |xs|);
    AllBack(append, read, start, xs, ys, data);
    if Begins(start, data) { WordBack(out, width, |xs|, data); }
  }

  lemma EachListBack<T, U>(append: (Bytes, T) -> Bytes, read: Reader<U>, width: nat, out: Bytes, xs: seq<T>, ys: seq<U>,
                           data: Bytes)
    requires |xs| == |ys| < Room(width)
    requires forall i :: 0 <= i < |xs| ==> Undone(append, read, xs[i], ys[i], data)
    requires Begins(AppendEach(append, AppendWord(out, width, |xs|), xs), data)
    ensures Begins(out, data)
    ensures ReadList(read, width, data, |out|) ==
            Ok((ys, |AppendEach(append, AppendWord(out, width, |xs|), xs)|))
  {
    hide Begins, AppendWord, Word, AppendEach, ReadAll, Undone;
    EachBack(append, read, AppendWord(out, width, |xs|), xs, ys, data);
    WordBack(out, width, |xs|, data);
  }

  /** The entries are those of m. */
  ghost predicate IsListing<V>(es: seq<(Bytes, V)>, m: map<Bytes, V>) {
    && |es| == |m| && (forall i :: 0 <= i < |es| ==> es[i].0 in m && es[i].1 == m[es[i].0])
    && forall k :: k in m ==> (k, m[k]) in es
  }

  lemma {:induction false} InsertedIs<V>(es: seq<(Bytes, V)>)
    ensures forall i :: 0 <= i < |es| ==> es[i].0 in Inserted(es)
    ensures forall k :: k in Inserted(es) ==> (k, Inserted(es)[k]) in es
    decreases |es|
  {
    if es != [] {
      var rest, e := es[..|es| - 1], es[|es| - 1];
      InsertedIs(rest);
      assert es == rest + [e];
      forall k | k in Inserted(es) ensures (k, Inserted(es)[k]) in es {
        if k != e.0 { assert (k, Inserted(rest)[k]) in rest; }
      }
    }
  }

  /** In whatever order they were printed, the entries of a map give the map. */
  lemma ListingGives<V>(es: seq<(Bytes, V)>, m: map<Bytes, V>)
    requires IsListing(es, m)
    ensures Inserted(es) == m
  {
    InsertedIs(es);
    forall k ensures k in m <==> k in Inserted(es) {
      if k in m { assert (k, m[k]) in es; }
    }
  }

  lemma MapBack<V>(append: Appender<(Bytes, V)>, read: Reader<(Bytes, V)>, order: Order, data: Bytes, out: Bytes,
                   m: map<Bytes, V>)
    requires |m| < 0x1_0000
    requires forall k :: k in m ==> Returns(append, read, (k, m[k]), (k, m[k]), data)
    ensures Back(AppendMap(append, order, out, m), ReadTable(read, data, |out|), m, out, data)
  {
    hide Begins, AppendWord, AppendAll, ReadList, Returns, Inserted;
    Rooms();
    var es := Entries(order, AppendWord(out, 2, |m|), m);
    forall i | 0 <= i < |es| ensures Returns(append, read, es[i], es[i], data) {
      assert es[i] == (es[i].0, m[es[i].0]);
    }
    ListBack(append, read, 2, out, es, es, data);
    ListingGives(es, m);
  }

  lemma TableBack<V>(append: (Bytes, (Bytes, V)) -> Bytes, read: Reader<(Bytes, V)>, order: Order, data: Bytes,
          out: Bytes,
                     m: map<Bytes, V>)
    requires |m| < 0x1_0000
    requires forall k :: k in m ==> Undone(append, read, (k, m[k]), (k, m[k]), data)
    requires Begins(AppendTable(append, order, out, m), data)
    ensures Begins(out, data)
    ensures ReadTable(read, data, |out|) == Ok((m, |AppendTable(append, order, out, m)|))
  {
    hide Begins, AppendWord, AppendEach, ReadList, Undone, Inserted;
    Rooms();
    var es := Entries(order, AppendWord(out, 2, |m|), m);
    forall i | 0 <= i < |es| ensures Undone(append, read, es[i], es[i], data) { assert es[i] == (es[i].0, m[es[i].0]); }
    EachListBack(append, read, 2, out, es, es, data);
    ListingGives(es, m);
  }

  // ----- decorators

  lemma ScalarBack(out: Bytes, s: Scalar, data: Bytes)
    requires FitsScalar(s) && Begins(AppendScalar(out, s), data)
    ensures Begins(out, data) && Word(data, |out|, 1).Ok? && Word(data, |out|, 1).value.0 <= 5
    ensures ReadScalar(Word(data, |out|, 1).value.0, data, Word(data, |out|, 1).value.1) ==
            Ok((s, |AppendScalar(out, s)|))
  {
    hide Begins, AppendWord, Word, AppendText, Text, AppendLong, Long, AppendFlag, Flag, Printed, ParseInt;
    Rooms();
    NumbersBack(data);
    match s
    case Int(n) =>
      PrintedBack(n);
      TextBack(AppendWord(out, 1, 2), 4, Printed(n), data);
    case Str(text) => TextBack(AppendWord(out, 1, 3), 4, text, data);
    case Decimal(fraction) => TextBack(AppendWord(out, 1, 4), 4, fraction, data);
    case _ =>
  }

  lemma {:induction false} ArgBack(out: Bytes, a: Arg, data: Bytes)
    requires FitsArg(a)
    ensures Back(AppendArg(out, a), ReadArg(data, |out|), a, out, data)
    decreases a, 0
  {
    hide Begins, AppendWord, Word, AppendScalar, ReadScalar, AppendArgs, ReadArgs, AppendPairs, ReadPairs, FitsScalar;
    Rooms();
    NumbersBack(data);
    match a
    case Simple(s) => if Begins(AppendScalar(out, s), data) { ScalarBack(out, s, data); }
    case List(items) =>
      assert items[..|items|] == items;
      ArgsBack(AppendWord(AppendWord(out, 1, 7), 2, |items|), items, |items|, data);
    case Dict(entries) =>
      assert entries[..|entries|] == entries;
      PairsBack(AppendWord(AppendWord(out, 1, 8), 2, |entries|), entries, |entries|, data);
    case Set(items) =>
      assert items[..|items|] == items;
      ArgsBack(AppendWord(AppendWord(out, 1, 9), 2, |items|), items, |items|, data);
  }

  lemma {:induction false} ArgsBack(out: Bytes, args: seq<Arg>, n: nat, data: Bytes)
    requires n <= |args| && forall i :: 0 <= i < n ==> FitsArg(args[i])
    ensures Back(AppendArgs(out, args, n), ReadArgs(data, |out|, n), args[..n], out, data)
    decreases args, n
  {
    hide Begins, AppendArg, ReadArg, FitsArg;
    if n > 0 {
      ArgsBack(out, args, n - 1, data);
      ArgBack(AppendArgs(out, args, n - 1).value, args[n - 1], data);
      assert args[..n] == args[..n - 1] + [args[n - 1]];
    }
  }

  lemma {:induction false} PairsBack(out: Bytes, entries: seq<Pair>, n: nat, data: Bytes)
    requires n <= |entries| && forall i :: 0 <= i < n ==> FitsPair(entries[i])
    ensures Back(AppendPairs(out, entries, n), ReadPairs(data, |out|, n), entries[..n], out, data)
    decreases entries, n
  {
    hide Begins, AppendArg, ReadArg, FitsArg;
    if n > 0 {
      var p := entries[n - 1];
      PairsBack(out, entries, n - 1, data);
      PairBack(AppendPairs(out, entries, n - 1).value, p, data);
      assert entries[..n] == entries[..n - 1] + [p];
    }
  }

  lemma {:induction false} PairBack(out: Bytes, p: Pair, data: Bytes)
    requires FitsPair(p)
    ensures AppendPair(out, p).Ok?
    ensures Begins(AppendPair(out, p).value, data) ==>
              Begins(out, data) && ReadArg(data, |out|).Ok? && ReadArg(data, |out|).value.0 == p.key
              && ReadArg(data, ReadArg(data, |out|).value.1) == Ok((p.value, |AppendPair(out, p).value|))
    decreases p, 0
  {
    hide Begins, AppendArg, ReadArg, FitsArg;
    ArgBack(out, p.key, data);
    ArgBack(AppendArg(out, p.key).value, p.value, data);
  }

  lemma NamedArgBack(e: (Bytes, Arg), data: Bytes)
    requires FitsString(e.0) && FitsArg(e.1)
    ensures Returns(AppendNamedArg, ReadNamedArg, e, e, data)
  {
    hide Begins, AppendString, String, AppendArg, ReadArg, FitsArg;
    StringBack(data);
    forall out ensures Back(AppendNamedArg(out, e), ReadNamedArg(data, |out|), e, out, data) {
      ArgBack(AppendString(out, e.0), e.1, data);
    }
  }

  lemma DecoratorBack(order: Order, d: Decorator, data: Bytes)
    requires FitsDecorator(d)
    ensures Returns(DecoratorAppender(order), ReadDecorator, d, d, data)
  {
    hide Begins, AppendString, String, AppendLong, Long, AppendWord, Word, AppendArgs, ReadArgs, FitsArg, AppendMap,
         ReadTable, Room;
    Rooms();
    StringBack(data);
    NumbersBack(data);
    forall k | k in d.namedArgs
        ensures Returns(AppendNamedArg, ReadNamedArg, (k, d.namedArgs[k]), (k, d.namedArgs[k]), data) {
      NamedArgBack((k, d.namedArgs[k]), data);
    }
    forall out ensures Back(AppendDecorator(order, out, d), ReadDecorator(data, |out|), d, out, data) {
      var head := DecoratorHead(out, d);
      ArgsBack(head, d.args, |d.args|, data);
      var args := AppendArgs(head, d.args, |d.args|).value;
      MapBack(AppendNamedArg, ReadNamedArg, order, data, args, d.namedArgs);
      assert d.args[..|d.args|] == d.args;
    }
  }

  function DecoratorHead(out: Bytes, d: Decorator): Bytes {
    var out := AppendString(AppendString(out, d.name), d.target);
    var out := AppendLong(AppendLong(AppendLong(AppendLong(out, d.position), d.overload), d.line), d.column);
    AppendWord(out, 2, |d.args|)
  }

  /** For all lists and maps of decorators of a file at once. */
  lemma DecoratorsBack(order: Order, data: Bytes)
    ensures forall out, ds {:trigger AppendDecorators(order, out, ds)} ::
              FitsDecorators(ds) ==> Back(AppendDecorators(order, out, ds), ReadDecorators(data, |out|), ds, out, data)
  {
    hide Begins, AppendWord, AppendAll, ReadList, Returns, FitsDecorator, Room, DecoratorAppender;
    Rooms();
    forall out, ds | FitsDecorators(ds)
        ensures Back(AppendDecorators(order, out, ds), ReadDecorators(data, |out|), ds, out, data) {
      forall i | 0 <= i < |ds| ensures Returns(DecoratorAppender(order), ReadDecorator, ds[i], ds[i], data) {
        DecoratorBack(order, ds[i], data);
      }
      ListBack(DecoratorAppender(order), ReadDecorator, 2, out, ds, ds, data);
    }
  }

  lemma DecoratorListsBack(order: Order, data: Bytes)
    ensures forall out, lists {:trigger AppendDecoratorLists(order, out, lists)} ::
              FitsDecoratorLists(lists) ==>
                  Back(AppendDecoratorLists(order, out, lists), ReadDecoratorLists(data, |out|), lists, out, data)
  {
    hide Begins, AppendWord, AppendAll, ReadList, FitsDecorators, Room, AppendDecorators, ReadDecorators;
    Rooms();
    DecoratorsBack(order, data);
    forall out, lists | FitsDecoratorLists(lists)
        ensures Back(AppendDecoratorLists(order, out, lists), ReadDecoratorLists(data, |out|), lists, out, data) {
      forall i | 0 <= i < |lists|
        ensures Returns(DecoratorsAppender(order), ReadDecorators, lists[i], lists[i], data)
      {
        assert FitsDecorators(lists[i]);
      }
      ListBack(DecoratorsAppender(order), ReadDecorators, 2, out, lists, lists, data);
    }
  }

  lemma NamedDecoratorsBack(order: Order, e: (Bytes, Decorators), data: Bytes)
    requires FitsString(e.0) && FitsDecorators(e.1)
    ensures Returns(NamedDecoratorsAppender(order), ReadNamedDecorators, e, e, data)
  {
    hide Begins, AppendString, String, AppendDecorators, ReadDecorators, FitsDecorators;
    StringBack(data);
    DecoratorsBack(order, data);
  }

  lemma DecoratorMapsBack(order: Order, data: Bytes)
    ensures forall out, m {:trigger AppendDecoratorMap(order, out, m)} ::
              FitsDecoratorMap(m) ==>
                  Back(AppendDecoratorMap(order, out, m), ReadDecoratorMap(data, |out|), m, out, data)
  {
    hide Begins, AppendMap, ReadTable, Returns, FitsDecorators, NamedDecoratorsAppender;
    forall out, m | FitsDecoratorMap(m)
        ensures Back(AppendDecoratorMap(order, out, m), ReadDecoratorMap(data, |out|), m, out, data) {
      forall k | k in m
        ensures Returns(NamedDecoratorsAppender(order), ReadNamedDecorators, (k, m[k]), (k, m[k]), data)
      {
        NamedDecoratorsBack(order, (k, m[k]), data);
      }
      MapBack(NamedDecoratorsAppender(order), ReadNamedDecorators, order, data, out, m);
    }
  }

  // ----- metadata

  lemma ParameterBack(order: Order, p: Parameter, data: Bytes)
    requires FitsParameter(p)
    ensures Returns(ParameterAppender(order), ReadParameter, p, p, data)
  {
    hide Begins, AppendString, String, AppendFlag, Flag, AppendDecorators, ReadDecorators, FitsDecorators;
    StringBack(data);
    NumbersBack(data);
    DecoratorsBack(order, data);
  }

  lemma FunctionMetadataBack(order: Order, m: FunctionMetadata, data: Bytes)
    requires FitsFunctionMetadata(m)
    ensures Returns(MethodAppender(order), ReadFunctionMetadata, m, Option.Some(m), data)
  {
    hide Begins, AppendString, String, AppendFlag, Flag, AppendWord, Word, AppendStrings, Strings, AppendDecorators,
         ReadDecorators, FitsDecorators, FitsStrings, AppendAll, ReadList, Room, FitsParameter, ParameterAppender;
    Rooms();
    StringBack(data);
    NumbersBack(data);
    FlagsBack(data);
    StringsBack(data);
    DecoratorsBack(order, data);
    forall i | 0 <= i < |m.parameters|
      ensures Returns(ParameterAppender(order), ReadParameter, m.parameters[i], m.parameters[i], data)
    {
      ParameterBack(order, m.parameters[i], data);
    }
    ListsBack(ParameterAppender(order), ReadParameter, 2, m.parameters, m.parameters, data);
  }

  /** A printed 0 or 1 is read as a flag too. */
  lemma FlagsBack(data: Bytes)
    ensures forall out, n {:trigger AppendWord(out, 1, n)} ::
              0 <= n <= 1 && Begins(AppendWord(out, 1, n), data) ==>
                Begins(out, data) && Flag(data, |out|) == Ok((n == 1, |AppendWord(out, 1, n)|))
  {
    hide Begins, AppendWord, Word, Room;
    Rooms();
    NumbersBack(data);
  }

  /** ListBack for all places of a file at once. */
  lemma ListsBack<T, U>(append: Appender<T>, read: Reader<U>, width: nat, xs: seq<T>, ys: seq<U>, data: Bytes)
    requires |xs| == |ys| < Room(width)
    requires forall i :: 0 <= i < |xs| ==> Returns(append, read, xs[i], ys[i], data)
    ensures forall out {:trigger AppendAll(append, AppendWord(out, width, |xs|), xs)} ::
              Back(AppendAll(append, AppendWord(out, width, |xs|), xs), ReadList(read, width, data, |out|), ys, out,
                  data)
  {
    hide *;
    forall out ensures
        Back(AppendAll(append, AppendWord(out, width, |xs|), xs), ReadList(read, width, data, |out|), ys, out, data)
    {
      ListBack(append, read, width, out, xs, ys, data);
    }
  }

  /** A metadata record may be missing. */
  lemma FunctionMetadatasBack(order: Order, data: Bytes)
    ensures forall out, m {:trigger AppendFunctionMetadata(order, out, m)} ::
              FitsOptional(m, FitsFunctionMetadata) ==>
                  Back(AppendFunctionMetadata(order, out, m), ReadFunctionMetadata(data, |out|), m, out, data)
  {
    forall out, m | FitsOptional(m, FitsFunctionMetadata)
        ensures Back(AppendFunctionMetadata(order, out, m), ReadFunctionMetadata(data, |out|), m, out, data) {
      FunctionMetadataOrNot(order, out, m, data);
    }
  }

  lemma FunctionMetadataOrNot(order: Order, out: Bytes, m: Option<FunctionMetadata>, data: Bytes)
    requires FitsOptional(m, FitsFunctionMetadata)
    ensures Back(AppendFunctionMetadata(order, out, m), ReadFunctionMetadata(data, |out|), m, out, data)
  {
    hide Begins, AppendWord, Flag;
    if m.None? {
      FlagsBack(data);
    } else {
      FunctionMetadataBack(order, m.value, data);
      assert m == Option.Some(m.value);
      assert MethodAppender(order)(out, m.value) == AppendFunctionMetadata(order, out, m);
    }
  }

  lemma ClassMetadatasBack(data: Bytes)
    ensures forall out, m {:trigger AppendClassMetadata(out, m)} ::
              FitsOptional(m, FitsClassMetadata) && Begins(AppendClassMetadata(out, m), data)
              ==> Begins(out, data) && ReadClassMetadata(data, |out|) == Ok((m, |AppendClassMetadata(out, m)|))
  {
    hide Begins, AppendString, String, AppendWord, Word, Flag, AppendStrings, Strings, FitsString, FitsStrings;
    StringBack(data);
    FlagsBack(data);
    StringsBack(data);
  }

  // ----- constants

  lemma VariantBack(v: Variant, data: Bytes)
    requires FitsVariant(v)
    ensures Returns(AppendVariant, ReadVariant, v, v, data)
  {
    hide Begins, AppendString, String, AppendWord, Word, Flag, AppendArg, ReadArg, FitsArg, FitsString, Room;
    Rooms();
    StringBack(data);
    NumbersBack(data);
    FlagsBack(data);
    forall out ensures Back(AppendVariant(out, v), ReadVariant(data, |out|), v, out, data) {
      if v.backing.Some? {
        ArgBack(AppendWord(AppendWord(AppendString(out, v.name), 2, v.fieldCount), 1, 1), v.backing.value, data);
      }
    }
  }

  /** What follows the tag. */
  lemma TargetBack(order: Order, out: Bytes, c: Constant, data: Bytes)
    requires c.Target? && FitsConstant(c)
    ensures Back(AppendTarget(order, out, c), ReadConstant(data, |out|), c, out, data)
  {
    hide Begins, AppendString, String, AppendWord, Word, AppendFunctionMetadata, ReadFunctionMetadata,
        AppendClassMetadata,
         ReadClassMetadata, AppendDecorators, ReadDecorators, FitsDecorators, FitsOptional, FitsString, Room,
             ReadScalar,
         ReadEnum, ReadClassRef;
    Rooms();
    StringBack(data);
    NumbersBack(data);
    FunctionMetadatasBack(order, data);
    ClassMetadatasBack(data);
    DecoratorsBack(order, data);
  }

  lemma EnumBack(order: Order, out: Bytes, c: Constant, data: Bytes)
    requires c.Enum? && FitsConstant(c)
    ensures Back(AppendEnum(order, out, c), ReadConstant(data, |out|), c, out, data)
  {
    hide Begins, AppendString, String, AppendWord, Word, AppendStrings, Strings, FitsStrings, FitsString, Room,
        ReadScalar,
         ReadTarget, ReadClassRef, AppendAll, ReadList, FitsVariant, AppendTable, ReadTable, Returns, FitsMap;
    Rooms();
    StringBack(data);
    NumbersBack(data);
    StringsBack(data);
    forall i | 0 <= i < |c.variants|
      ensures Returns(AppendVariant, ReadVariant, c.variants[i], c.variants[i], data)
    {
      VariantBack(c.variants[i], data);
    }
    ListsBack(AppendVariant, ReadVariant, 2, c.variants, c.variants, data);
    NamedLongsBack(order, data);
  }

  lemma ClassRefBack(order: Order, out: Bytes, c: Constant, data: Bytes)
    requires c.ClassRef? && FitsConstant(c)
    ensures Back(AppendClassRef(order, out, c), ReadConstant(data, |out|), c, out, data)
  {
    hide Begins, AppendString, String, AppendWord, Word, AppendLong, Long, FitsString, Room, ReadScalar, ReadTarget,
        ReadEnum,
         AppendDecorators, ReadDecorators, FitsDecorators, AppendDecoratorMap, ReadDecoratorMap, FitsDecoratorMap;
    Rooms();
    StringBack(data);
    NumbersBack(data);
    DecoratorsBack(order, data);
    DecoratorMapsBack(order, data);
  }

  lemma ConstantBack(order: Order, c: Constant, data: Bytes)
    requires FitsConstant(c)
    ensures Returns(ConstantAppender(order), ReadConstant, c, c, data)
  {
    hide Begins, AppendString, String, AppendWord, Word, AppendText, Text, FitsString, Room, ReadScalar, AppendScalar,
         FitsScalar, ReadTarget, ReadEnum, ReadClassRef, AppendTarget, AppendEnum, AppendClassRef;
    forall out ensures Back(AppendConstant(order, out, c), ReadConstant(data, |out|), c, out, data) {
      Rooms();
      NumbersBack(data);
      match c
      case Literal(s) => if Begins(AppendScalar(out, s), data) { ScalarBack(out, s, data); }
      case Target(_, _, _, _) => TargetBack(order, out, c, data);
      case Enum(_, _, _, _, _, _) => EnumBack(order, out, c, data);
      case TypeName(name) => StringBack(data);
      case ClassRef(_, _, _, _, _, _) => ClassRefBack(order, out, c, data);
      case Binary(bytes) =>
        var tagged := AppendWord(out, 1, 13);
        if Begins(AppendText(tagged, 4, bytes), data) { TextBack(tagged, 4, bytes, data); }
      case _ =>
    }
  }

  // ----- tables

  lemma NamedLongsBack(order: Order, data: Bytes)
    ensures forall out, m {:trigger AppendTable(AppendNamedLongs, order, out, m)} ::
              FitsMap(m, FitsLongs) && Begins(AppendTable(AppendNamedLongs, order, out, m), data) ==>
                Begins(out, data)
                && ReadTable(NamedLongs, data, |out|) == Ok((m, |AppendTable(AppendNamedLongs, order, out, m)|))
  {
    hide Begins, AppendString, String, AppendLongs, Longs, AppendTable, ReadTable, FitsString, FitsLongs;
    StringBack(data);
    LongsBack(data);
    forall out, m | FitsMap(m, FitsLongs) && Begins(AppendTable(AppendNamedLongs, order, out, m), data)
      ensures Begins(out, data)
      ensures ReadTable(NamedLongs, data, |out|) == Ok((m, |AppendTable(AppendNamedLongs, order, out, m)|))
    {
      TableBack(AppendNamedLongs, NamedLongs, order, data, out, m);
    }
  }

  lemma NamedNumbersBack(order: Order, data: Bytes)
    ensures forall out, m {:trigger AppendTable(AppendNamedLong, order, out, m)} ::
              FitsMap(m, AnyLong) && Begins(AppendTable(AppendNamedLong, order, out, m), data) ==>
                Begins(out, data)
                && ReadTable(NamedLong, data, |out|) == Ok((m, |AppendTable(AppendNamedLong, order, out, m)|))
  {
    hide Begins, AppendString, String, AppendLong, Long, AppendTable, ReadTable, FitsString;
    StringBack(data);
    NumbersBack(data);
    forall out, m | FitsMap(m, AnyLong) && Begins(AppendTable(AppendNamedLong, order, out, m), data)
      ensures Begins(out, data)
      ensures ReadTable(NamedLong, data, |out|) == Ok((m, |AppendTable(AppendNamedLong, order, out, m)|))
    {
      TableBack(AppendNamedLong, NamedLong, order, data, out, m);
    }
  }

  lemma NamedStringsBack(order: Order, data: Bytes)
    ensures forall out, m {:trigger AppendTable(AppendNamedString, order, out, m)} ::
              FitsMap(m, FitsString) && Begins(AppendTable(AppendNamedString, order, out, m), data) ==>
                Begins(out, data)
                && ReadTable(NamedString, data, |out|) == Ok((m, |AppendTable(AppendNamedString, order, out, m)|))
  {
    hide Begins, AppendString, String, AppendTable, ReadTable, FitsString;
    StringBack(data);
    forall out, m | FitsMap(m, FitsString) && Begins(AppendTable(AppendNamedString, order, out, m), data)
      ensures Begins(out, data)
      ensures ReadTable(NamedString, data, |out|) == Ok((m, |AppendTable(AppendNamedString, order, out, m)|))
    {
      TableBack(AppendNamedString, NamedString, order, data, out, m);
    }
  }

  function LowerEntries<V>(es: seq<(Bytes, V)>): (r: seq<(Bytes, V)>)
    ensures |r| == |es| && forall i :: 0 <= i < |r| ==> r[i] == (Lower(es[i].0), es[i].1)
  {
    seq(|es|, i requires 0 <= i < |es| => (Lower(es[i].0), es[i].1))
  }

  lemma LowerGives<V>(es: seq<(Bytes, V)>, m: map<Bytes, V>)
    requires IsListing(es, m) && Distinct(m)
    ensures Inserted(LowerEntries(es)) == LowerKeys(m)
  {
    hide Lower, Inserted;
    var low := LowerEntries(es);
    InsertedIs(low);
    forall k ensures k in LowerKeys(m) <==> k in Inserted(low) {
      if k in LowerKeys(m) {
        var j :| j in m && Lower(j) == k;
        assert (j, m[j]) in es;
        var i :| 0 <= i < |es| && es[i] == (j, m[j]);
        assert low[i].0 in Inserted(low);
      }
    }
  }

  lemma LowerTableBack(order: Order, out: Bytes, m: map<Bytes, seq<Int64>>, data: Bytes)
    requires FitsMap(m, FitsLongs) && Distinct(m) && Begins(AppendTable(AppendNamedLongs, order, out, m), data)
    ensures Begins(out, data)
    ensures ReadTable(LowerNamedLongs, data, |out|) ==
            Ok((LowerKeys(m), |AppendTable(AppendNamedLongs, order, out, m)|))
  {
    hide Begins, AppendString, String, AppendLongs, Longs, AppendWord, AppendEach, ReadList, Inserted, FitsString,
        FitsLongs,
         Distinct, LowerKeys, Lower;
    Rooms();
    StringBack(data);
    LongsBack(data);
    var es := Entries(order, AppendWord(out, 2, |m|), m);
    forall i | 0 <= i < |es| ensures Undone(AppendNamedLongs, LowerNamedLongs, es[i], LowerEntries(es)[i], data) {
      assert es[i].0 in m;
    }
    EachListBack(AppendNamedLongs, LowerNamedLongs, 2, out, es, LowerEntries(es), data);
    LowerGives(es, m);
  }

  lemma LowerTablesBack(order: Order, data: Bytes)
    ensures forall out, m: map<Bytes, seq<Int64>> {:trigger AppendTable(AppendNamedLongs, order, out, m)} ::
              FitsMap(m, FitsLongs) && Distinct(m) && Begins(AppendTable(AppendNamedLongs, order, out, m), data) ==>
                Begins(out, data)
                && ReadTable(LowerNamedLongs, data, |out|) ==
                   Ok((LowerKeys(m), |AppendTable(AppendNamedLongs, order, out, m)|))
  {
    hide *;
    forall out, m: map<Bytes, seq<Int64>> |
      FitsMap(m, FitsLongs) && Distinct(m) && Begins(AppendTable(AppendNamedLongs, order, out, m), data)
      ensures Begins(out, data)
      ensures ReadTable(LowerNamedLongs, data, |out|) ==
              Ok((LowerKeys(m), |AppendTable(AppendNamedLongs, order, out, m)|))
    {
      LowerTableBack(order, out, m, data);
    }
  }

  // ----- the parts of a chunk

  lemma InstructionBack(i: Instruction, data: Bytes)
    requires FitsInstruction(i)
    ensures Undone(AppendInstruction, ReadInstruction, i, i, data)
  {
    hide Begins, AppendWord, Word, AppendLongs, Longs, FitsLongs, Room;
    Rooms();
    NumbersBack(data);
    LongsBack(data);
  }

  lemma FunctionBack(order: Order, f: FunctionInfo, data: Bytes)
    requires FitsFunction(f)
    ensures Returns(FunctionAppender(order), ReadFunction, f, FunctionRead(f), data)
  {
    hide Begins, AppendString, String, AppendLong, Long, AppendFlag, Flag, AppendStrings, Strings, AppendLongs, Longs,
         FitsString, FitsStrings, FitsLongs, AppendDecorators, ReadDecorators, FitsDecorators, AppendDecoratorLists,
         ReadDecoratorLists, FitsDecoratorLists, LowerAll;
    StringBack(data);
    NumbersBack(data);
    StringsBack(data);
    LongsBack(data);
    DecoratorsBack(order, data);
    DecoratorListsBack(order, data);
  }

  lemma FieldBack(f: Field, data: Bytes)
    requires FitsField(f)
    ensures Undone(AppendField, ReadField, f, f, data)
  {
    hide Begins, AppendString, String, AppendLong, Long, FitsString;
    StringBack(data);
    NumbersBack(data);
  }

  lemma ClassHeadBack(c: ClassInfo, out: Bytes, data: Bytes)
    requires FitsClassHead(HeadOf(c)) && Begins(AppendClassHead(out, c), data)
    ensures Begins(out, data) && ReadClassHead(data, |out|) == Ok((HeadOf(c), |AppendClassHead(out, c)|))
  {
    hide Begins, AppendString, String, AppendLong, Long, AppendStrings, Strings, FitsString, FitsStrings, AppendWord,
        Word,
         AppendEach, ReadList, Rows, FitsField, Room, Undone;
    Rooms();
    StringBack(data);
    NumbersBack(data);
    StringsBack(data);
    var rows := Rows(c);
    forall i | 0 <= i < |rows| ensures Undone(AppendField, ReadField, rows[i], rows[i], data) {
      FieldBack(rows[i], data);
    }
    EachListsBack(AppendField, ReadField, 2, rows, rows, data);
  }

  /** EachListBack for all places of a file at once. */
  lemma EachListsBack<T, U>(append: (Bytes, T) -> Bytes, read: Reader<U>, width: nat, xs: seq<T>, ys: seq<U>,
          data: Bytes)
    requires |xs| == |ys| < Room(width)
    requires forall i :: 0 <= i < |xs| ==> Undone(append, read, xs[i], ys[i], data)
    ensures forall out {:trigger AppendEach(append, AppendWord(out, width, |xs|), xs)} ::
              Begins(AppendEach(append, AppendWord(out, width, |xs|), xs), data) ==>
                Begins(out, data)
                && ReadList(read, width, data, |out|) ==
                   Ok((ys, |AppendEach(append, AppendWord(out, width, |xs|), xs)|))
  {
    hide *;
    forall out | Begins(AppendEach(append, AppendWord(out, width, |xs|), xs), data)
      ensures Begins(out, data)
      ensures ReadList(read, width, data, |out|) ==
              Ok((ys, |AppendEach(append, AppendWord(out, width, |xs|), xs)|))
    {
      EachListBack(append, read, width, out, xs, ys, data);
    }
  }

  lemma ClassTablesBack(order: Order, c: ClassInfo, out: Bytes, data: Bytes)
    requires FitsClassTables(TablesOf(c)) && ClashFreeClass(c) && Begins(AppendClassTables(order, out, c), data)
    ensures Begins(out, data)
    ensures ReadClassTables(data, |out|) ==
            Ok((TablesOf(c).(methods := LowerKeys(c.methods), staticMethods := LowerKeys(c.staticMethods)),
                |AppendClassTables(order, out, c)|))
  {
    hide Begins, AppendLong, Long, AppendLongs, Longs, FitsLongs, AppendTable, ReadTable, Distinct, LowerKeys, FitsMap;
    NumbersBack(data);
    LongsBack(data);
    LowerTablesBack(order, data);
    NamedNumbersBack(order, data);
    NamedStringsBack(order, data);
  }

  lemma ClassBack(order: Order, c: ClassInfo, data: Bytes)
    requires FitsClass(c) && ClashFreeClass(c)
    ensures Returns(ClassAppender(order), ReadClass, c, ClassRead(c), data)
  {
    forall out ensures Back(AppendClass(order, out, c), ReadClass(data, |out|), ClassRead(c), out, data) {
      ClassWhole(order, c, out, data);
    }
  }

  lemma ClassWhole(order: Order, c: ClassInfo, out: Bytes, data: Bytes)
    requires FitsClass(c) && ClashFreeClass(c)
    ensures Back(AppendClass(order, out, c), ReadClass(data, |out|), ClassRead(c), out, data)
  {
    hide Begins, AppendLong, Long, AppendFlag, Flag, AppendStrings, Strings, FitsStrings, AppendDecorators,
        ReadDecorators,
         FitsDecorators, AppendDecoratorMap, ReadDecoratorMap, FitsDecoratorMap, AppendDecoratorLists,
             ReadDecoratorLists,
         FitsDecoratorLists, AppendClassHead, ReadClassHead, FitsClassHead, AppendClassTables, ReadClassTables,
         FitsClassTables, ClashFreeClass, LowerKeys, Rows, Padded, Distinct;
    NumbersBack(data);
    StringsBack(data);
    DecoratorsBack(order, data);
    DecoratorMapsBack(order, data);
    DecoratorListsBack(order, data);
    var head := AppendClassHead(out, c);
    var tables := AppendClassTables(order, head, c);
    if Begins(tables, data) {
      ClassTablesBack(order, c, head, data);
      ClassHeadBack(c, out, data);
    }
    RowColumns(c);
  }

  /** The rows, column by column. */
  lemma RowColumns(c: ClassInfo)
    ensures
      var rows, n := Rows(c), |c.fieldNames|;
      && Column(rows, (r: Field) => r.name) == c.fieldNames
      && Column(rows, (r: Field) => r.typ) == Padded(c.fieldTypes, n, [])
      && Column(rows, (r: Field) => r.checkType) == Padded(c.fieldCheckTypes, n, [])
      && Column(rows, (r: Field) => r.doc) == Padded(c.fieldDocs, n, [])
      && Column(rows, (r: Field) => r.default_) == Padded(c.fieldDefaults, n, 0)
      && Column(rows, (r: Field) => r.defaultFunc) == Padded(c.fieldDefaultFuncs, n, -1)
  {}

  lemma {:induction false} AllKept<T>(xs: seq<T>)
    ensures Kept(Column(xs, (x: T) => Option.Some(x))) == xs
    decreases |xs|
  {
    var ys := Column(xs, (x: T) => Option.Some(x));
    if xs != [] {
      AllKept(xs[..|xs| - 1]);
      assert ys[..|ys| - 1] == Column(xs[..|xs| - 1], (x: T) => Option.Some(x));
    }
  }

  lemma InterfaceBack(order: Order, i: InterfaceInfo, data: Bytes)
    requires FitsInterface(i)
    ensures Returns(InterfaceAppender(order), ReadInterface, i, InterfaceRead(i), data)
  {
    hide Begins, AppendString, String, AppendStrings, Strings, FitsString, FitsStrings, AppendWord, Word, AppendEach,
         AppendAll, ReadList, InterfaceRows, FitsFunctionMetadata, Room, Undone, AppendTable, ReadTable, FitsMap,
         Kept, Padded, MethodAppender;
    Rooms();
    StringBack(data);
    NumbersBack(data);
    StringsBack(data);
    NamedNumbersBack(order, data);
    var ms := Column(i.methods, (m: FunctionMetadata) => Option.Some(m));
    forall k | 0 <= k < |i.methods|
      ensures Returns(MethodAppender(order), ReadFunctionMetadata, i.methods[k], ms[k], data)
    {
      FunctionMetadataBack(order, i.methods[k], data);
    }
    ListsBack(MethodAppender(order), ReadFunctionMetadata, 2, i.methods, ms, data);
    AllKept(i.methods);
    var rows := InterfaceRows(i);
    forall k | 0 <= k < |rows| ensures Undone(AppendNamedString, NamedString, rows[k], rows[k], data) {
      NamedStringBack(rows[k], data);
    }
    EachListsBack(AppendNamedString, NamedString, 2, rows, rows, data);
    InterfaceColumns(i);
  }

  lemma InterfaceColumns(i: InterfaceInfo)
    ensures
      var rows := InterfaceRows(i);
      && Column(rows, (r: (Bytes, Bytes)) => r.0) == i.fields
      && Column(rows, (r: (Bytes, Bytes)) => r.1) == Padded(i.fieldTypes, |i.fields|, [])
  {}

  lemma NamedStringBack(e: (Bytes, Bytes), data: Bytes)
    requires FitsString(e.0) && FitsString(e.1)
    ensures Undone(AppendNamedString, NamedString, e, e, data)
  {
    hide Begins, AppendString, String, FitsString;
    StringBack(data);
  }

  lemma ExportBack(e: Export, data: Bytes)
    requires FitsExport(e)
    ensures Undone(AppendExport, ReadExport, e, e, data)
  {
    hide Begins, AppendString, String, AppendLong, Long, AppendLongs, Longs, FitsString, FitsLongs;
    StringBack(data);
    NumbersBack(data);
    LongsBack(data);
  }

  lemma EmbedBack(e: Embed, data: Bytes)
    requires FitsEmbed(e)
    ensures Undone(AppendEmbed, ReadEmbed, e, e, data)
  {
    hide Begins, AppendString, String, FitsString, Take;
    StringBack(data);
    forall out | Begins(AppendEmbed(out, e), data)
      ensures Begins(out, data) && ReadEmbed(data, |out|) == Ok((e, |AppendEmbed(out, e)|))
    {
      TakeBack(AppendString(out, e.path), e.hash, data);
    }
  }

  // ----- the chunk

  lemma MagicBack(out: Bytes, data: Bytes)
    requires Begins(AppendWord(out + MAGIC, 2, VERSION), data)
    ensures Begins(out, data) && Take(data, |out|, |MAGIC|) == Ok((MAGIC, |out + MAGIC|))
    ensures Word(data, |out + MAGIC|, 2) == Ok((VERSION, |AppendWord(out + MAGIC, 2, VERSION)|))
  {
    hide Begins, AppendWord, Word, Take;
    Rooms();
    WordBack(out + MAGIC, 2, VERSION, data);
    TakeBack(out, MAGIC, data);
  }

  function HeadOfChunk(c: Chunk): ChunkHead {
    ChunkHead(c.sourceHash, c.compiler, c.topLevelLocalCount, c.globalCount, c.globalNames)
  }

  lemma ChunkHeadBack(c: Chunk, out: Bytes, data: Bytes)
    requires FitsString(c.compiler) && FitsMany(c.globalNames, 0x1_0000_0000, FitsString)
    requires Begins(AppendChunkHead(out, c), data)
    ensures Begins(out, data) && ReadChunkHead(data, |out|) == Ok((HeadOfChunk(c), |AppendChunkHead(out, c)|))
  {
    hide Begins, AppendString, String, AppendLong, Long, FitsString, AppendWord, Word, AppendEach, ReadList, Room, Take;
    Rooms();
    StringBack(data);
    NumbersBack(data);
    EachListsBack(AppendString, String, 4, c.globalNames, c.globalNames, data);
    var magic := AppendWord(out + MAGIC, 2, VERSION);
    TakeBack(magic, c.sourceHash, data);
    MagicBack(out, data);
  }

  function CodeRead(c: Chunk): Code
    requires ClashFree(c)
  {
    var r := ChunkRead(c);
    Code(r.constants, r.instructions, r.functions, r.classes, r.interfaces)
  }

  lemma CodeBack(order: Order, c: Chunk, out: Bytes, data: Bytes)
    requires FitsChunk(c) && ClashFree(c)
    ensures Back(AppendCode(order, out, c), ReadCode(data, |out|), CodeRead(c), out, data)
  {
    hide Begins, AppendWord, AppendEach, AppendAll, ReadList, Undone, Returns, FitsFunction, FitsClass, FitsConstant,
         FitsInstruction, FitsInterface, FitsString, FitsMap, FitsExport, FitsEmbed, Room, ClashFreeClass, ClassRead,
         FunctionRead, InterfaceRead, ConstantAppender, FunctionAppender, ClassAppender, InterfaceAppender, LowerKeys;
    Rooms();
    var r := ChunkRead(c);
    forall i | 0 <= i < |c.constants|
      ensures Returns(ConstantAppender(order), ReadConstant, c.constants[i], r.constants[i], data)
    {
      ConstantBack(order, c.constants[i], data);
    }
    ListsBack(ConstantAppender(order), ReadConstant, 4, c.constants, r.constants, data);
    forall i | 0 <= i < |c.instructions|
      ensures Undone(AppendInstruction, ReadInstruction, c.instructions[i], r.instructions[i], data)
    {
      InstructionBack(c.instructions[i], data);
    }
    EachListsBack(AppendInstruction, ReadInstruction, 4, c.instructions, r.instructions, data);
    forall i | 0 <= i < |c.functions|
      ensures Returns(FunctionAppender(order), ReadFunction, c.functions[i], r.functions[i], data)
    {
      FunctionBack(order, c.functions[i], data);
    }
    ListsBack(FunctionAppender(order), ReadFunction, 4, c.functions, r.functions, data);
    forall i | 0 <= i < |c.classes|
      ensures Returns(ClassAppender(order), ReadClass, c.classes[i], r.classes[i], data)
    {
      ClassBack(order, c.classes[i], data);
    }
    ListsBack(ClassAppender(order), ReadClass, 4, c.classes, r.classes, data);
    forall i | 0 <= i < |c.interfaces|
      ensures Returns(InterfaceAppender(order), ReadInterface, c.interfaces[i], r.interfaces[i], data)
    {
      InterfaceBack(order, c.interfaces[i], data);
    }
    ListsBack(InterfaceAppender(order), ReadInterface, 4, c.interfaces, r.interfaces, data);
  }

  lemma ChunkBack(order: Order, c: Chunk, data: Bytes)
    requires FitsChunk(c) && ClashFree(c)
    ensures Back(PrintedChunk(order, c), ReadChunk(data, 0), ChunkRead(c), [], data)
  {
    hide Begins, AppendWord, AppendEach, ReadList, Undone, FitsFunction, FitsClass, FitsConstant, FitsInstruction,
         FitsInterface, FitsString, FitsMap, FitsExport, FitsEmbed, Room, ClashFree, AppendChunkHead, ReadChunkHead,
         AppendCode, ReadCode, AppendTable, ReadTable;
    Rooms();
    forall i | 0 <= i < |c.exports| ensures Undone(AppendExport, ReadExport, c.exports[i], c.exports[i], data) {
      ExportBack(c.exports[i], data);
    }
    EachListsBack(AppendExport, ReadExport, 2, c.exports, c.exports, data);
    forall i | 0 <= i < |c.embeds| ensures Undone(AppendEmbed, ReadEmbed, c.embeds[i], c.embeds[i], data) {
      EmbedBack(c.embeds[i], data);
    }
    EachListsBack(AppendEmbed, ReadEmbed, 2, c.embeds, c.embeds, data);
    NamedStringsBack(order, data);
    var head := AppendChunkHead([], c);
    CodeBack(order, c, head, data);
    if Begins(head, data) { ChunkHeadBack(c, [], data); }
  }
}
