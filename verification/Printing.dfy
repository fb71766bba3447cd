/** The printer of a chunk: it appends field after field, and checks only the kinds of constants. */
module Printing {
  import opened Wire
  import opened Records

  // ----- maps, which are printed in no particular order

  ghost predicate Lists(keys: seq<Bytes>, s: set<Bytes>) { |keys| == |s| && forall k :: k in keys <==> k in s }

  ghost predicate Orderly(order: (Bytes, set<Bytes>) -> seq<Bytes>) {
    forall out, keys :: Lists(order(out, keys), keys)
  }

  ghost function SomeOrder(keys: set<Bytes>): (r: seq<Bytes>)
    ensures Lists(r, keys)
  {
    if keys == {} then [] else
      var k :| k in keys;
      SomeOrder(keys - {k}) + [k]
  }

  /** How the run time goes through the keys of a map: in any order, which may be another one at
      every place of the output. */
  type Order = order: (Bytes, set<Bytes>) -> seq<Bytes> | Orderly(order) ghost witness (out, keys) => SomeOrder(keys)

  function Entries<V>(order: Order, out: Bytes, m: map<Bytes, V>): (r: seq<(Bytes, V)>)
    ensures |r| == |m|
    ensures forall i :: 0 <= i < |r| ==> r[i].0 in m && r[i].1 == m[r[i].0]
    ensures forall k :: k in m ==> (k, m[k]) in r
  {
    var keys := order(out, m.Keys);
    assert Lists(keys, m.Keys);
    assert forall i :: 0 <= i < |keys| ==> keys[i] in m by { assert forall i :: 0 <= i < |keys| ==> keys[i] in keys; }
    var r := seq(|keys|, i requires 0 <= i < |keys| => (keys[i], m[keys[i]]));
    assert forall k :: k in m ==> (k, m[k]) in r by { Listed(keys, m, r); }
    r
  }

  lemma Listed<V>(keys: seq<Bytes>, m: map<Bytes, V>, r: seq<(Bytes, V)>)
    requires |r| == |keys| && (forall k :: k in m ==> k in keys) && forall i :: 0 <= i < |keys| ==> keys[i] in m
    requires forall i :: 0 <= i < |keys| ==> r[i] == (keys[i], m[keys[i]])
    ensures forall k :: k in m ==> (k, m[k]) in r
  {
    forall k | k in m ensures (k, m[k]) in r {
      var i :| 0 <= i < |keys| && keys[i] == k;
      assert r[i] == (k, m[k]);
    }
  }

  function AppendTable<V>(append: (Bytes, (Bytes, V)) -> Bytes, order: Order, out: Bytes, m: map<Bytes, V>): Bytes {
    var out := AppendWord(out, 2, |m|);
    AppendEach(append, out, Entries(order, out, m))
  }

  /** As AppendTable, for values that can be refused. */
  function AppendMap<V>(append: Appender<(Bytes, V)>, order: Order, out: Bytes, m: map<Bytes, V>): Result<Bytes> {
    var out := AppendWord(out, 2, |m|);
    AppendAll(append, out, Entries(order, out, m))
  }

  function AppendNamedLong(out: Bytes, e: (Bytes, Int64)): Bytes { AppendLong(AppendString(out, e.0), e.1) }

  function AppendNamedLongs(out: Bytes, e: (Bytes, seq<Int64>)): Bytes { AppendLongs(AppendString(out, e.0), e.1) }

  function AppendNamedString(out: Bytes, e: (Bytes, Bytes)): Bytes { AppendString(AppendString(out, e.0), e.1) }

  // ----- decorators

  function AppendScalar(out: Bytes, s: Scalar): Bytes {
    match s
    case Null => AppendWord(out, 1, 0)
    case Bool(b) => AppendFlag(AppendWord(out, 1, 1), b)
    case Int(n) => AppendText(AppendWord(out, 1, 2), 4, Printed(n))
    case Str(text) => AppendText(AppendWord(out, 1, 3), 4, text)
    case Decimal(fraction) => AppendText(AppendWord(out, 1, 4), 4, fraction)
    case Float(bits) => AppendLong(AppendWord(out, 1, 5), bits)
  }

  function AppendArg(out: Bytes, arg: Arg): Result<Bytes>
    decreases arg, 0
  {
    match arg
    case Simple(s) => Ok(AppendScalar(out, s))
    case List(items) => AppendArgs(AppendWord(AppendWord(out, 1, 7), 2, |items|), items, |items|)
    case Dict(entries) => AppendPairs(AppendWord(AppendWord(out, 1, 8), 2, |entries|), entries, |entries|)
    case Set(items) => AppendArgs(AppendWord(AppendWord(out, 1, 9), 2, |items|), items, |items|)
    case Opaque => Bad
  }

  /** The first n of them. */
  function AppendArgs(out: Bytes, args: seq<Arg>, n: nat): Result<Bytes>
    requires n <= |args|
    decreases args, n
  {
    if n == 0 then Ok(out) else
      var out :- AppendArgs(out, args, n - 1);
      AppendArg(out, args[n - 1])
  }

  function AppendPairs(out: Bytes, entries: seq<Pair>, n: nat): Result<Bytes>
    requires n <= |entries|
    decreases entries, n
  {
    if n == 0 then Ok(out) else
      var out :- AppendPairs(out, entries, n - 1);
      AppendPair(out, entries[n - 1])
  }

  function AppendPair(out: Bytes, p: Pair): Result<Bytes>
    decreases p, 0
  {
    var out :- AppendArg(out, p.key);
    AppendArg(out, p.value)
  }

  function AppendNamedArg(out: Bytes, e: (Bytes, Arg)): Result<Bytes> { AppendArg(AppendString(out, e.0), e.1) }

  function AppendDecorator(order: Order, out: Bytes, d: Decorator): Result<Bytes> {
    var out := AppendString(out, d.name);
    var out := AppendString(out, d.target);
    var out := AppendLong(out, d.position);
    var out := AppendLong(out, d.overload);
    var out := AppendLong(out, d.line);
    var out := AppendLong(out, d.column);
    var out := AppendWord(out, 2, |d.args|);
    var out :- AppendArgs(out, d.args, |d.args|);
    AppendMap(AppendNamedArg, order, out, d.namedArgs)
  }

  function DecoratorAppender(order: Order): Appender<Decorator> { (out, d) => AppendDecorator(order, out, d) }

  function AppendDecorators(order: Order, out: Bytes, ds: Decorators): Result<Bytes> {
    AppendAll(DecoratorAppender(order), AppendWord(out, 2, |ds|), ds)
  }

  function DecoratorsAppender(order: Order): Appender<Decorators> { (out, ds) => AppendDecorators(order, out, ds) }

  function AppendDecoratorLists(order: Order, out: Bytes, lists: seq<Decorators>): Result<Bytes> {
    AppendAll(DecoratorsAppender(order), AppendWord(out, 2, |lists|), lists)
  }

  function AppendNamedDecorators(order: Order, out: Bytes, e: (Bytes, Decorators)): Result<Bytes> {
    AppendDecorators(order, AppendString(out, e.0), e.1)
  }

  function NamedDecoratorsAppender(order: Order): Appender<(Bytes, Decorators)> {
    (out, e) => AppendNamedDecorators(order, out, e)
  }

  function AppendDecoratorMap(order: Order, out: Bytes, m: map<Bytes, Decorators>): Result<Bytes> {
    AppendMap(NamedDecoratorsAppender(order), order, out, m)
  }

  // ----- metadata

  function AppendParameter(order: Order, out: Bytes, p: Parameter): Result<Bytes> {
    var out := AppendString(out, p.name);
    var out := AppendString(out, p.typ);
    var out := AppendFlag(out, p.variadic);
    var out := AppendFlag(out, p.hasDefault);
    AppendDecorators(order, out, p.decorators)
  }

  function ParameterAppender(order: Order): Appender<Parameter> { (out, p) => AppendParameter(order, out, p) }

  function AppendFunctionMetadata(order: Order, out: Bytes, metadata: Option<FunctionMetadata>): Result<Bytes> {
    if metadata.None? then Ok(AppendWord(out, 1, 0)) else
      var m := metadata.value;
      var out := AppendWord(out, 1, 1);
      var out := AppendString(out, m.name);
      var out := AppendString(out, m.target);
      var out := AppendString(out, m.doc);
      var out := AppendString(out, m.returnType);
      var out := AppendStrings(out, m.typeParameters);
      var out := AppendFlag(out, m.async);
      var out := AppendFlag(out, m.variadic);
      var out := AppendWord(out, 2, |m.parameters|);
      var out :- AppendAll(ParameterAppender(order), out, m.parameters);
      AppendDecorators(order, out, m.decorators)
  }

  function MethodAppender(order: Order): Appender<FunctionMetadata> {
    (out, m) => AppendFunctionMetadata(order, out, Option.Some(m))
  }

  function AppendClassMetadata(out: Bytes, metadata: Option<ClassMetadata>): Bytes {
    if metadata.None? then AppendWord(out, 1, 0) else
      var m := metadata.value;
      var out := AppendWord(out, 1, 1);
      var out := AppendString(out, m.name);
      var out := AppendString(out, m.doc);
      var out := AppendString(out, m.parent);
      var out := AppendStrings(out, m.fields);
      var out := AppendStrings(out, m.methods);
      var out := AppendStrings(out, m.staticMethods);
      AppendStrings(out, m.interfaces)
  }

  // ----- the parts of a chunk

  function AppendVariant(out: Bytes, v: Variant): Result<Bytes> {
    var out := AppendString(out, v.name);
    var out := AppendWord(out, 2, v.fieldCount);
    if v.backing.None? then Ok(AppendWord(out, 1, 0)) else AppendArg(AppendWord(out, 1, 1), v.backing.value)
  }

  function AppendTarget(order: Order, out: Bytes, c: Constant): Result<Bytes>
    requires c.Target?
  {
    var out := AppendWord(out, 1, 6);
    var out := AppendString(out, c.target);
    var out :- AppendFunctionMetadata(order, out, c.function_);
    var out := AppendClassMetadata(out, c.class_);
    AppendDecorators(order, out, c.decorators)
  }

  function AppendEnum(order: Order, out: Bytes, c: Constant): Result<Bytes>
    requires c.Enum?
  {
    var out := AppendWord(out, 1, 7);
    var out := AppendString(out, c.name);
    var out := AppendString(out, c.home);
    var out := AppendString(out, c.backingType);
    var out := AppendWord(out, 2, |c.variants|);
    var out :- AppendAll(AppendVariant, out, c.variants);
    var out := AppendStrings(out, c.implements);
    Ok(AppendTable(AppendNamedLongs, order, out, c.methodIndices))
  }

  function AppendClassRef(order: Order, out: Bytes, c: Constant): Result<Bytes>
    requires c.ClassRef?
  {
    var out := AppendWord(out, 1, 9);
    var out := AppendString(out, c.name);
    var out := AppendString(out, c.doc);
    var out := AppendLong(out, c.index);
    var out :- AppendDecorators(order, out, c.decorators);
    var out :- AppendDecoratorMap(order, out, c.methodDecorators);
    AppendDecoratorMap(order, out, c.staticDecorators)
  }

  function AppendConstant(order: Order, out: Bytes, c: Constant): Result<Bytes> {
    match c
    case Literal(s) => Ok(AppendScalar(out, s))
    case Target(_, _, _, _) => AppendTarget(order, out, c)
    case Enum(_, _, _, _, _, _) => AppendEnum(order, out, c)
    case TypeName(name) => Ok(AppendString(AppendWord(out, 1, 8), name))
    case ClassRef(_, _, _, _, _, _) => AppendClassRef(order, out, c)
    case EmptyDict => Ok(AppendWord(out, 1, 10))
    case EmptyList => Ok(AppendWord(out, 1, 11))
    case EmptySet => Ok(AppendWord(out, 1, 12))
    case Binary(bytes) => Ok(AppendText(AppendWord(out, 1, 13), 4, bytes))
    case Pending => Ok(AppendWord(out, 1, 14))
    case Foreign => Bad
  }

  function ConstantAppender(order: Order): Appender<Constant> { (out, c) => AppendConstant(order, out, c) }

  function AppendInstruction(out: Bytes, i: Instruction): Bytes {
    var out := AppendWord(out, 1, i.op);
    var out := AppendWord(out, 2, i.line);
    var out := AppendWord(out, 2, i.column);
    AppendLongs(out, i.operands)
  }

  function AppendFunction(order: Order, out: Bytes, f: FunctionInfo): Result<Bytes> {
    var out := AppendString(out, f.name);
    var out := AppendString(out, f.doc);
    var out := AppendStrings(out, f.typeParameters);
    var out := AppendStrings(out, f.typeParamConstraintExprs);
    var out := AppendLong(out, f.entry);
    var out := AppendStrings(out, f.paramNames);
    var out := AppendStrings(out, f.paramDisplayNames);
    var out := AppendLongs(out, f.paramSlots);
    var out := AppendStrings(out, f.paramTypes);
    var out := AppendStrings(out, f.paramDisplayTypes);
    var out :- AppendDecoratorLists(order, out, f.paramDecorators);
    var out := AppendString(out, f.returnType);
    var out := AppendString(out, f.returnCheckType);
    var out := AppendLongs(out, f.defaultConstants);
    var out := AppendLong(out, f.upvalueCount);
    var out := AppendLong(out, f.localCount);
    var out := AppendFlag(out, f.variadic);
    var out := AppendFlag(out, f.async);
    var out := AppendFlag(out, f.isGenerator);
    var out := AppendFlag(out, f.sharesParentFrame);
    var out := AppendLong(out, f.defLine);
    var out := AppendLong(out, f.defColumn);
    AppendDecorators(order, out, f.decorators)
  }

  function FunctionAppender(order: Order): Appender<FunctionInfo> { (out, f) => AppendFunction(order, out, f) }

  function AppendField(out: Bytes, field: Field): Bytes {
    var out := AppendString(out, field.name);
    var out := AppendLong(out, field.default_);
    var out := AppendLong(out, field.defaultFunc);
    var out := AppendString(out, field.typ);
    var out := AppendString(out, field.checkType);
    AppendString(out, field.doc)
  }

  function ClassAppender(order: Order): Appender<ClassInfo> { (out, c) => AppendClass(order, out, c) }

  /** A class with fewer defaults than fields makes the printer fail. */
  function AppendClass(order: Order, out: Bytes, c: ClassInfo): Result<Bytes> {
    if |c.fieldDefaults| < |c.fieldNames| then Bad else
      var out := AppendClassHead(out, c);
      var out := AppendClassTables(order, out, c);
      AppendClassTail(order, out, c)
  }

  function AppendClassHead(out: Bytes, c: ClassInfo): Bytes {
    var out := AppendString(out, c.name);
    var out := AppendString(out, c.doc);
    var out := AppendString(out, c.parentName);
    var out := AppendLong(out, c.parentIndex);
    var out := AppendStrings(out, c.parentArguments);
    var out := AppendStrings(out, c.typeParameters);
    var out := AppendStrings(out, c.typeParamConstraintExprs);
    var out := AppendWord(out, 2, |c.fieldNames|);
    AppendEach(AppendField, out, Rows(c))
  }

  function AppendClassTables(order: Order, out: Bytes, c: ClassInfo): Bytes {
    var out := AppendLongs(out, c.constructorIndices);
    var out := AppendLong(out, c.destructorIndex);
    var out := AppendTable(AppendNamedLongs, order, out, c.methods);
    var out := AppendTable(AppendNamedLong, order, out, c.staticValues);
    var out := AppendTable(AppendNamedString, order, out, c.staticTypes);
    AppendTable(AppendNamedLongs, order, out, c.staticMethods)
  }

  function AppendClassTail(order: Order, out: Bytes, c: ClassInfo): Result<Bytes> {
    var out := AppendStrings(out, c.implements);
    var out :- AppendDecorators(order, out, c.decorators);
    var out :- AppendDecoratorMap(order, out, c.methodDecorators);
    var out :- AppendDecoratorMap(order, out, c.staticDecorators);
    var out :- AppendDecoratorLists(order, out, c.fieldDecorators);
    var out := AppendFlag(out, c.immutable_);
    var out := AppendStrings(out, c.immutableFields);
    var out := AppendLong(out, c.defLine);
    Ok(AppendLong(out, c.defColumn))
  }

  function AppendInterface(order: Order, out: Bytes, i: InterfaceInfo): Result<Bytes> {
    var out := AppendString(out, i.name);
    var out := AppendString(out, i.doc);
    var out := AppendStrings(out, i.typeParameters);
    var out := AppendStrings(out, i.parents);
    var out := AppendWord(out, 2, |i.methods|);
    var out :- AppendAll(MethodAppender(order), out, i.methods);
    var out := AppendTable(AppendNamedLong, order, out, i.defaults);
    var out := AppendWord(out, 2, |i.fields|);
    Ok(AppendEach(AppendNamedString, out, InterfaceRows(i)))
  }

  function InterfaceAppender(order: Order): Appender<InterfaceInfo> { (out, i) => AppendInterface(order, out, i) }

  function AppendExport(out: Bytes, e: Export): Bytes {
    var out := AppendString(out, e.name);
    var out := AppendLong(out, e.slot);
    var out := AppendLong(out, e.functionIndex);
    var out := AppendLong(out, e.classIndex);
    var out := AppendLong(out, e.interfaceIndex);
    AppendLongs(out, e.overloadIndices)
  }

  function AppendEmbed(out: Bytes, e: Embed): Bytes { AppendString(out, e.path) + e.hash }

  // ----- the chunk

  function AppendChunkHead(out: Bytes, c: Chunk): Bytes {
    var out := out + MAGIC;
    var out := AppendWord(out, 2, VERSION);
    var out := out + c.sourceHash;
    var out := AppendString(out, c.compiler);
    var out := AppendLong(out, c.topLevelLocalCount);
    var out := AppendLong(out, c.globalCount);
    var out := AppendWord(out, 4, |c.globalNames|);
    AppendEach(AppendString, out, c.globalNames)
  }

  function AppendCode(order: Order, out: Bytes, c: Chunk): Result<Bytes> {
    var out := AppendWord(out, 4, |c.constants|);
    var out :- AppendAll(ConstantAppender(order), out, c.constants);
    var out := AppendWord(out, 4, |c.instructions|);
    var out := AppendEach(AppendInstruction, out, c.instructions);
    var out := AppendWord(out, 4, |c.functions|);
    var out :- AppendAll(FunctionAppender(order), out, c.functions);
    var out := AppendWord(out, 4, |c.classes|);
    var out :- AppendAll(ClassAppender(order), out, c.classes);
    var out := AppendWord(out, 4, |c.interfaces|);
    AppendAll(InterfaceAppender(order), out, c.interfaces)
  }

  function AppendChunkTail(order: Order, out: Bytes, c: Chunk): Bytes {
    var out := AppendWord(out, 2, |c.exports|);
    var out := AppendEach(AppendExport, out, c.exports);
    var out := AppendWord(out, 2, |c.embeds|);
    var out := AppendEach(AppendEmbed, out, c.embeds);
    var out := AppendTable(AppendNamedString, order, out, c.moduleAliases);
    var out := AppendTable(AppendNamedString, order, out, c.fromImports);
    AppendTable(AppendNamedString, order, out, c.typeAliasDeps)
  }

  function PrintedChunk(order: Order, c: Chunk): Result<Bytes> {
    var out :- AppendCode(order, AppendChunkHead([], c), c);
    Ok(AppendChunkTail(order, out, c))
  }
}
