/** What fits the binary form, and what comes back of it. */
module Fitting {
  import opened Wire
  import opened Records
  import opened Parsing

  // ----- what fits: it can be printed, and every length, count and line has room in its width

  predicate FitsText(s: Bytes) { |s| < 0x1_0000_0000 }

  predicate FitsScalar(s: Scalar) {
    match s
    case Str(text) => FitsText(text)
    case Decimal(fraction) => FitsText(fraction)
    case _ => true
  }

  predicate FitsArg(a: Arg) {
    match a
    case Simple(s) => FitsScalar(s)
    case List(items) => |items| < 0x1_0000 && forall i :: 0 <= i < |items| ==> FitsArg(items[i])
    case Dict(entries) => |entries| < 0x1_0000 && forall i :: 0 <= i < |entries| ==> FitsPair(entries[i])
    case Set(items) => |items| < 0x1_0000 && forall i :: 0 <= i < |items| ==> FitsArg(items[i])
    case Opaque => false
  }

  predicate AnyLong(n: Int64) { true }

  predicate FitsPair(p: Pair) { FitsArg(p.key) && FitsArg(p.value) }

  predicate FitsMap<V>(m: map<Bytes, V>, fits: V -> bool) {
    |m| < 0x1_0000 && forall k :: k in m ==> FitsString(k) && fits(m[k])
  }

  predicate FitsDecorator(d: Decorator) {
    && FitsString(d.name) && FitsString(d.target)
    && |d.args| < 0x1_0000 && (forall i :: 0 <= i < |d.args| ==> FitsArg(d.args[i])) && FitsMap(d.namedArgs, FitsArg)
  }

  predicate FitsDecorators(ds: Decorators) { |ds| < 0x1_0000 && forall d :: d in ds ==> FitsDecorator(d) }

  predicate FitsDecoratorLists(lists: seq<Decorators>) {
    |lists| < 0x1_0000 && forall ds :: ds in lists ==> FitsDecorators(ds)
  }

  predicate FitsDecoratorMap(m: map<Bytes, Decorators>) { FitsMap(m, FitsDecorators) }

  predicate FitsParameter(p: Parameter) { FitsString(p.name) && FitsString(p.typ) && FitsDecorators(p.decorators) }

  predicate FitsFunctionMetadata(m: FunctionMetadata) {
    && FitsString(m.name) && FitsString(m.target) && FitsString(m.doc) && FitsString(m.returnType)
    && FitsStrings(m.typeParameters) && |m.parameters| < 0x1_0000
    && (forall p :: p in m.parameters ==> FitsParameter(p)) && FitsDecorators(m.decorators)
  }

  predicate FitsOptional<T>(x: Option<T>, fits: T -> bool) { x.Some? ==> fits(x.value) }

  predicate FitsClassMetadata(m: ClassMetadata) {
    && FitsString(m.name) && FitsString(m.doc) && FitsString(m.parent) && FitsStrings(m.fields)
    && FitsStrings(m.methods) && FitsStrings(m.staticMethods) && FitsStrings(m.interfaces)
  }

  predicate FitsVariant(v: Variant) {
    FitsString(v.name) && 0 <= v.fieldCount < 0x1_0000 && FitsOptional(v.backing, FitsArg)
  }

  predicate FitsConstant(c: Constant) {
    match c
    case Literal(s) => FitsScalar(s)
    case Target(target, function_, class_, decorators) =>
      && FitsString(target) && FitsOptional(function_, FitsFunctionMetadata)
      && FitsOptional(class_, FitsClassMetadata) && FitsDecorators(decorators)
    case Enum(name, home, backingType, variants, implements, methodIndices) =>
      && FitsString(name) && FitsString(home) && FitsString(backingType) && |variants| < 0x1_0000
      && (forall v :: v in variants ==> FitsVariant(v)) && FitsStrings(implements)
      && FitsMap(methodIndices, FitsLongs)
    case TypeName(name) => FitsString(name)
    case ClassRef(name, doc, _, decorators, methodDecorators, staticDecorators) =>
      && FitsString(name) && FitsString(doc) && FitsDecorators(decorators) && FitsDecoratorMap(methodDecorators)
      && FitsDecoratorMap(staticDecorators)
    case Binary(bytes) => FitsText(bytes)
    case Foreign => false
    case _ => true
  }

  predicate FitsInstruction(i: Instruction) { 0 <= i.line < 0x1_0000 && FitsLongs(i.operands) }

  predicate FitsFunction(f: FunctionInfo) {
    && FitsString(f.name) && FitsString(f.doc) && FitsStrings(f.typeParameters)
    && FitsStrings(f.typeParamConstraintExprs) && FitsStrings(f.paramNames) && FitsStrings(f.paramDisplayNames)
    && FitsLongs(f.paramSlots) && FitsStrings(f.paramTypes) && FitsStrings(f.paramDisplayTypes)
    && FitsDecoratorLists(f.paramDecorators) && FitsString(f.returnType) && FitsString(f.returnCheckType)
    && FitsLongs(f.defaultConstants) && FitsDecorators(f.decorators)
  }

  predicate FitsInterface(i: InterfaceInfo) {
    && FitsString(i.name) && FitsString(i.doc) && FitsStrings(i.typeParameters) && FitsStrings(i.parents)
    && |i.methods| < 0x1_0000 && (forall m :: m in i.methods ==> FitsFunctionMetadata(m))
    && FitsMap(i.defaults, AnyLong) && |i.fields| < 0x1_0000
    && forall e :: e in InterfaceRows(i) ==> FitsString(e.0) && FitsString(e.1)
  }

  predicate FitsField(f: Field) {
    FitsString(f.name) && FitsString(f.typ) && FitsString(f.checkType) && FitsString(f.doc)
  }

  predicate FitsClassHead(h: ClassHead) {
    && FitsString(h.name) && FitsString(h.doc) && FitsString(h.parentName) && FitsStrings(h.parentArguments)
    && FitsStrings(h.typeParameters) && FitsStrings(h.typeParamConstraintExprs) && |h.rows| < 0x1_0000
    && forall f :: f in h.rows ==> FitsField(f)
  }

  predicate FitsClassTables(t: ClassTables) {
    && FitsLongs(t.constructorIndices) && FitsMap(t.methods, FitsLongs) && FitsMap(t.staticValues, AnyLong)
    && FitsMap(t.staticTypes, FitsString) && FitsMap(t.staticMethods, FitsLongs)
  }

  predicate FitsClassTail(c: ClassInfo) {
    && FitsStrings(c.implements) && FitsDecorators(c.decorators) && FitsDecoratorMap(c.methodDecorators)
    && FitsDecoratorMap(c.staticDecorators) && FitsDecoratorLists(c.fieldDecorators) && FitsStrings(c.immutableFields)
  }

  predicate FitsClass(c: ClassInfo) {
    |c.fieldNames| <= |c.fieldDefaults| && FitsClassHead(HeadOf(c)) && FitsClassTables(TablesOf(c)) && FitsClassTail(c)
  }

  function HeadOf(c: ClassInfo): ClassHead {
    ClassHead(c.name, c.doc, c.parentName, c.parentIndex, c.parentArguments, c.typeParameters,
        c.typeParamConstraintExprs,
              Rows(c))
  }

  function TablesOf(c: ClassInfo): ClassTables {
    ClassTables(c.constructorIndices, c.destructorIndex, c.methods, c.staticValues, c.staticTypes, c.staticMethods)
  }

  predicate FitsExport(e: Export) { FitsString(e.name) && FitsLongs(e.overloadIndices) }

  predicate FitsEmbed(e: Embed) { FitsString(e.path) }

  predicate FitsMany<T(==)>(xs: seq<T>, room: nat, fits: T -> bool) { |xs| < room && forall x :: x in xs ==> fits(x) }

  predicate FitsChunk(c: Chunk) {
    && FitsString(c.compiler) && FitsMany(c.globalNames, 0x1_0000_0000, FitsString)
    && FitsMany(c.constants, 0x1_0000_0000, FitsConstant) && FitsMany(c.instructions, 0x1_0000_0000, FitsInstruction)
    && FitsMany(c.functions, 0x1_0000_0000, FitsFunction) && FitsMany(c.classes, 0x1_0000_0000, FitsClass)
    && FitsMany(c.interfaces, 0x1_0000_0000, FitsInterface) && FitsMany(c.exports, 0x1_0000, FitsExport)
    && FitsMany(c.embeds, 0x1_0000, FitsEmbed) && FitsMap(c.moduleAliases, FitsString)
    && FitsMap(c.fromImports, FitsString) && FitsMap(c.typeAliasDeps, FitsString)
  }

  // ----- what comes back: match names in lower case, and lists about fields filled up

  function Padded<T>(xs: seq<T>, n: nat, missing: T): (r: seq<T>)
    ensures |r| == n
  {
    seq(n, i requires 0 <= i < n => At(xs, i, missing))
  }

  /** No two keys are the same in lower case. */
  predicate Distinct<V>(m: map<Bytes, V>) { forall j, k :: j in m && k in m && Lower(j) == Lower(k) ==> j == k }

  function LowerKeys<V>(m: map<Bytes, V>): map<Bytes, V>
    requires Distinct(m)
  {
    map k | k in m :: Lower(k) := m[k]
  }

  function FunctionRead(f: FunctionInfo): FunctionInfo { f.(paramNames := LowerAll(f.paramNames)) }

  predicate ClashFreeClass(c: ClassInfo) { Distinct(c.methods) && Distinct(c.staticMethods) }

  function ClassRead(c: ClassInfo): ClassInfo
    requires ClashFreeClass(c)
  {
    var n := |c.fieldNames|;
    c.(methods := LowerKeys(c.methods), staticMethods := LowerKeys(c.staticMethods),
       fieldDefaults := Padded(c.fieldDefaults, n, 0), fieldDefaultFuncs := Padded(c.fieldDefaultFuncs, n, -1),
       fieldTypes := Padded(c.fieldTypes, n, []), fieldCheckTypes := Padded(c.fieldCheckTypes, n, []),
       fieldDocs := Padded(c.fieldDocs, n, []))
  }

  function InterfaceRead(i: InterfaceInfo): InterfaceInfo {
    i.(fieldTypes := Padded(i.fieldTypes, |i.fields|, []))
  }

  predicate ClashFree(c: Chunk) { forall i :: 0 <= i < |c.classes| ==> ClashFreeClass(c.classes[i]) }

  function ChunkRead(c: Chunk): Chunk
    requires ClashFree(c)
  {
    c.(functions := Column(c.functions, FunctionRead), interfaces := Column(c.interfaces, InterfaceRead),
       classes := seq(|c.classes|, i requires 0 <= i < |c.classes| => ClassRead(c.classes[i])))
  }
}
