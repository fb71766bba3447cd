/** The parser of a chunk: what is found at a position, field after field. */
module Parsing {
  import opened Wire
  import opened Records

  function Octet(data: Bytes, pos: nat): Found<Byte> {
    Limits(data, pos);
    var (n, pos) :- Word(data, pos, 1);
    Ok((n, pos))
  }

  function Short(data: Bytes, pos: nat): Found<Word16> {
    Limits(data, pos);
    var (n, pos) :- Word(data, pos, 2);
    Ok((n, pos))
  }

  lemma Limits(data: Bytes, pos: nat)
    ensures Word(data, pos, 1).Ok? ==> Word(data, pos, 1).value.0 < 256
    ensures Word(data, pos, 2).Ok? ==> Word(data, pos, 2).value.0 < 0x1_0000
  {
    WordStays(data, [], pos, 1);
    WordStays(data, [], pos, 2);
    Rooms();
  }

  // ----- maps: a later entry replaces an earlier one

  function Inserted<V>(entries: seq<(Bytes, V)>): map<Bytes, V>
    decreases |entries|
  {
    if entries == [] then map[] else
      var e := entries[|entries| - 1];
      Inserted(entries[..|entries| - 1])[e.0 := e.1]
  }

  function ReadTable<V>(read: Reader<(Bytes, V)>, data: Bytes, pos: nat): Found<map<Bytes, V>> {
    var (entries, pos) :- ReadList(read, 2, data, pos);
    Ok((Inserted(entries), pos))
  }

  function NamedLong(data: Bytes, pos: nat): Found<(Bytes, Int64)> {
    var (name, pos) :- String(data, pos);
    var (n, pos) :- Long(data, pos);
    Ok(((name, n), pos))
  }

  function NamedLongs(data: Bytes, pos: nat): Found<(Bytes, seq<Int64>)> {
    var (name, pos) :- String(data, pos);
    var (ns, pos) :- Longs(data, pos);
    Ok(((name, ns), pos))
  }

  /** The name is read in lower case. */
  function LowerNamedLongs(data: Bytes, pos: nat): Found<(Bytes, seq<Int64>)> {
    var (name, pos) :- String(data, pos);
    var (ns, pos) :- Longs(data, pos);
    Ok(((Lower(name), ns), pos))
  }

  function NamedString(data: Bytes, pos: nat): Found<(Bytes, Bytes)> {
    var (name, pos) :- String(data, pos);
    var (s, pos) :- String(data, pos);
    Ok(((name, s), pos))
  }

  // ----- decorators

  function ReadScalar(tag: nat, data: Bytes, pos: nat): Found<Scalar> {
    match tag
    case 0 => Ok((Null, pos))
    case 1 =>
      var (b, pos) :- Flag(data, pos);
      Ok((Bool(b), pos))
    case 2 =>
      var (text, pos) :- Text(data, pos, 4);
      var n :- ParseInt(text);
      if |Printed(n)| < 0x1_0000_0000 then Ok((Int(n), pos)) else Bad
    case 3 =>
      var (text, pos) :- Text(data, pos, 4);
      Ok((Str(text), pos))
    case 4 =>
      var (text, pos) :- Text(data, pos, 4);
      Ok((Decimal(text), pos))
    case 5 =>
      var (bits, pos) :- Long(data, pos);
      Ok((Float(bits), pos))
    case _ => Bad
  }

  function Left(data: Bytes, pos: nat): nat { if pos <= |data| then |data| - pos else 0 }

  function ReadArg(data: Bytes, pos: nat): (r: Found<Arg>)
    ensures r.Ok? ==> pos < r.value.1
    decreases Left(data, pos), 0
  {
    var (tag, next) :- Word(data, pos, 1);
    match tag
    case 7 =>
      var (n, next) :- Word(data, next, 2);
      var (items, next) :- ReadArgs(data, next, n);
      Ok((List(items), next))
    case 8 =>
      var (n, next) :- Word(data, next, 2);
      var (entries, next) :- ReadPairs(data, next, n);
      Ok((Dict(entries), next))
    case 9 =>
      var (n, next) :- Word(data, next, 2);
      var (items, next) :- ReadArgs(data, next, n);
      Ok((Set(items), next))
    case _ =>
      var (s, next) :- ReadScalar(tag, data, next);
      Ok((Simple(s), next))
  }

  function ReadArgs(data: Bytes, pos: nat, n: nat): (r: Found<seq<Arg>>)
    ensures r.Ok? ==> pos <= r.value.1
    decreases Left(data, pos), 1, n
  {
    if n == 0 then Ok(([], pos)) else
      var (args, next) :- ReadArgs(data, pos, n - 1);
      var (arg, next) :- ReadArg(data, next);
      Ok((args + [arg], next))
  }

  function ReadPairs(data: Bytes, pos: nat, n: nat): (r: Found<seq<Pair>>)
    ensures r.Ok? ==> pos <= r.value.1
    decreases Left(data, pos), 1, n
  {
    if n == 0 then Ok(([], pos)) else
      var (entries, next) :- ReadPairs(data, pos, n - 1);
      var (key, next) :- ReadArg(data, next);
      var (value, next) :- ReadArg(data, next);
      Ok((entries + [Pair(key, value)], next))
  }

  function ReadNamedArg(data: Bytes, pos: nat): Found<(Bytes, Arg)> {
    var (name, pos) :- String(data, pos);
    var (arg, pos) :- ReadArg(data, pos);
    Ok(((name, arg), pos))
  }

  function ReadDecorator(data: Bytes, pos: nat): Found<Decorator> {
    var (name, pos) :- String(data, pos);
    var (target, pos) :- String(data, pos);
    var (position, pos) :- Long(data, pos);
    var (overload, pos) :- Long(data, pos);
    var (line, pos) :- Long(data, pos);
    var (column, pos) :- Long(data, pos);
    var (n, pos) :- Word(data, pos, 2);
    var (args, pos) :- ReadArgs(data, pos, n);
    var (namedArgs, pos) :- ReadTable(ReadNamedArg, data, pos);
    Ok((Decorator(name, target, position, overload, args, namedArgs, line, column), pos))
  }

  function ReadDecorators(data: Bytes, pos: nat): Found<Decorators> { ReadList(ReadDecorator, 2, data, pos) }

  function ReadDecoratorLists(data: Bytes, pos: nat): Found<seq<Decorators>> { ReadList(ReadDecorators, 2, data, pos) }

  function ReadNamedDecorators(data: Bytes, pos: nat): Found<(Bytes, Decorators)> {
    var (name, pos) :- String(data, pos);
    var (decorators, pos) :- ReadDecorators(data, pos);
    Ok(((name, decorators), pos))
  }

  function ReadDecoratorMap(data: Bytes, pos: nat): Found<map<Bytes, Decorators>> {
    ReadTable(ReadNamedDecorators, data, pos)
  }

  // ----- metadata

  function ReadParameter(data: Bytes, pos: nat): Found<Parameter> {
    var (name, pos) :- String(data, pos);
    var (typ, pos) :- String(data, pos);
    var (variadic, pos) :- Flag(data, pos);
    var (hasDefault, pos) :- Flag(data, pos);
    var (decorators, pos) :- ReadDecorators(data, pos);
    Ok((Parameter(name, typ, variadic, hasDefault, decorators), pos))
  }

  function ReadFunctionMetadata(data: Bytes, pos: nat): Found<Option<FunctionMetadata>> {
    var (present, pos) :- Flag(data, pos);
    if !present then Ok((Option.None, pos)) else
      var (name, pos) :- String(data, pos);
      var (target, pos) :- String(data, pos);
      var (doc, pos) :- String(data, pos);
      var (returnType, pos) :- String(data, pos);
      var (typeParameters, pos) :- Strings(data, pos);
      var (async, pos) :- Flag(data, pos);
      var (variadic, pos) :- Flag(data, pos);
      var (parameters, pos) :- ReadList(ReadParameter, 2, data, pos);
      var (decorators, pos) :- ReadDecorators(data, pos);
      var m := FunctionMetadata(name, target, doc, typeParameters, parameters, returnType, async, variadic, decorators);
      Ok((Option.Some(m), pos))
  }

  function ReadClassMetadata(data: Bytes, pos: nat): Found<Option<ClassMetadata>> {
    var (present, pos) :- Flag(data, pos);
    if !present then Ok((Option.None, pos)) else
      var (name, pos) :- String(data, pos);
      var (doc, pos) :- String(data, pos);
      var (parent, pos) :- String(data, pos);
      var (fields, pos) :- Strings(data, pos);
      var (methods, pos) :- Strings(data, pos);
      var (staticMethods, pos) :- Strings(data, pos);
      var (interfaces, pos) :- Strings(data, pos);
      Ok((Option.Some(ClassMetadata(name, doc, parent, fields, methods, staticMethods, interfaces)), pos))
  }

  // ----- the parts of a chunk

  function ReadVariant(data: Bytes, pos: nat): Found<Variant> {
    var (name, pos) :- String(data, pos);
    var (fieldCount, pos) :- Word(data, pos, 2);
    var (backed, pos) :- Flag(data, pos);
    if !backed then Ok((Variant(name, fieldCount, Option.None), pos)) else
      var (backing, pos) :- ReadArg(data, pos);
      Ok((Variant(name, fieldCount, Option.Some(backing)), pos))
  }

  function ReadTarget(data: Bytes, pos: nat): Found<Constant> {
    var (target, pos) :- String(data, pos);
    var (function_, pos) :- ReadFunctionMetadata(data, pos);
    var (class_, pos) :- ReadClassMetadata(data, pos);
    var (decorators, pos) :- ReadDecorators(data, pos);
    Ok((Target(target, function_, class_, decorators), pos))
  }

  function ReadEnum(data: Bytes, pos: nat): Found<Constant> {
    var (name, pos) :- String(data, pos);
    var (home, pos) :- String(data, pos);
    var (backingType, pos) :- String(data, pos);
    var (variants, pos) :- ReadList(ReadVariant, 2, data, pos);
    var (implements, pos) :- Strings(data, pos);
    var (methodIndices, pos) :- ReadTable(NamedLongs, data, pos);
    Ok((Enum(name, home, backingType, variants, implements, methodIndices), pos))
  }

  function ReadClassRef(data: Bytes, pos: nat): Found<Constant> {
    var (name, pos) :- String(data, pos);
    var (doc, pos) :- String(data, pos);
    var (index, pos) :- Long(data, pos);
    var (decorators, pos) :- ReadDecorators(data, pos);
    var (methodDecorators, pos) :- ReadDecoratorMap(data, pos);
    var (staticDecorators, pos) :- ReadDecoratorMap(data, pos);
    Ok((ClassRef(name, doc, index, decorators, methodDecorators, staticDecorators), pos))
  }

  function ReadConstant(data: Bytes, pos: nat): Found<Constant> {
    var (tag, pos) :- Word(data, pos, 1);
    match tag
    case 6 => ReadTarget(data, pos)
    case 7 => ReadEnum(data, pos)
    case 8 =>
      var (name, pos) :- String(data, pos);
      Ok((TypeName(name), pos))
    case 9 => ReadClassRef(data, pos)
    case 10 => Ok((EmptyDict, pos))
    case 11 => Ok((EmptyList, pos))
    case 12 => Ok((EmptySet, pos))
    case 13 =>
      var (bytes, pos) :- Text(data, pos, 4);
      Ok((Binary(bytes), pos))
    case 14 => Ok((Pending, pos))
    case _ =>
      var (s, pos) :- ReadScalar(tag, data, pos);
      Ok((Literal(s), pos))
  }

  function ReadInstruction(data: Bytes, pos: nat): Found<Instruction> {
    var (op, pos) :- Octet(data, pos);
    var (line, pos) :- Word(data, pos, 2);
    var (column, pos) :- Short(data, pos);
    var (operands, pos) :- Longs(data, pos);
    Ok((Instruction(op, line, column, operands), pos))
  }

  function ReadFunction(data: Bytes, pos: nat): Found<FunctionInfo> {
    var (name, pos) :- String(data, pos);
    var (doc, pos) :- String(data, pos);
    var (typeParameters, pos) :- Strings(data, pos);
    var (typeParamConstraintExprs, pos) :- Strings(data, pos);
    var (entry, pos) :- Long(data, pos);
    var (paramNames, pos) :- Strings(data, pos);
    var (paramDisplayNames, pos) :- Strings(data, pos);
    var (paramSlots, pos) :- Longs(data, pos);
    var (paramTypes, pos) :- Strings(data, pos);
    var (paramDisplayTypes, pos) :- Strings(data, pos);
    var (paramDecorators, pos) :- ReadDecoratorLists(data, pos);
    var (returnType, pos) :- String(data, pos);
    var (returnCheckType, pos) :- String(data, pos);
    var (defaultConstants, pos) :- Longs(data, pos);
    var (upvalueCount, pos) :- Long(data, pos);
    var (localCount, pos) :- Long(data, pos);
    var (variadic, pos) :- Flag(data, pos);
    var (async, pos) :- Flag(data, pos);
    var (isGenerator, pos) :- Flag(data, pos);
    var (sharesParentFrame, pos) :- Flag(data, pos);
    var (defLine, pos) :- Long(data, pos);
    var (defColumn, pos) :- Long(data, pos);
    var (decorators, pos) :- ReadDecorators(data, pos);
    Ok((FunctionInfo(
          name, doc, typeParameters, typeParamConstraintExprs, entry, LowerAll(paramNames), paramDisplayNames,
          paramSlots, paramTypes, paramDisplayTypes, paramDecorators, returnType, returnCheckType, defaultConstants,
          upvalueCount, localCount, variadic, async, isGenerator, sharesParentFrame, defLine, defColumn, decorators),
        pos))
  }

  function ReadField(data: Bytes, pos: nat): Found<Field> {
    var (name, pos) :- String(data, pos);
    var (default_, pos) :- Long(data, pos);
    var (defaultFunc, pos) :- Long(data, pos);
    var (typ, pos) :- String(data, pos);
    var (checkType, pos) :- String(data, pos);
    var (doc, pos) :- String(data, pos);
    Ok((Field(name, default_, defaultFunc, typ, checkType, doc), pos))
  }

  function Column<T, U>(rows: seq<T>, f: T -> U): (r: seq<U>)
    ensures |r| == |rows| && forall i :: 0 <= i < |r| ==> r[i] == f(rows[i])
  {
    seq(|rows|, i requires 0 <= i < |rows| => f(rows[i]))
  }

  /** A class as its head, its tables and its tail are read one after the other. */
  datatype ClassHead = ClassHead(
    name: Bytes, doc: Bytes, parentName: Bytes, parentIndex: Int64, parentArguments: Names, typeParameters: Names,
    typeParamConstraintExprs: Names, rows: seq<Field>)

  datatype ClassTables = ClassTables(
    constructorIndices: seq<Int64>, destructorIndex: Int64, methods: map<Bytes, seq<Int64>>,
    staticValues: map<Bytes, Int64>, staticTypes: map<Bytes, Bytes>, staticMethods: map<Bytes, seq<Int64>>)

  function ReadClassHead(data: Bytes, pos: nat): Found<ClassHead> {
    var (name, pos) :- String(data, pos);
    var (doc, pos) :- String(data, pos);
    var (parentName, pos) :- String(data, pos);
    var (parentIndex, pos) :- Long(data, pos);
    var (parentArguments, pos) :- Strings(data, pos);
    var (typeParameters, pos) :- Strings(data, pos);
    var (typeParamConstraintExprs, pos) :- Strings(data, pos);
    var (rows, pos) :- ReadList(ReadField, 2, data, pos);
    var h := ClassHead(name, doc, parentName, parentIndex, parentArguments, typeParameters, typeParamConstraintExprs,
        rows);
    Ok((h, pos))
  }

  function ReadClassTables(data: Bytes, pos: nat): Found<ClassTables> {
    var (constructorIndices, pos) :- Longs(data, pos);
    var (destructorIndex, pos) :- Long(data, pos);
    var (methods, pos) :- ReadTable(LowerNamedLongs, data, pos);
    var (staticValues, pos) :- ReadTable(NamedLong, data, pos);
    var (staticTypes, pos) :- ReadTable(NamedString, data, pos);
    var (staticMethods, pos) :- ReadTable(LowerNamedLongs, data, pos);
    Ok((ClassTables(constructorIndices, destructorIndex, methods, staticValues, staticTypes, staticMethods), pos))
  }

  function ReadClass(data: Bytes, pos: nat): Found<ClassInfo> {
    var (h, pos) :- ReadClassHead(data, pos);
    var (t, pos) :- ReadClassTables(data, pos);
    var (implements, pos) :- Strings(data, pos);
    var (decorators, pos) :- ReadDecorators(data, pos);
    var (methodDecorators, pos) :- ReadDecoratorMap(data, pos);
    var (staticDecorators, pos) :- ReadDecoratorMap(data, pos);
    var (fieldDecorators, pos) :- ReadDecoratorLists(data, pos);
    var (immutable_, pos) :- Flag(data, pos);
    var (immutableFields, pos) :- Strings(data, pos);
    var (defLine, pos) :- Long(data, pos);
    var (defColumn, pos) :- Long(data, pos);
    Ok((ClassInfo(
          h.name, h.doc, h.parentIndex, h.parentName, h.parentArguments, h.typeParameters, h.typeParamConstraintExprs,
          Column(h.rows, (r: Field) => r.name), Column(h.rows, (r: Field) => r.typ),
          Column(h.rows, (r: Field) => r.checkType), Column(h.rows, (r: Field) => r.doc), fieldDecorators,
          Column(h.rows, (r: Field) => r.default_), Column(h.rows, (r: Field) => r.defaultFunc),
          t.constructorIndices, t.destructorIndex, t.methods, t.staticValues, t.staticTypes, t.staticMethods,
          implements, decorators, methodDecorators, staticDecorators, immutable_, immutableFields, defLine, defColumn),
        pos))
  }

  /** Those that are there. */
  function Kept<T>(xs: seq<Option<T>>): (r: seq<T>)
    ensures |r| <= |xs|
    decreases |xs|
  {
    if xs == [] then [] else
      Kept(xs[..|xs| - 1]) + if xs[|xs| - 1].None? then [] else [xs[|xs| - 1].value]
  }

  function InterfaceOf(name: Bytes, doc: Bytes, typeParameters: Names, parents: Names, methods: seq<FunctionMetadata>,
                       defaults: map<Bytes, Int64>, rows: seq<(Bytes, Bytes)>): (i: InterfaceInfo)
    ensures InterfaceRows(i) == rows
  {
    InterfaceInfo(name, doc, typeParameters, parents, methods, defaults,
                  Column(rows, (r: (Bytes, Bytes)) => r.0), Column(rows, (r: (Bytes, Bytes)) => r.1))
  }

  function ReadInterface(data: Bytes, pos: nat): Found<InterfaceInfo> {
    var (name, pos) :- String(data, pos);
    var (doc, pos) :- String(data, pos);
    var (typeParameters, pos) :- Strings(data, pos);
    var (parents, pos) :- Strings(data, pos);
    var (methods, pos) :- ReadList(ReadFunctionMetadata, 2, data, pos);
    var (defaults, pos) :- ReadTable(NamedLong, data, pos);
    var (rows, pos) :- ReadList(NamedString, 2, data, pos);
    Ok((InterfaceOf(name, doc, typeParameters, parents, Kept(methods), defaults, rows), pos))
  }

  function ReadExport(data: Bytes, pos: nat): Found<Export> {
    var (name, pos) :- String(data, pos);
    var (slot, pos) :- Long(data, pos);
    var (functionIndex, pos) :- Long(data, pos);
    var (classIndex, pos) :- Long(data, pos);
    var (interfaceIndex, pos) :- Long(data, pos);
    var (overloadIndices, pos) :- Longs(data, pos);
    Ok((Export(name, slot, functionIndex, classIndex, interfaceIndex, overloadIndices), pos))
  }

  function ReadHash(data: Bytes, pos: nat): Found<Hash> { Take(data, pos, 32) }

  function ReadEmbed(data: Bytes, pos: nat): Found<Embed> {
    var (path, pos) :- String(data, pos);
    var (hash, pos) :- ReadHash(data, pos);
    Ok((Embed(path, hash), pos))
  }

  // ----- the chunk

  datatype ChunkHead = ChunkHead(
    sourceHash: Hash, compiler: Bytes, topLevelLocalCount: Int64, globalCount: Int64, globalNames: Names)

  datatype Code = Code(
    constants: seq<Constant>, instructions: seq<Instruction>, functions: seq<FunctionInfo>, classes: seq<ClassInfo>,
    interfaces: seq<InterfaceInfo>)

  function ReadChunkHead(data: Bytes, pos: nat): Found<ChunkHead> {
    var (magic, pos) :- Take(data, pos, |MAGIC|);
    if magic != MAGIC then Bad else
      var (version, pos) :- Word(data, pos, 2);
      if version != VERSION then Bad else
        var (sourceHash, pos) :- ReadHash(data, pos);
        var (compiler, pos) :- String(data, pos);
        var (topLevelLocalCount, pos) :- Long(data, pos);
        var (globalCount, pos) :- Long(data, pos);
        var (globalNames, pos) :- ReadList(String, 4, data, pos);
        Ok((ChunkHead(sourceHash, compiler, topLevelLocalCount, globalCount, globalNames), pos))
  }

  function ReadCode(data: Bytes, pos: nat): Found<Code> {
    var (constants, pos) :- ReadList(ReadConstant, 4, data, pos);
    var (instructions, pos) :- ReadList(ReadInstruction, 4, data, pos);
    var (functions, pos) :- ReadList(ReadFunction, 4, data, pos);
    var (classes, pos) :- ReadList(ReadClass, 4, data, pos);
    var (interfaces, pos) :- ReadList(ReadInterface, 4, data, pos);
    Ok((Code(constants, instructions, functions, classes, interfaces), pos))
  }

  function ReadChunk(data: Bytes, pos: nat): Found<Chunk> {
    var (h, pos) :- ReadChunkHead(data, pos);
    var (code, pos) :- ReadCode(data, pos);
    var (exports, pos) :- ReadList(ReadExport, 2, data, pos);
    var (embeds, pos) :- ReadList(ReadEmbed, 2, data, pos);
    var (moduleAliases, pos) :- ReadTable(NamedString, data, pos);
    var (fromImports, pos) :- ReadTable(NamedString, data, pos);
    var (typeAliasDeps, pos) :- ReadTable(NamedString, data, pos);
    Ok((Chunk(
          h.sourceHash, h.compiler, code.constants, code.instructions, code.functions, code.classes, code.interfaces,
          exports, h.topLevelLocalCount, h.globalCount, h.globalNames, embeds, moduleAliases, fromImports,
              typeAliasDeps),
        pos))
  }

  /** A file is read when a chunk fills it to its last byte. */
  function Parse(data: Bytes): Result<Chunk> {
    var (chunk, pos) :- ReadChunk(data, 0);
    if pos == |data| then Ok(chunk) else Bad
  }
}
