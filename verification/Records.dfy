/** A compiled chunk, as far as its binary form goes. */
module Records {
  import opened Wire
  import Syntax

  type Names = seq<Bytes>

  /** An integer with less than 2^32 characters. */
  type Number = n: int | |Printed(n)| < 0x1_0000_0000

  type Option<+T> = Syntax.Option<T>

  datatype Scalar =
    | Null | Bool(b: bool) | Int(n: Number) | Str(text: Bytes)
    | Decimal(fraction: Bytes)          // as its fraction is written
    | Float(bits: Int64)

  /** An argument of a decorator. A dict or set is given in the order of this printing. */
  datatype Arg =
    | Simple(s: Scalar) | List(items: seq<Arg>) | Dict(entries: seq<Pair>) | Set(items: seq<Arg>)
    | Opaque                            // any other value: it cannot be printed

  datatype Pair = Pair(key: Arg, value: Arg)

  datatype Decorator = Decorator(
    name: Bytes, target: Bytes, position: Int64, overload: Int64, args: seq<Arg>, namedArgs: map<Bytes, Arg>,
    line: Int64, column: Int64)

  type Decorators = seq<Decorator>

  datatype Parameter = Parameter(name: Bytes, typ: Bytes, variadic: bool, hasDefault: bool, decorators: Decorators)

  datatype FunctionMetadata = FunctionMetadata(
    name: Bytes, target: Bytes, doc: Bytes, typeParameters: Names, parameters: seq<Parameter>, returnType: Bytes,
    async: bool, variadic: bool, decorators: Decorators)

  datatype ClassMetadata = ClassMetadata(
    name: Bytes, doc: Bytes, parent: Bytes, fields: Names, methods: Names, staticMethods: Names, interfaces: Names)

  datatype Variant = Variant(name: Bytes, fieldCount: int, backing: Option<Arg>)

  datatype Constant =
    | Literal(s: Scalar)
    | Target(target: Bytes, function_: Option<FunctionMetadata>, class_: Option<ClassMetadata>, decorators: Decorators)
    | Enum(name: Bytes, home: Bytes, backingType: Bytes, variants: seq<Variant>, implements: Names,
           methodIndices: map<Bytes, seq<Int64>>)
    | TypeName(name: Bytes)
    | ClassRef(name: Bytes, doc: Bytes, index: Int64, decorators: Decorators,
               methodDecorators: map<Bytes, Decorators>, staticDecorators: map<Bytes, Decorators>)
    | EmptyDict | EmptyList | EmptySet
    | Binary(bytes: Bytes)
    | Pending
    | Foreign                           // a filled dict, list or set, or any other value: it cannot be printed

  datatype Instruction = Instruction(op: Byte, line: int, column: Word16, operands: seq<Int64>)

  datatype FunctionInfo = FunctionInfo(
    name: Bytes, doc: Bytes, typeParameters: Names, typeParamConstraintExprs: Names, entry: Int64,
    paramNames: Names, paramDisplayNames: Names, paramSlots: seq<Int64>, paramTypes: Names, paramDisplayTypes: Names,
    paramDecorators: seq<Decorators>, returnType: Bytes, returnCheckType: Bytes, defaultConstants: seq<Int64>,
    upvalueCount: Int64, localCount: Int64, variadic: bool, async: bool, isGenerator: bool, sharesParentFrame: bool,
    defLine: Int64, defColumn: Int64, decorators: Decorators)

  /** The lists about fields run parallel to fieldNames; all but fieldDefaults may be shorter. */
  datatype ClassInfo = ClassInfo(
    name: Bytes, doc: Bytes, parentIndex: Int64, parentName: Bytes, parentArguments: Names, typeParameters: Names,
    typeParamConstraintExprs: Names, fieldNames: Names, fieldTypes: Names, fieldCheckTypes: Names, fieldDocs: Names,
    fieldDecorators: seq<Decorators>, fieldDefaults: seq<Int64>, fieldDefaultFuncs: seq<Int64>,
    constructorIndices: seq<Int64>, destructorIndex: Int64, methods: map<Bytes, seq<Int64>>,
    staticValues: map<Bytes, Int64>, staticTypes: map<Bytes, Bytes>, staticMethods: map<Bytes, seq<Int64>>,
    implements: Names, decorators: Decorators, methodDecorators: map<Bytes, Decorators>,
    staticDecorators: map<Bytes, Decorators>, immutable_: bool, immutableFields: Names, defLine: Int64,
        defColumn: Int64)

  datatype InterfaceInfo = InterfaceInfo(
    name: Bytes, doc: Bytes, typeParameters: Names, parents: Names, methods: seq<FunctionMetadata>,
    defaults: map<Bytes, Int64>, fields: Names, fieldTypes: Names)

  datatype Export = Export(
    name: Bytes, slot: Int64, functionIndex: Int64, classIndex: Int64, interfaceIndex: Int64,
    overloadIndices: seq<Int64>)

  datatype Embed = Embed(path: Bytes, hash: Hash)

  datatype Chunk = Chunk(
    sourceHash: Hash, compiler: Bytes, constants: seq<Constant>, instructions: seq<Instruction>,
    functions: seq<FunctionInfo>, classes: seq<ClassInfo>, interfaces: seq<InterfaceInfo>, exports: seq<Export>,
    topLevelLocalCount: Int64, globalCount: Int64, globalNames: Names, embeds: seq<Embed>,
    moduleAliases: map<Bytes, Bytes>, fromImports: map<Bytes, Bytes>, typeAliasDeps: map<Bytes, Bytes>)

  /** "GEBBC" */
  const MAGIC: Bytes := [71, 69, 66, 66, 67]
  const VERSION := 92

  /** One field of a class, as it is printed. */
  datatype Field = Field(name: Bytes, default_: Int64, defaultFunc: Int64, typ: Bytes, checkType: Bytes, doc: Bytes)

  /** An entry of a list that may be too short. */
  function At<T>(xs: seq<T>, i: nat, missing: T): T { if i < |xs| then xs[i] else missing }

  /** What is printed of a class's fields: for a missing entry -1 or "". */
  function Rows(c: ClassInfo): (r: seq<Field>)
    ensures |r| == |c.fieldNames|
  {
    seq(|c.fieldNames|, i requires 0 <= i < |c.fieldNames| =>
      Field(c.fieldNames[i], At(c.fieldDefaults, i, 0), At(c.fieldDefaultFuncs, i, -1), At(c.fieldTypes, i, []),
            At(c.fieldCheckTypes, i, []), At(c.fieldDocs, i, [])))
  }

  function InterfaceRows(i: InterfaceInfo): (r: seq<(Bytes, Bytes)>)
    ensures |r| == |i.fields|
  {
    seq(|i.fields|, k requires 0 <= k < |i.fields| => (i.fields[k], At(i.fieldTypes, k, [])))
  }

  // ----- the text of numbers

  function DigitsOf(n: nat): Bytes {
    if n < 10 then [48 + n] else DigitsOf(n / 10) + [48 + n % 10]
  }

  /** A number as it is printed. */
  function Printed(n: int): Bytes { if n < 0 then [45] + DigitsOf(-n) else DigitsOf(n) }

  /** The value of a digit: 0 to 9, then letters of either case. */
  function DigitValue(b: Byte): nat {
    if 48 <= b <= 57 then b - 48
    else if 97 <= b <= 122 then b - 87
    else if 65 <= b <= 90 then b - 55
    else 36
  }

  function ParseDigits(text: Bytes, base: nat): Result<nat>
    decreases |text|
  {
    if text == [] then Ok(0) else
      var n :- ParseDigits(text[..|text| - 1], base);
      var d := DigitValue(text[|text| - 1]);
      if d < base then Ok(base * n + d) else Bad
  }

  function ParseSigned(text: Bytes, base: nat): Result<int> {
    if text == [] then Bad
    else if text[0] == 45 || text[0] == 43 then
      if |text| == 1 then Bad else
        var n: nat :- ParseDigits(text[1..], base);
        var value: int := if text[0] == 45 then -(n as int) else n;
        Ok(value)
    else
      var n :- ParseDigits(text, base);
      Ok(n)
  }

  /** The text without underscores. */
  function Plain(text: Bytes): Bytes
    decreases |text|
  {
    if text == [] then [] else
      Plain(text[..|text| - 1]) + if text[|text| - 1] == 95 then [] else [text[|text| - 1]]
  }

  /** An integer literal: underscores are skipped, and 0b, 0o and 0x give the base. */
  function ParseInt(text: Bytes): Result<int> {
    var digits := Plain(text);
    if |digits| > 2 && digits[0] == 48 && digits[1] in {98, 66} then ParseSigned(digits[2..], 2)
    else if |digits| > 2 && digits[0] == 48 && digits[1] in {111, 79} then ParseSigned(digits[2..], 8)
    else if |digits| > 2 && digits[0] == 48 && digits[1] in {120, 88} then ParseSigned(digits[2..], 16)
    else ParseSigned(digits, 10)
  }

  predicate Decimals(t: Bytes) { forall i :: 0 <= i < |t| ==> 48 <= t[i] <= 57 }

  /** Digits only, and no 0 in front of others. */
  lemma {:induction false} DigitsText(n: nat)
    ensures
      var t := DigitsOf(n);
      |t| > 0 && Decimals(t) && (n > 0 ==> t[0] != 48) && (n == 0 ==> |t| == 1)
  {
    if n >= 10 { DigitsText(n / 10); }
  }

  lemma {:induction false} DigitsBack(n: nat)
    ensures ParseDigits(DigitsOf(n), 10) == Ok(n)
  {
    hide Plain;
    if n < 10 {
      OneDigit([], 10, 0, n);
      assert [] + [(48 + n) as Byte] == DigitsOf(n);
    } else {
      DigitsBack(n / 10);
      OneDigit(DigitsOf(n / 10), 10, n / 10, n % 10);
    }
  }

  lemma OneDigit(t: Bytes, base: nat, n: nat, d: nat)
    requires d < base && d < 10 && ParseDigits(t, base) == Ok(n)
    ensures ParseDigits(t + [48 + d], base) == Ok(base * n + d)
  {
    hide DigitsOf, Plain;
    var u: Bytes := t + [48 + d];
    assert u[..|u| - 1] == t && u[|u| - 1] == 48 + d;
  }

  lemma {:induction false} PlainDigits(t: Bytes)
    requires forall i :: 0 <= i < |t| ==> t[i] != 95
    ensures Plain(t) == t
    decreases |t|
  {
    hide DigitsOf, ParseDigits;
    if t != [] { PlainDigits(t[..|t| - 1]); }
  }

  lemma PrintedBack(n: int)
    ensures ParseInt(Printed(n)) == Ok(n)
  {
    hide DigitsOf, ParseDigits, Plain;
    var m := if n < 0 then -n else n;
    DigitsText(m);
    DigitsBack(m);
    PlainDigits(Printed(n));
    if n < 0 { assert Printed(n)[1..] == DigitsOf(m); }
  }

  // ----- lower case

  function LowerByte(b: Byte): Byte { if 65 <= b <= 90 then b + 32 else b }

  function Lower(s: Bytes): (r: Bytes)
    ensures |r| == |s|
  {
    seq(|s|, i requires 0 <= i < |s| => LowerByte(s[i]))
  }

  function LowerAll(ss: Names): (r: Names)
    ensures |r| == |ss|
  {
    seq(|ss|, i requires 0 <= i < |ss| => Lower(ss[i]))
  }
}
