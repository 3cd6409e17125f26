/** The WebAssembly binary format, as far as the back end uses it: LEB128 integers,
    instructions and expressions, and modules with a single function. Decoding follows
    chapter 5 of the WebAssembly Core Specification 1.0. */
module WasmBinary {
  import opened Wrappers
  import opened Slices
  import opened WasmMachine

  type Byte = n: int | 0 <= n < 256

  // ----- integers -----

  datatype Num = Num(value: int, next: nat)

  /** An unsigned LEB128 integer of at most left bytes. */
  function Unsigned(b: seq<Byte>, pos: nat, left: nat): (r: Option<Num>)
    ensures r.Some? ==> pos < r.value.next <= |b| && r.value.value >= 0
    decreases left
  {
    if left == 0 || pos >= |b| then None
    else if b[pos] < 128 then Some(Num(b[pos], pos + 1))
    else
      match Unsigned(b, pos + 1, left - 1)
      case None => None
      case Some(n) => Some(Num(b[pos] as int - 128 + 128 * n.value, n.next))
  }

  /** A signed LEB128 integer: bit 6 of the last byte is the sign. */
  function Signed(b: seq<Byte>, pos: nat, left: nat): (r: Option<Num>)
    ensures r.Some? ==> pos < r.value.next <= |b|
    decreases left
  {
    if left == 0 || pos >= |b| then None
    else if b[pos] < 64 then Some(Num(b[pos], pos + 1))
    else if b[pos] < 128 then Some(Num(b[pos] as int - 128, pos + 1))
    else
      match Signed(b, pos + 1, left - 1)
      case None => None
      case Some(n) => Some(Num(b[pos] as int - 128 + 128 * n.value, n.next))
  }

  // ----- instructions -----

  function BinByte(op: BinOp): Byte {
    match op
    case ADD => 0x7c
    case SUB => 0x7d
    case MUL => 0x7e
    case AND => 0x83
    case OR => 0x84
    case XOR => 0x85
    case SHRS => 0x87
    case SHRU => 0x88
    case ROTR => 0x8a
    case ADD32 => 0x6a
    case SUB32 => 0x6b
  }

  function UnByte(op: UnOp): Byte {
    match op
    case EQZ => 0x50
    case WRAP => 0xa7
  }

  function ParseBin(op: Byte): Option<BinOp> {
    match op
    case 0x7c => Some(ADD)
    case 0x7d => Some(SUB)
    case 0x7e => Some(MUL)
    case 0x83 => Some(AND)
    case 0x84 => Some(OR)
    case 0x85 => Some(XOR)
    case 0x87 => Some(SHRS)
    case 0x88 => Some(SHRU)
    case 0x8a => Some(ROTR)
    case 0x6a => Some(ADD32)
    case 0x6b => Some(SUB32)
    case _ => None
  }

  datatype ParsedIsn = ParsedIsn(isn: Isn, next: nat)

  /** The alignment of an access must not exceed its width of eight bytes. */
  function ParseAccess(b: seq<Byte>, pos: nat, load: bool): (r: Option<ParsedIsn>)
    ensures r.Some? ==> pos < r.value.next <= |b|
  {
    match Unsigned(b, pos, 5)
    case None => None
    case Some(align) =>
      match Unsigned(b, align.next, 5)
      case None => None
      case Some(off) =>
        if align.value > 3 || off.value >= TWO_32 then None
        else if load then Some(ParsedIsn(Load(align.value, off.value), off.next))
        else Some(ParsedIsn(Store(align.value, off.value), off.next))
  }

  function ParseVariable(b: seq<Byte>, pos: nat, op: Byte): (r: Option<ParsedIsn>)
    ensures r.Some? ==> pos < r.value.next <= |b|
  {
    match Unsigned(b, pos, 5)
    case None => None
    case Some(x) =>
      if op == 0x20 then Some(ParsedIsn(Get(x.value), x.next))
      else if op == 0x21 then Some(ParsedIsn(Set(x.value), x.next))
      else Some(ParsedIsn(Tee(x.value), x.next))
  }

  function ParseConst(b: seq<Byte>, pos: nat, wide: bool): (r: Option<ParsedIsn>)
    ensures r.Some? ==> pos < r.value.next <= |b|
  {
    match Signed(b, pos, if wide then 10 else 5)
    case None => None
    case Some(v) => Some(ParsedIsn(if wide then Const64(v.value) else Const32(v.value), v.next))
  }

  function ParseIsn(b: seq<Byte>, pos: nat): (r: Option<ParsedIsn>)
    requires pos < |b|
    ensures r.Some? ==> pos < r.value.next <= |b|
  {
    var op := b[pos];
    if op == 0x20 || op == 0x21 || op == 0x22 then ParseVariable(b, pos + 1, op)
    else if op == 0x29 || op == 0x37 then ParseAccess(b, pos + 1, op == 0x29)
    else if op == 0x41 || op == 0x42 then ParseConst(b, pos + 1, op == 0x42)
    else if op == 0x50 then Some(ParsedIsn(Un(EQZ), pos + 1))
    else if op == 0xa7 then Some(ParsedIsn(Un(WRAP), pos + 1))
    else
      match ParseBin(op)
      case None => None
      case Some(bop) => Some(ParsedIsn(Bin(bop), pos + 1))
  }

  // ----- expressions -----

  datatype Parsed = Parsed(code: Code, next: nat)

  /** An expression up to and including its end. Blocks have the empty block type. */
  function Parse(b: seq<Byte>, pos: nat): (r: Option<Parsed>)
    ensures r.Some? ==> pos < r.value.next <= |b|
    decreases |b| - pos
  {
    if pos >= |b| then None
    else if b[pos] == 0x0b then Some(Parsed(End, pos + 1))
    else if b[pos] == 0x03 || b[pos] == 0x04 then
      if pos + 1 >= |b| || b[pos + 1] != 0x40 then None
      else
        match Parse(b, pos + 2)
        case None => None
        case Some(body) =>
          match Parse(b, body.next)
          case None => None
          case Some(rest) =>
            Some(Parsed(if b[pos] == 0x03 then Loop(body.code, rest.code) else If(body.code, rest.code), rest.next))
    else if b[pos] == 0x0c then
      match Unsigned(b, pos + 1, 5)
      case None => None
      case Some(d) =>
        match Parse(b, d.next)
        case None => None
        case Some(rest) => Some(Parsed(Br(d.value, rest.code), rest.next))
    else
      match ParseIsn(b, pos)
      case None => None
      case Some(i) =>
        match Parse(b, i.next)
        case None => None
        case Some(rest) => Some(Parsed(Do(i.isn, rest.code), rest.next))
  }

  // ----- encoding -----

  /** The shortest signed LEB128 form of a number below 2^13. */
  function SignedBytes(v: int): seq<Byte>
    requires 0 <= v < 8192
  {
    if v < 64 then [v] else [128 + v % 128, v / 128]
  }

  predicate IsnFits(i: Isn) {
    match i
    case Get(x) => x < 128
    case Set(x) => x < 128
    case Tee(x) => x < 128
    case Const32(v) => 0 <= v < 8192
    case Const64(v) => 0 <= v < 8192
    case Load(align, off) => align <= 3 && off < 128
    case Store(align, off) => align <= 3 && off < 128
    case Bin(_) => true
    case Un(_) => true
  }

  function EncodeIsn(i: Isn): (w: seq<Byte>)
    requires IsnFits(i)
    ensures |w| > 0 && w[0] != 0x0b && w[0] != 0x03 && w[0] != 0x04 && w[0] != 0x0c
  {
    match i
    case Get(x) => [0x20, x]
    case Set(x) => [0x21, x]
    case Tee(x) => [0x22, x]
    case Const32(v) => [0x41] + SignedBytes(v)
    case Const64(v) => [0x42] + SignedBytes(v)
    case Load(align, off) => [0x29, align, off]
    case Store(align, off) => [0x37, align, off]
    case Bin(op) => [BinByte(op)]
    case Un(op) => [UnByte(op)]
  }

  predicate Fits(c: Code) {
    match c
    case End => true
    case Do(i, next) => IsnFits(i) && Fits(next)
    case Loop(body, next) => Fits(body) && Fits(next)
    case If(body, next) => Fits(body) && Fits(next)
    case Br(d, next) => d < 128 && Fits(next)
  }

  function Encode(c: Code): (w: seq<Byte>)
    requires Fits(c)
    ensures |w| > 0
  {
    match c
    case End => [0x0b]
    case Do(i, next) => EncodeIsn(i) + Encode(next)
    case Loop(body, next) => [0x03, 0x40] + Encode(body) + Encode(next)
    case If(body, next) => [0x04, 0x40] + Encode(body) + Encode(next)
    case Br(d, next) => [0x0c, d] + Encode(next)
  }

  // ----- round trips -----

  lemma SignedRoundTrip(b: seq<Byte>, pos: nat, v: int, left: nat)
    requires 0 <= v < 8192 && left >= 2 && CodeAt(b, pos, SignedBytes(v))
    ensures Signed(b, pos, left) == Some(Num(v, pos + |SignedBytes(v)|))
  {
    ElementAt(b, pos, SignedBytes(v), 0);
    if v >= 64 {
      ElementAt(b, pos, SignedBytes(v), 1);
      assert Signed(b, pos + 1, left - 1) == Some(Num(v / 128, pos + 2));
    }
  }

  lemma UnsignedByte(b: seq<Byte>, pos: nat, left: nat)
    requires pos < |b| && b[pos] < 128 && left > 0
    ensures Unsigned(b, pos, left) == Some(Num(b[pos], pos + 1))
  {
  }

  lemma BinRoundTrip(op: BinOp)
    ensures ParseBin(BinByte(op)) == Some(op)
  {
  }

  /** Decoding an encoded instruction gives the instruction back. */
  lemma IsnRoundTrip(b: seq<Byte>, pos: nat, i: Isn)
    requires IsnFits(i) && CodeAt(b, pos, EncodeIsn(i))
    ensures pos < |b| && ParseIsn(b, pos) == Some(ParsedIsn(i, pos + |EncodeIsn(i)|))
  {
    hide Unsigned, Signed, SignedBytes, CodeAt;
    var w := EncodeIsn(i);
    ElementAt(b, pos, w, 0);
    match i
    case Get(x) => ElementAt(b, pos, w, 1); UnsignedByte(b, pos + 1, 5);
    case Set(x) => ElementAt(b, pos, w, 1); UnsignedByte(b, pos + 1, 5);
    case Tee(x) => ElementAt(b, pos, w, 1); UnsignedByte(b, pos + 1, 5);
    case Const32(v) => CodeAtPart(b, pos, [0x41], SignedBytes(v)); SignedRoundTrip(b, pos + 1, v, 5);
    case Const64(v) => CodeAtPart(b, pos, [0x42], SignedBytes(v)); SignedRoundTrip(b, pos + 1, v, 10);
    case Load(align, off) => AccessRoundTrip(b, pos, i);
    case Store(align, off) => AccessRoundTrip(b, pos, i);
    case Bin(op) => BinRoundTrip(op);
    case Un(_) =>
  }

  lemma AccessRoundTrip(b: seq<Byte>, pos: nat, i: Isn)
    requires (i.Load? || i.Store?) && IsnFits(i) && CodeAt(b, pos, EncodeIsn(i))
    ensures ParseAccess(b, pos + 1, i.Load?) == Some(ParsedIsn(i, pos + 3))
  {
    hide Unsigned, CodeAt;
    ElementAt(b, pos, EncodeIsn(i), 1);
    ElementAt(b, pos, EncodeIsn(i), 2);
    UnsignedByte(b, pos + 1, 5);
    UnsignedByte(b, pos + 2, 5);
  }

  lemma ParseDo(b: seq<Byte>, pos: nat, i: ParsedIsn, rest: Parsed)
    requires pos < |b| && b[pos] != 0x0b && b[pos] != 0x03 && b[pos] != 0x04 && b[pos] != 0x0c
    requires ParseIsn(b, pos) == Some(i) && Parse(b, i.next) == Some(rest)
    ensures Parse(b, pos) == Some(Parsed(Do(i.isn, rest.code), rest.next))
  {
    hide ParseIsn;
  }

  lemma ParseBlock(b: seq<Byte>, pos: nat, body: Parsed, rest: Parsed)
    requires pos + 1 < |b| && (b[pos] == 0x03 || b[pos] == 0x04) && b[pos + 1] == 0x40
    requires Parse(b, pos + 2) == Some(body) && Parse(b, body.next) == Some(rest)
    ensures Parse(b, pos)
            == Some(Parsed(if b[pos] == 0x03 then Loop(body.code, rest.code) else If(body.code, rest.code), rest.next))
  {
    hide ParseIsn;
  }

  lemma ParseBr(b: seq<Byte>, pos: nat, rest: Parsed)
    requires pos + 1 < |b| && b[pos] == 0x0c && b[pos + 1] < 128 && Parse(b, pos + 2) == Some(rest)
    ensures Parse(b, pos) == Some(Parsed(Br(b[pos + 1], rest.code), rest.next))
  {
    hide ParseIsn, Unsigned;
    UnsignedByte(b, pos + 1, 5);
  }

  lemma ParseEnd(b: seq<Byte>, pos: nat)
    requires pos < |b| && b[pos] == 0x0b
    ensures Parse(b, pos) == Some(Parsed(End, pos + 1))
  {
    hide ParseIsn, Unsigned;
  }

  lemma BlockRoundTrip(b: seq<Byte>, pos: nat, head: Byte, body: Code, next: Code)
    requires (head == 0x03 || head == 0x04) && Fits(body) && Fits(next)
    requires CodeAt(b, pos, [head, 0x40] + Encode(body) + Encode(next))
    ensures pos + 1 < |b| && b[pos] == head && b[pos + 1] == 0x40
    ensures CodeAt(b, pos + 2, Encode(body)) && CodeAt(b, pos + 2 + |Encode(body)|, Encode(next))
  {
    hide CodeAt, Encode;
    var h: seq<Byte> := [head, 0x40];
    CodeAtPart(b, pos, h + Encode(body), Encode(next));
    CodeAtPart(b, pos, h, Encode(body));
    ElementAt(b, pos, h, 0);
    ElementAt(b, pos, h, 1);
  }

  /** Decoding an encoded expression gives the expression back, wherever it lies. */
  lemma {:induction false} RoundTrip(b: seq<Byte>, pos: nat, c: Code)
    requires Fits(c) && CodeAt(b, pos, Encode(c))
    ensures Parse(b, pos) == Some(Parsed(c, pos + |Encode(c)|))
    decreases c
  {
    hide CodeAt, Parse, ParseIsn, IsnFits, EncodeIsn, Unsigned;
    match c
    case End =>
      ElementAt(b, pos, Encode(c), 0);
      ParseEnd(b, pos);
    case Do(i, next) =>
      CodeAtPart(b, pos, EncodeIsn(i), Encode(next));
      ElementAt(b, pos, EncodeIsn(i), 0);
      IsnRoundTrip(b, pos, i);
      var n := pos + |EncodeIsn(i)|;
      RoundTrip(b, n, next);
      ParseDo(b, pos, ParsedIsn(i, n), Parsed(next, n + |Encode(next)|));
    case Loop(body, next) =>
      BlockRoundTrip(b, pos, 0x03, body, next);
      var n := pos + 2 + |Encode(body)|;
      RoundTrip(b, pos + 2, body);
      RoundTrip(b, n, next);
      ParseBlock(b, pos, Parsed(body, n), Parsed(next, n + |Encode(next)|));
    case If(body, next) =>
      BlockRoundTrip(b, pos, 0x04, body, next);
      var n := pos + 2 + |Encode(body)|;
      RoundTrip(b, pos + 2, body);
      RoundTrip(b, n, next);
      ParseBlock(b, pos, Parsed(body, n), Parsed(next, n + |Encode(next)|));
    case Br(d, next) =>
      var head: seq<Byte> := [0x0c, d];
      CodeAtPart(b, pos, head, Encode(next));
      ElementAt(b, pos, head, 0);
      ElementAt(b, pos, head, 1);
      RoundTrip(b, pos + 2, next);
      ParseBr(b, pos, Parsed(next, pos + 2 + |Encode(next)|));
  }

  // ----- modules -----

  datatype Section = Section(start: nat, next: nat)

  function ParseSection(b: seq<Byte>, pos: nat, id: Byte): (r: Option<Section>)
    ensures r.Some? ==> pos < r.value.start <= r.value.next <= |b|
  {
    if pos >= |b| || b[pos] != id then None
    else
      match Unsigned(b, pos + 1, 5)
      case None => None
      case Some(n) => if n.next + n.value <= |b| then Some(Section(n.next, n.next + n.value)) else None
  }

  /** A section whose content is known in advance; the result is the position behind it. */
  function Expect(b: seq<Byte>, pos: nat, id: Byte, content: seq<Byte>): (r: Option<nat>)
    ensures r.Some? ==> pos < r.value <= |b|
  {
    match ParseSection(b, pos, id)
    case None => None
    case Some(s) => if b[s.start..s.next] == content then Some(s.next) else None
  }

  /** One function type: two i32 parameters and no result. */
  function TypeContent(): seq<Byte> { [0x01, 0x60, 0x02, 0x7f, 0x7f, 0x00] }

  /** One import: env.memory with a minimum of one page. */
  function ImportContent(): seq<Byte> {
    [0x01, 0x03, 0x65, 0x6e, 0x76, 0x06, 0x6d, 0x65, 0x6d, 0x6f, 0x72, 0x79, 0x02, 0x00, 0x01]
  }

  /** One function, of type 0. */
  function FunctionContent(): seq<Byte> { [0x01, 0x00] }

  /** One export: function 0 under the name exec. */
  function ExportContent(): seq<Byte> { [0x01, 0x04, 0x65, 0x78, 0x65, 0x63, 0x00, 0x00] }

  /** A function: how many i64 locals it has besides its parameters, and its body. */
  datatype Function = Function(locals: nat, body: Code)

  /** The locals and the body between pos and end; the body must end exactly there. */
  function ParseBody(b: seq<Byte>, pos: nat, end: nat): Option<Function> {
    match Unsigned(b, pos, 5)
    case None => None
    case Some(groups) =>
      match Unsigned(b, groups.next, 5)
      case None => None
      case Some(count) =>
        if groups.value != 1 || count.next >= |b| || b[count.next] != 0x7e then None
        else
          match Parse(b, count.next + 1)
          case None => None
          case Some(e) => if e.next == end then Some(Function(count.value, e.code)) else None
  }

  /** A code section with one function, which must fill it. */
  function ParseCode(b: seq<Byte>, s: Section): Option<Function> {
    match Unsigned(b, s.start, 5)
    case None => None
    case Some(count) =>
      match Unsigned(b, count.next, 5)
      case None => None
      case Some(size) =>
        if count.value == 1 && size.next + size.value == s.next then ParseBody(b, size.next, s.next) else None
  }

  function Magic(): seq<Byte> { [0x00, 0x61, 0x73, 0x6d, 0x01, 0x00, 0x00, 0x00] }

  /** A module with the five expected sections and nothing else. */
  function ParseModule(b: seq<Byte>): Option<Function> {
    if |b| < 8 || b[..8] != Magic() then None
    else
      match Expect(b, 8, 1, TypeContent())
      case None => None
      case Some(p1) =>
        match Expect(b, p1, 2, ImportContent())
        case None => None
        case Some(p2) =>
          match Expect(b, p2, 3, FunctionContent())
          case None => None
          case Some(p3) =>
            match Expect(b, p3, 7, ExportContent())
            case None => None
            case Some(p4) =>
              match ParseSection(b, p4, 10)
              case None => None
              case Some(s) => if s.next == |b| then ParseCode(b, s) else None
  }

  // ----- encoding straight-line code -----

  predicate AllFit(ops: seq<Isn>) {
    forall k :: 0 <= k < |ops| ==> IsnFits(ops[k])
  }

  function EncodeAll(ops: seq<Isn>): seq<Byte>
    requires AllFit(ops)
  {
    if ops == [] then [] else EncodeIsn(ops[0]) + EncodeAll(ops[1..])
  }

  lemma {:induction false} EncodeLine(ops: seq<Isn>, next: Code)
    requires AllFit(ops) && Fits(next)
    ensures Fits(Line(ops, next)) && Encode(Line(ops, next)) == EncodeAll(ops) + Encode(next)
    decreases |ops|
  {
    hide IsnFits, EncodeIsn;
    if ops != [] {
      EncodeLine(ops[1..], next);
    }
  }

  lemma {:induction false} EncodeAppend(a: seq<Isn>, b: seq<Isn>)
    requires AllFit(a) && AllFit(b)
    ensures AllFit(a + b) && EncodeAll(a + b) == EncodeAll(a) + EncodeAll(b)
  {
    hide IsnFits, EncodeIsn;
    if a == [] {
      assert a + b == b;
    } else {
      assert (a + b)[0] == a[0] && (a + b)[1..] == a[1..] + b;
      EncodeAppend(a[1..], b);
    }
  }

  lemma Encode2(i: Isn, j: Isn)
    requires IsnFits(i) && IsnFits(j)
    ensures AllFit([i, j]) && EncodeAll([i, j]) == EncodeIsn(i) + EncodeIsn(j)
  {
    hide EncodeIsn, IsnFits;
    var e: seq<Isn> := [];
    assert [i, j][1..] == [j] && [j][1..] == e;
    assert EncodeAll([j]) == EncodeIsn(j) + EncodeAll(e) == EncodeIsn(j);
  }

  lemma Encode3(i: Isn, j: Isn, k: Isn)
    requires IsnFits(i) && IsnFits(j) && IsnFits(k)
    ensures AllFit([i, j, k]) && EncodeAll([i, j, k]) == EncodeIsn(i) + EncodeIsn(j) + EncodeIsn(k)
  {
    hide EncodeIsn, IsnFits;
    assert [i, j, k][1..] == [j, k];
    Encode2(j, k);
  }

  lemma Encode4(i: Isn, j: Isn, k: Isn, l: Isn)
    requires IsnFits(i) && IsnFits(j) && IsnFits(k) && IsnFits(l)
    ensures AllFit([i, j, k, l]) && EncodeAll([i, j, k, l]) == EncodeIsn(i) + EncodeIsn(j) + EncodeIsn(k) + EncodeIsn(l)
  {
    hide EncodeIsn, IsnFits;
    assert [i, j, k, l][1..] == [j, k, l];
    Encode3(j, k, l);
  }
}
