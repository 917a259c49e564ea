/** The instruction set, its byte encoding, and the decoder the machine fetches with. */
module Instr {
  import opened Prelude
  import LE = LittleEndian

  datatype Instr =
    | Const(k: u32)
    | GetGlobal(k: u32)
    | Call(argc: u8)
    | Pop
    | Halt
    | DefGlobal(k: u32)
    | GetLocal(slot: u8)
    | Jump(target: u32)
    | JumpIfFalse(target: u32)
    | Return
    | MakeFunction(fn: u32)
    | PushLocal
    | SetLocal(slot: u8)
    | SetGlobal(k: u32)
    | Dup
    | Swap
    | Eqv
    | GetUpvalue(depth: u8, slot: u8)
    | SetUpvalue(depth: u8, slot: u8)
    | TailCall(argc: u8)

  function Opcode(i: Instr): byte {
    match i
    case Const(_) => 0
    case GetGlobal(_) => 1
    case Call(_) => 2
    case Pop => 3
    case Halt => 4
    case DefGlobal(_) => 5
    case GetLocal(_) => 6
    case Jump(_) => 7
    case JumpIfFalse(_) => 8
    case Return => 9
    case MakeFunction(_) => 10
    case PushLocal => 11
    case SetLocal(_) => 12
    case SetGlobal(_) => 13
    case Dup => 14
    case Swap => 15
    case Eqv => 16
    case GetUpvalue(_, _) => 17
    case SetUpvalue(_, _) => 18
    case TailCall(_) => 19
  }

  /** How many operand bytes follow an opcode; an unknown opcode has none. */
  function OperandLen(op: byte): nat {
    if op in {0, 1, 5, 13, 10, 7, 8} then 4
    else if op in {6, 12, 2, 19} then 1
    else if op in {17, 18} then 2
    else 0
  }

  function Operands(i: Instr): seq<byte> {
    match i
    case Const(k) => LE.Le(4, k)
    case GetGlobal(k) => LE.Le(4, k)
    case DefGlobal(k) => LE.Le(4, k)
    case SetGlobal(k) => LE.Le(4, k)
    case MakeFunction(f) => LE.Le(4, f)
    case Jump(t) => LE.Le(4, t)
    case JumpIfFalse(t) => LE.Le(4, t)
    case GetLocal(s) => [s]
    case SetLocal(s) => [s]
    case Call(n) => [n]
    case TailCall(n) => [n]
    case GetUpvalue(d, s) => [d, s]
    case SetUpvalue(d, s) => [d, s]
    case Pop | Halt | Return | PushLocal | Dup | Swap | Eqv => []
  }

  function Size(i: Instr): (n: nat)
    ensures n > 0
  {
    1 + OperandLen(Opcode(i))
  }

  function Enc(i: Instr): (bytes: seq<byte>)
    ensures |bytes| == Size(i)
  {
    [Opcode(i)] + Operands(i)
  }

  datatype Fetched = Got(instr: Instr, next: nat) | RanOff | TruncatedOperand | UndefinedOpcode(op: byte)

  function Fetch(code: seq<byte>, ip: nat): Fetched {
    if ip >= |code| then RanOff
    else
      var op := code[ip];
      var next := ip + 1 + OperandLen(op);
      if op >= 20 then UndefinedOpcode(op)
      else if next > |code| then TruncatedOperand
      else Got(Decode(op, code[ip + 1..next]), next)
  }

  function Decode(op: byte, args: seq<byte>): Instr
    requires op < 20 && |args| == OperandLen(op)
  {
    if OperandLen(op) == 4 then
      LE.FromLeBound(args);
      LE.PowerFacts();
      var n := LE.FromLe(args);
      match op
      case 0 => Const(n)
      case 1 => GetGlobal(n)
      case 5 => DefGlobal(n)
      case 7 => Jump(n)
      case 8 => JumpIfFalse(n)
      case 10 => MakeFunction(n)
      case _ => SetGlobal(n)
    else if OperandLen(op) == 1 then
      match op
      case 2 => Call(args[0])
      case 6 => GetLocal(args[0])
      case 12 => SetLocal(args[0])
      case _ => TailCall(args[0])
    else if OperandLen(op) == 2 then
      if op == 17 then GetUpvalue(args[0], args[1]) else SetUpvalue(args[0], args[1])
    else
      match op
      case 3 => Pop
      case 4 => Halt
      case 9 => Return
      case 11 => PushLocal
      case 14 => Dup
      case 15 => Swap
      case _ => Eqv
  }

  /** The bytes of `part` occur in `code` at offset `at`. */
  ghost predicate Occurs(code: seq<byte>, at: nat, part: seq<byte>) {
    at + |part| <= |code| && code[at..at + |part|] == part
  }

  lemma {:induction false} OccursFits(code: seq<byte>, at: nat, part: seq<byte>)
    requires Occurs(code, at, part)
    ensures at + |part| <= |code|
  {
  }

  lemma {:induction false} OccursSplit(code: seq<byte>, at: nat, a: seq<byte>, b: seq<byte>)
    requires Occurs(code, at, a + b)
    ensures Occurs(code, at, a) && Occurs(code, at + |a|, b)
  {
    var whole := code[at..at + |a + b|];
    assert code[at..at + |a|] == whole[..|a|] == a;
    assert code[at + |a|..at + |a| + |b|] == whole[|a|..] == b;
  }

  lemma {:induction false} OccursSplit3(code: seq<byte>, at: nat, a: seq<byte>, b: seq<byte>, c: seq<byte>)
    requires Occurs(code, at, a + b + c)
    ensures Occurs(code, at, a) && Occurs(code, at + |a|, b) && Occurs(code, at + |a| + |b|, c)
  {
    OccursSplit(code, at, a + b, c);
    OccursSplit(code, at, a, b);
  }

  lemma {:induction false} OccursSplit5(code: seq<byte>, at: nat, a: seq<byte>, b: seq<byte>, c: seq<byte>,
        d: seq<byte>, e: seq<byte>)
    requires Occurs(code, at, a + b + c + d + e)
    ensures Occurs(code, at, a) && Occurs(code, at + |a|, b) && Occurs(code, at + |a| + |b|, c)
    ensures Occurs(code, at + |a| + |b| + |c|, d) && Occurs(code, at + |a| + |b| + |c| + |d|, e)
  {
    OccursSplit3(code, at, a + b + c, d, e);
    OccursSplit3(code, at, a, b, c);
  }

  /** Decoding inverts encoding wherever the encoded bytes sit. */
  lemma {:induction false} FetchEncoded(code: seq<byte>, ip: nat, i: Instr)
    requires Occurs(code, ip, Enc(i))
    ensures Fetch(code, ip) == Got(i, ip + Size(i))
  {
    OccursSplit(code, ip, [Opcode(i)], Operands(i));
    assert code[ip] == code[ip..ip + 1][0];
    assert code[ip + 1..ip + Size(i)] == Operands(i);
    LE.PowerFacts();
    if OperandLen(Opcode(i)) == 4 {
      var n := match i
        case Const(k) => k
        case GetGlobal(k) => k
        case DefGlobal(k) => k
        case SetGlobal(k) => k
        case MakeFunction(f) => f
        case Jump(t) => t
        case JumpIfFalse(t) => t;
      LE.RoundTrip(4, n);
    }
  }
}
