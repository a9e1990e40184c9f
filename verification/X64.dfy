// The slice of x86-64 the emitter uses, one constructor per instruction.
//
// Two things are kept apart that share an address space on the real machine:
// program memory, which loads and stores reach, and the words that push, call,
// pop and ret move. Jumps are relative to the next instruction, counted in
// instructions. A call with a misaligned stack stops the machine here, so a run
// that ends anywhere else made every call with rsp a multiple of 16.

module X64 {
  import opened Words
  import opened CTree

  datatype CC = Always | Z | NZ | B | BE | L | LE | S

  datatype Reg = Rdi | Rsi | Rdx | Rcx | R8 | R9

  datatype Instr =
    | MovRaxImm(v: Word)
    | MovR11Imm(v: Word)
    | MovEaxImm(v: Word)
    | XorEax
    | LeaRaxRbp(off: int)
    | LeaRdiRbp(off: int)
    | AddRaxImm(off: int)
    | LoadRax(w: Width, uns: bool)
    | StoreRdi(w: Width)
    | Ext(w: Width, uns: bool)
    | PushRax
    | Pop(r: Reg)
    | AddRR(wide: bool)
    | SubRR(wide: bool)
    | MulRR(wide: bool)
    | BitRR(op: BitOp, wide: bool)
    | XorEdx
    | SignRdx(wide: bool)
    | DivRdi(wide: bool)
    | IDivRdi(wide: bool)
    | MovRaxRdx(wide: bool)
    | MovRcxRdi
    | ShlCl(wide: bool)
    | ShrCl(wide: bool)
    | SarCl(wide: bool)
    | NotRax(wide: bool)
    | CmpRR(wide: bool)
    | CmpRaxR11
    | TestRax
    | SetCC(cc: CC)
    | MovzxAl
    | J(cc: CC, rel: int)
    | DecFuel
    | CmpRspLimit
    | SubRsp(n: nat)
    | AddRsp(n: nat)
    | CallRel(rel: int)
    | CallR11(arity: nat)
    | PushRbp
    | MovRbpRsp
    | MovRspRbp
    | PopRbp
    | Ret
    | MovRaxArg(r: Reg)
    | ZeroAt(k: nat, n: nat)
    | MovRcxImm(v: Word)
    | IncRax
    | DecRcx
    | SetAborted(code: int)
    | SaveKrsp
    | LoadPrsp
    | LoadKrsp
    | Halt

  datatype Status = Running | Trapped | Misaligned | Lost | Halted

  /** lt is SF xor OF: the left operand was signed-less than the right. */
  datatype Flags = Flags(zf: bool, cf: bool, lt: bool, sf: bool)

  /** The part of the runtime block besides fuel. */
  datatype Runtime = Runtime(limit: int, krsp: int, prsp: int, aborted: int)

  datatype State = State(
    pc: int,
    rax: Word,
    r: Regs,
    rsp: int,
    rbp: int,
    fl: Flags,
    mem: Mem,
    stk: map<int, int>,
    fuel: int,
    rt: Runtime,
    status: Status)

  function At(stk: map<int, int>, a: int): int {
    if a in stk then stk[a] else 0
  }

  function GetReg(r: Regs, x: Reg): Word {
    match x
    case Rdi => r.rdi
    case Rsi => r.rsi
    case Rdx => r.rdx
    case Rcx => r.rcx
    case R8 => r.r8
    case R9 => r.r9
  }

  function SetReg(r: Regs, x: Reg, v: Word): Regs {
    match x
    case Rdi => r.(rdi := v)
    case Rsi => r.(rsi := v)
    case Rdx => r.(rdx := v)
    case Rcx => r.(rcx := v)
    case R8 => r.(r8 := v)
    case R9 => r.(r9 := v)
  }

  /** The SysV argument registers in order. */
  function ArgReg(i: nat): Reg {
    if i == 0 then Rdi else if i == 1 then Rsi else if i == 2 then Rdx
    else if i == 3 then Rcx else if i == 4 then R8 else R9
  }

  function ArgWords(r: Regs, n: nat): seq<Word> {
    seq(n, i requires 0 <= i < n => GetReg(r, ArgReg(i)))
  }

  predicate Holds(fl: Flags, cc: CC) {
    match cc
    case Always => true
    case Z => fl.zf
    case NZ => !fl.zf
    case B => fl.cf
    case BE => fl.zf || fl.cf
    case L => fl.lt
    case LE => fl.zf || fl.lt
    case S => fl.sf
  }

  function Compare(a: int, b: int, m: int): Flags
    requires m > 0
  {
    Flags(a == b, a < b, Signed(a, m) < Signed(b, m), Signed((a - b) % m, m) < 0)
  }

  /** Unsigned divide of rdx:rax by rdi. */
  function DivStep(s: State, wide: bool): (t: State)
    ensures t.pc == s.pc
  {
    var m := OpMod(wide);
    var n, d := (s.r.rdx % m) * m + s.rax % m, s.r.rdi % m;
    if d == 0 || n / d >= m then s.(status := Trapped)
    else s.(rax := Enc(n / d), r := s.r.(rdx := Enc(n % d)))
  }

  /** Signed divide of rdx:rax by rdi, truncating toward zero. */
  function IDivStep(s: State, wide: bool): (t: State)
    ensures t.pc == s.pc
  {
    var m := OpMod(wide);
    var n, d := Signed(s.r.rdx % m, m) * m + s.rax % m, Signed(s.r.rdi % m, m);
    if d == 0 || !(-(m / 2) <= TDiv(n, d) < m / 2) then s.(status := Trapped)
    else s.(rax := TDiv(n, d) % m, r := s.r.(rdx := TMod(n, d) % m))
  }

  /** A kernel function: its result in rax, memory as it left it, and in the
      caller-saved registers whatever it left there. */
  function KernelStep(w: World, s: State, arity: nat): (t: State)
    ensures t.pc == s.pc
  {
    if s.rsp % 16 != 0 then s.(status := Misaligned)
    else
      var k := w.kern(s.r.r11, ArgWords(s.r, arity), s.mem, s.fuel);
      s.(rax := k.v, mem := k.mem, r := k.r)
  }

  /** Instructions that write rax from rax, rdi and rcx only. */
  predicate IsAlu(i: Instr) {
    match i
    case MovRaxImm(_) | MovEaxImm(_) | XorEax | AddRaxImm(_) | Ext(_, _) | AddRR(_) | SubRR(_)
       | MulRR(_) | BitRR(_, _) | ShlCl(_) | ShrCl(_) | SarCl(_) | NotRax(_) | MovzxAl | IncRax => true
    case _ => false
  }

  function Alu(i: Instr, rax: Word, r: Regs): Word {
    match i
    case MovRaxImm(v) => v
    case MovEaxImm(v) => v % 0x1_0000_0000
    case XorEax => 0
    case AddRaxImm(off) => Enc(rax + off)
    case Ext(width, uns) => Enc(Conv(rax, width, uns))
    case AddRR(wide) => (rax + r.rdi) % OpMod(wide)
    case SubRR(wide) => (rax - r.rdi) % OpMod(wide)
    case MulRR(wide) => (rax * r.rdi) % OpMod(wide)
    case BitRR(op, wide) =>
      Enc(Bitwise(op, rax % OpMod(wide), r.rdi % OpMod(wide), OpBits(wide)))
    case ShlCl(wide) => (rax * Pow2(r.rcx % OpBits(wide))) % OpMod(wide)
    case ShrCl(wide) => ((rax % OpMod(wide)) / Pow2(r.rcx % OpBits(wide))) % OpMod(wide)
    case SarCl(wide) =>
      (Signed(rax % OpMod(wide), OpMod(wide)) / Pow2(r.rcx % OpBits(wide))) % OpMod(wide)
    case NotRax(wide) => OpMod(wide) - 1 - rax % OpMod(wide)
    case MovzxAl => rax % 256
    case IncRax => Enc(rax + 1)
    case _ => rax
  }

  /** Instructions that read or write program memory. */
  predicate IsMemory(i: Instr) { i.LoadRax? || i.StoreRdi? || i.ZeroAt? }

  function Memory(i: Instr, s: State): (t: State)
    ensures t.pc == s.pc
  {
    match i
    case LoadRax(width, uns) =>
      if s.rax + width.Bytes() > |s.mem| then s.(status := Trapped)
      else s.(rax := Enc(Conv(LoadLE(s.mem, s.rax, width.Bytes()), width, uns)))
    case StoreRdi(width) =>
      if s.r.rdi + width.Bytes() > |s.mem| then s.(status := Trapped)
      else s.(mem := StoreLE(s.mem, s.r.rdi, s.rax, width.Bytes()))
    case ZeroAt(k, n) =>
      if s.rax + k + n > |s.mem| then s.(status := Trapped)
      else s.(mem := ZeroFill(s.mem, s.rax + k, n))
    case _ => s
  }

  /** Instructions that move the stack. */
  predicate IsStack(i: Instr) {
    match i
    case PushRax | Pop(_) | SubRsp(_) | AddRsp(_) | PushRbp | MovRbpRsp | MovRspRbp | PopRbp => true
    case _ => false
  }

  function Stack(i: Instr, s: State): (t: State)
    ensures t.pc == s.pc
  {
    match i
    case PushRax => s.(rsp := s.rsp - 8, stk := s.stk[s.rsp - 8 := s.rax])
    case Pop(x) => s.(rsp := s.rsp + 8, r := SetReg(s.r, x, Enc(At(s.stk, s.rsp))))
    case SubRsp(n) => s.(rsp := s.rsp - n)
    case AddRsp(n) => s.(rsp := s.rsp + n)
    case PushRbp => s.(rsp := s.rsp - 8, stk := s.stk[s.rsp - 8 := s.rbp])
    case MovRbpRsp => s.(rbp := s.rsp)
    case MovRspRbp => s.(rsp := s.rbp)
    case PopRbp => s.(rsp := s.rsp + 8, rbp := At(s.stk, s.rsp))
    case _ => s
  }

  /** Instructions that set flags or read them into al. */
  predicate IsFlag(i: Instr) {
    match i
    case CmpRR(_) | CmpRaxR11 | TestRax | SetCC(_) | DecFuel | CmpRspLimit | DecRcx => true
    case _ => false
  }

  function Flag(i: Instr, s: State): (t: State)
    ensures t.pc == s.pc
  {
    match i
    case CmpRR(wide) => s.(fl := Compare(s.rax % OpMod(wide), s.r.rdi % OpMod(wide), OpMod(wide)))
    case CmpRaxR11 => s.(fl := Compare(s.rax, s.r.r11, OpMod(true)))
    case TestRax => s.(fl := Compare(s.rax, 0, OpMod(true)))
    case SetCC(cc) => s.(rax := s.rax - s.rax % 256 + (if Holds(s.fl, cc) then 1 else 0))
    case DecFuel =>
      s.(fuel := s.fuel - 1, fl := s.fl.(zf := s.fuel - 1 == 0, sf := s.fuel - 1 < 0))
    case CmpRspLimit => s.(fl := s.fl.(zf := s.rsp == s.rt.limit, cf := s.rsp < s.rt.limit))
    case DecRcx =>
      s.(r := s.r.(rcx := Enc(s.r.rcx - 1)), fl := s.fl.(zf := Enc(s.r.rcx - 1) == 0))
    case _ => s
  }

  /** Register moves, division, kernel calls and the runtime block. */
  function Other(w: World, i: Instr, s: State): (t: State)
    ensures t.pc == s.pc
  {
    match i
    case MovR11Imm(v) => s.(r := s.r.(r11 := v))
    case LeaRaxRbp(off) => s.(rax := Enc(s.rbp + off))
    case LeaRdiRbp(off) => s.(r := s.r.(rdi := Enc(s.rbp + off)))
    case XorEdx => s.(r := s.r.(rdx := 0))
    case SignRdx(wide) =>
      s.(r := s.r.(rdx := if s.rax % OpMod(wide) < OpMod(wide) / 2 then 0 else OpMod(wide) - 1))
    case DivRdi(wide) => DivStep(s, wide)
    case IDivRdi(wide) => IDivStep(s, wide)
    case MovRaxRdx(wide) => s.(rax := s.r.rdx % OpMod(wide))
    case MovRcxRdi => s.(r := s.r.(rcx := s.r.rdi))
    case MovRcxImm(v) => s.(r := s.r.(rcx := v))
    case MovRaxArg(x) => s.(rax := GetReg(s.r, x))
    case CallR11(arity) => KernelStep(w, s, arity)
    case SetAborted(c) => s.(rt := s.rt.(aborted := c))
    case SaveKrsp => s.(rt := s.rt.(krsp := s.rsp))
    case LoadPrsp => s.(rsp := s.rt.prsp)
    case LoadKrsp => s.(rsp := s.rt.krsp)
    case Halt => s.(status := Halted)
    case _ => s
  }

  function Data(w: World, i: Instr, s: State): (t: State)
    ensures t.pc == s.pc
  {
    if IsAlu(i) then s.(rax := Alu(i, s.rax, s.r))
    else if IsMemory(i) then Memory(i, s)
    else if IsStack(i) then Stack(i, s)
    else if IsFlag(i) then Flag(i, s)
    else Other(w, i, s)
  }

  /** One machine step; a machine that has stopped stays stopped. */
  function Step(w: World, code: seq<Instr>, s: State): State {
    if s.status != Running then s
    else if !(0 <= s.pc < |code|) then s.(status := Lost)
    else match code[s.pc]
      case J(cc, rel) => s.(pc := s.pc + 1 + (if Holds(s.fl, cc) then rel else 0))
      case CallRel(rel) =>
        if s.rsp % 16 != 0 then s.(status := Misaligned)
        else s.(rsp := s.rsp - 8, stk := s.stk[s.rsp - 8 := s.pc + 1], pc := s.pc + 1 + rel)
      case Ret => s.(pc := At(s.stk, s.rsp), rsp := s.rsp + 8)
      case i => Data(w, i, s.(pc := s.pc + 1))
  }

  function Run(w: World, code: seq<Instr>, s: State, n: nat): State
    decreases n
  {
    if n == 0 then s else Run(w, code, Step(w, code, s), n - 1)
  }

  lemma {:induction false} RunAdd(w: World, code: seq<Instr>, s: State, m: nat, n: nat)
    ensures Run(w, code, s, m + n) == Run(w, code, Run(w, code, s, m), n)
    decreases m
  {
    hide Step;
    if m > 0 {
      RunAdd(w, code, Step(w, code, s), m - 1, n);
    }
  }

  lemma {:induction false} RunStopped(w: World, code: seq<Instr>, s: State, n: nat)
    requires s.status != Running
    ensures Run(w, code, s, n) == s
    decreases n
  {
    if n > 0 {
      RunStopped(w, code, s, n - 1);
    }
  }
}
