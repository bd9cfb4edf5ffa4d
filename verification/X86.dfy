/** The x86-64 fragment the machine pass emits, its effect on a small machine, and the two code sequences. */
module X86 {
  import opened Words
  import opened Memory
  import opened Wrappers

  /** General-purpose registers by their encoding. */
  type Reg = n: nat | n < 16

  const RSP: Reg := 4
  const R10: Reg := 10
  const R11: Reg := 11

  datatype Instr =
    | Push(r: Reg)
    | Pop(r: Reg)
    | LoadGs(r: Reg, disp: Word)              // mov r, gs:[disp]
    | StoreGs(disp: Word, r: Reg)             // mov gs:[disp], r
    | LoadMem(r: Reg, base: Reg, disp: Word)  // mov r, [base + disp]
    | StoreMem(base: Reg, disp: Word, r: Reg) // mov [base + disp], r
    | AddImm(r: Reg, imm: Word)
    | SubImm(r: Reg, imm: Word)
    | CmpMem(base: Reg, disp: Word, r: Reg)   // cmp [base + disp], r
    | JumpNotEqual(block: nat)               // jne to the trap block
    | Ret
    | TailJump(callee: nat)                  // jmp to another function, in place of a call and a ret
    | Trap
    | Meta                                   // debug values, CFI and the like
    | Other(id: nat)                         // any other instruction of the function

  /** isReturn: tail jumps count as returns. */
  predicate IsReturn(i: Instr) {
    i.Ret? || i.TailJump?
  }

  /** Faulted: an access was not canonical. Trapped: control is in the trap block. */
  datatype Status = Running | Faulted | Trapped

  type Regs = s: seq<Word> | |s| == 16 witness seq(16, i => 0)

  datatype Machine = Machine(regs: Regs, gs: Word, mem: Mem, zf: bool, rip: Word, status: Status)

  /** First address of the upper canonical half: 2^64 - 2^47. */
  const HIGH: nat := 0xffff_8000_0000_0000

  predicate Canonical(a: nat) {
    a < LIMIT || HIGH <= a < WORD
  }

  predicate Accessible(a: nat, n: nat) {
    n > 0 ==> Canonical(a) && Canonical(a + n - 1) && (a < LIMIT <==> a + n - 1 < LIMIT)
  }

  function Load(s: Machine, r: Reg, a: Word): Machine {
    if Accessible(a, 8) then s.(regs := s.regs[r := ReadWord(s.mem, a)]) else s.(status := Faulted)
  }

  function Store(s: Machine, a: Word, w: Word): Machine {
    if Accessible(a, 8) then s.(mem := WriteWord(s.mem, a, w)) else s.(status := Faulted)
  }

  /** Push a word: the stack pointer moves only if the store succeeds. */
  function PushWord(s: Machine, w: Word): Machine {
    var sp := Sum(s.regs[RSP], WORD - 8);
    if Accessible(sp, 8) then s.(regs := s.regs[RSP := sp], mem := WriteWord(s.mem, sp, w)) else s.(status := Faulted)
  }

  function Exec(i: Instr, s: Machine): Machine {
    if s.status != Running then s else
    match i
    case Push(r) => PushWord(s, s.regs[r])
    case Pop(r) =>
      var sp := s.regs[RSP];
      if Accessible(sp, 8) then s.(regs := s.regs[RSP := Sum(sp, 8)][r := ReadWord(s.mem, sp)])
      else s.(status := Faulted)
    case LoadGs(r, d) => Load(s, r, Sum(s.gs, d))
    case StoreGs(d, r) => Store(s, Sum(s.gs, d), s.regs[r])
    case LoadMem(r, b, d) => Load(s, r, Sum(s.regs[b], d))
    case StoreMem(b, d, r) => Store(s, Sum(s.regs[b], d), s.regs[r])
    case AddImm(r, n) => var v := Sum(s.regs[r], n); s.(regs := s.regs[r := v], zf := v == 0)
    case SubImm(r, n) => var v := Sum(s.regs[r], if n == 0 then 0 else WORD - n); s.(regs := s.regs[r := v], zf := v == 0)
    case CmpMem(b, d, r) =>
      var a := Sum(s.regs[b], d);
      if Accessible(a, 8) then s.(zf := ReadWord(s.mem, a) == s.regs[r]) else s.(status := Faulted)
    case JumpNotEqual(_) => if s.zf then s else s.(status := Trapped)
    case Ret =>
      var sp := s.regs[RSP];
      if Accessible(sp, 8) then s.(regs := s.regs[RSP := Sum(sp, 8)], rip := ReadWord(s.mem, sp))
      else s.(status := Faulted)
    case TailJump(_) => s                    // the program counter is modelled at returns only
    case Trap => s.(status := Trapped)
    case Meta => s
    case Other(_) => s
  }

  function ExecAll(code: seq<Instr>, s: Machine): Machine {
    if code == [] then s else ExecAll(code[1..], Exec(code[0], s))
  }

  // ---------------------------------------------------------------- emitted code

  datatype Strategy = BlindWrite | TrapOnMismatch

  /** instrumentPreamble: push the return address on the shadow stack, borrowing R10 and R11. */
  function Preamble(): seq<Instr> {
    [Push(R11), Push(R10)] +
    [LoadGs(R11, 8), LoadMem(R10, RSP, 16), StoreMem(R11, 0, R10)] +
    [AddImm(R11, 8), StoreGs(8, R11)] +
    [Pop(R10), Pop(R11)]
  }

  /** instrumentRet: pop the shadow stack into a scratch register, R11 being spilled when none is free. */
  function Epilogue(strategy: Strategy, scratch: Option<Reg>, trapBlock: nat): seq<Instr> {
    match scratch
    case Some(r) => PopShadow(r) + Check(strategy, r, 0, trapBlock)
    case None => [Push(R11)] + PopShadow(R11) + Check(strategy, R11, 8, trapBlock) + [Pop(R11)]
  }

  function PopShadow(r: Reg): seq<Instr> {
    [LoadGs(r, 8), SubImm(r, 8)] + [StoreGs(8, r), LoadMem(r, r, 0)]
  }

  function Check(strategy: Strategy, r: Reg, off: Word, trapBlock: nat): seq<Instr> {
    match strategy
    case BlindWrite => [StoreMem(RSP, off, r)]
    case TrapOnMismatch => [CmpMem(RSP, off, r), JumpNotEqual(trapBlock)]
  }

  // ---------------------------------------------------------------- what the code does

  lemma {:induction false} ExecAllConcat(a: seq<Instr>, b: seq<Instr>, s: Machine)
    ensures ExecAll(a + b, s) == ExecAll(b, ExecAll(a, s))
  {
    if a == [] {
      assert a + b == b;
    } else {
      ExecAllConcat(a[1..], b, Exec(a[0], s));
      assert (a + b)[1..] == a[1..] + b;
    }
  }

  /** The stack has room for the two spills below a return slot, all in the lower half. */
  predicate StackReady(rsp: Word) {
    16 <= rsp && rsp + 8 <= LIMIT
  }

  /** The shadow area lies in the upper half and its top word points past the two header words. */
  predicate ShadowReady(gs: Word, mem: Mem) {
    && HIGH <= gs && gs + 16 <= WORD
    && var top := ReadWord(mem, gs + 8); gs + 16 <= top <= WORD - 8
  }

  /** The memory after the prologue: R11 and R10 spilled, the return address pushed, the top moved. */
  function Pushed(s: Machine): Mem
    requires StackReady(s.regs[RSP]) && ShadowReady(s.gs, s.mem)
  {
    var sp, top := s.regs[RSP], ReadWord(s.mem, s.gs + 8);
    var m := WriteWord(WriteWord(s.mem, sp - 8, s.regs[R11]), sp - 16, s.regs[R10]);
    WriteWord(WriteWord(m, top, ReadWord(s.mem, sp)), s.gs + 8, Sum(top, 8))
  }

  lemma ExecTwo(a: Instr, b: Instr, s: Machine)
    ensures ExecAll([a, b], s) == Exec(b, Exec(a, s))
  {
    hide Exec;
    assert [a, b][1..] == [b] && [b][1..] == [];
    assert ExecAll([b], Exec(a, s)) == Exec(b, Exec(a, s));
  }

  lemma ExecThree(a: Instr, b: Instr, c: Instr, s: Machine)
    ensures ExecAll([a, b, c], s) == Exec(c, Exec(b, Exec(a, s)))
  {
    hide Exec;
    assert [a, b, c][1..] == [b, c];
    ExecTwo(b, c, Exec(a, s));
  }

  lemma PushEffect(s: Machine, r: Reg)
    requires s.status == Running && 8 <= s.regs[RSP] <= LIMIT
    ensures var sp := s.regs[RSP];
      Exec(Push(r), s) == s.(regs := s.regs[RSP := sp - 8], mem := WriteWord(s.mem, sp - 8, s.regs[r]))
  {
    hide WriteWord, ReadWord;
  }

  lemma PopEffect(s: Machine, r: Reg)
    requires s.status == Running && s.regs[RSP] + 8 <= LIMIT
    ensures var sp := s.regs[RSP];
      Exec(Pop(r), s) == s.(regs := s.regs[RSP := sp + 8][r := ReadWord(s.mem, sp)])
  {
    hide WriteWord, ReadWord;
  }

  lemma SpillEffect(s: Machine)
    requires s.status == Running && StackReady(s.regs[RSP])
    ensures var sp := s.regs[RSP];
      ExecAll([Push(R11), Push(R10)], s) == s.(regs := s.regs[RSP := sp - 16],
        mem := WriteWord(WriteWord(s.mem, sp - 8, s.regs[R11]), sp - 16, s.regs[R10]))
  {
    hide WriteWord, ReadWord, Exec;
    ExecTwo(Push(R11), Push(R10), s);
    var sp := s.regs[RSP];
    var s1 := s.(regs := s.regs[RSP := sp - 8], mem := WriteWord(s.mem, sp - 8, s.regs[R11]));
    PushEffect(s, R11);
    PushEffect(s1, R10);
    assert s1.regs[RSP := sp - 16] == s.regs[RSP := sp - 16];
  }

  lemma RestoreEffect(s: Machine)
    requires s.status == Running && s.regs[RSP] + 24 <= LIMIT
    ensures var sp := s.regs[RSP];
      ExecAll([Pop(R10), Pop(R11)], s)
        == s.(regs := s.regs[RSP := sp + 16][R10 := ReadWord(s.mem, sp)][R11 := ReadWord(s.mem, sp + 8)])
  {
    hide WriteWord, ReadWord, Exec;
    ExecTwo(Pop(R10), Pop(R11), s);
    var sp := s.regs[RSP];
    var s1 := s.(regs := s.regs[RSP := sp + 8][R10 := ReadWord(s.mem, sp)]);
    PopEffect(s, R10);
    PopEffect(s1, R11);
    assert s1.regs[RSP := sp + 16][R11 := ReadWord(s.mem, sp + 8)]
        == s.regs[RSP := sp + 16][R10 := ReadWord(s.mem, sp)][R11 := ReadWord(s.mem, sp + 8)];
  }

  lemma LoadEffect(s: Machine, r: Reg, b: Reg, d: Word)
    requires s.status == Running && Accessible(Sum(s.regs[b], d), 8)
    ensures Exec(LoadMem(r, b, d), s) == s.(regs := s.regs[r := ReadWord(s.mem, Sum(s.regs[b], d))])
  {
    hide WriteWord, ReadWord;
  }

  lemma StoreEffect(s: Machine, r: Reg, b: Reg, d: Word)
    requires s.status == Running && Accessible(Sum(s.regs[b], d), 8)
    ensures Exec(StoreMem(b, d, r), s) == s.(mem := WriteWord(s.mem, Sum(s.regs[b], d), s.regs[r]))
  {
    hide WriteWord, ReadWord;
  }

  lemma GsEffect(s: Machine, r: Reg)
    requires s.status == Running && HIGH <= s.gs && s.gs + 16 <= WORD
    ensures Exec(LoadGs(r, 8), s) == s.(regs := s.regs[r := ReadWord(s.mem, s.gs + 8)])
    ensures Exec(StoreGs(8, r), s) == s.(mem := WriteWord(s.mem, s.gs + 8, s.regs[r]))
  {
    hide WriteWord, ReadWord;
  }

  lemma CopyReturnEffect(s: Machine)
    requires s.status == Running && s.regs[RSP] + 24 <= LIMIT && ShadowReady(s.gs, s.mem)
    ensures var top, ret := ReadWord(s.mem, s.gs + 8), ReadWord(s.mem, s.regs[RSP] + 16);
      ExecAll([LoadGs(R11, 8), LoadMem(R10, RSP, 16), StoreMem(R11, 0, R10)], s)
        == s.(regs := s.regs[R11 := top][R10 := ret], mem := WriteWord(s.mem, top, ret))
  {
    hide WriteWord, ReadWord, Exec, ExecAll;
    ExecThree(LoadGs(R11, 8), LoadMem(R10, RSP, 16), StoreMem(R11, 0, R10), s);
    var top, ret := ReadWord(s.mem, s.gs + 8), ReadWord(s.mem, s.regs[RSP] + 16);
    GsEffect(s, R11);
    var s1 := s.(regs := s.regs[R11 := top]);
    LoadEffect(s1, R10, RSP, 16);
    var s2 := s1.(regs := s1.regs[R10 := ret]);
    StoreEffect(s2, R10, R11, 0);
  }

  lemma BumpTopEffect(s: Machine, top: Word)
    requires s.status == Running && HIGH <= s.gs && s.gs + 16 <= WORD && top == Sum(s.regs[R11], 8)
    ensures ExecAll([AddImm(R11, 8), StoreGs(8, R11)], s)
         == s.(regs := s.regs[R11 := top], zf := top == 0, mem := WriteWord(s.mem, s.gs + 8, top))
  {
    hide *;
    var s1 := s.(regs := s.regs[R11 := top], zf := top == 0);
    ExecTwo(AddImm(R11, 8), StoreGs(8, R11), s);
    assert Exec(AddImm(R11, 8), s) == s1 by { AddEffect(s, R11); }
    GsEffect(s1, R11);
  }

  lemma AddEffect(s: Machine, r: Reg)
    requires s.status == Running
    ensures var v := Sum(s.regs[r], 8); Exec(AddImm(r, 8), s) == s.(regs := s.regs[r := v], zf := v == 0)
    ensures var v := Sum(s.regs[r], WORD - 8); Exec(SubImm(r, 8), s) == s.(regs := s.regs[r := v], zf := v == 0)
  {
  }

  /** The machine once the prologue has copied the return address, and once it has bumped top. */
  function Copied(s: Machine): Machine
    requires StackReady(s.regs[RSP])
  {
    var sp, top := s.regs[RSP], ReadWord(s.mem, s.gs + 8);
    var m := WriteWord(WriteWord(s.mem, sp - 8, s.regs[R11]), sp - 16, s.regs[R10]);
    s.(regs := s.regs[RSP := sp - 16][R11 := top][R10 := ReadWord(s.mem, sp)], mem := WriteWord(m, top, ReadWord(s.mem, sp)))
  }

  function Bumped(s: Machine): Machine
    requires StackReady(s.regs[RSP]) && ShadowReady(s.gs, s.mem)
  {
    var top := Sum(ReadWord(s.mem, s.gs + 8), 8);
    Copied(s).(regs := Copied(s).regs[R11 := top], mem := Pushed(s), zf := top == 0)
  }

  lemma PreambleCopies(s: Machine)
    requires s.status == Running && StackReady(s.regs[RSP]) && ShadowReady(s.gs, s.mem)
    ensures ExecAll([LoadGs(R11, 8), LoadMem(R10, RSP, 16), StoreMem(R11, 0, R10)], ExecAll([Push(R11), Push(R10)], s)) == Copied(s)
  {
    hide WriteWord, ReadWord, Exec, ExecAll;
    SpillEffect(s);
    SpillKeeps(s, s.gs + 8);
    SpillKeeps(s, s.regs[RSP]);
    CopyReturnEffect(ExecAll([Push(R11), Push(R10)], s));
  }

  lemma PreambleRestores(s: Machine)
    requires s.status == Running && StackReady(s.regs[RSP]) && ShadowReady(s.gs, s.mem)
    ensures ExecAll([Pop(R10), Pop(R11)], Bumped(s)) == s.(mem := Pushed(s), zf := Sum(ReadWord(s.mem, s.gs + 8), 8) == 0)
  {
    hide WriteWord, ReadWord, Exec, ExecAll, Pushed;
    PushedKeepsSpills(s);
    RestoreEffect(Bumped(s));
    var sp := s.regs[RSP];
    assert Bumped(s).regs[RSP := sp][R10 := s.regs[R10]][R11 := s.regs[R11]] == s.regs;
  }

  /** The prologue changes memory only, and the zero flag: every register survives. */
  lemma PreambleEffect(s: Machine)
    requires s.status == Running && StackReady(s.regs[RSP]) && ShadowReady(s.gs, s.mem)
    ensures ExecAll(Preamble(), s) == s.(mem := Pushed(s), zf := Sum(ReadWord(s.mem, s.gs + 8), 8) == 0)
  {
    hide WriteWord, ReadWord, Exec, ExecAll;
    PreambleCopies(s);
    BumpTopEffect(Copied(s), Sum(ReadWord(s.mem, s.gs + 8), 8));
    PreambleRestores(s);
    ExecFourParts([Push(R11), Push(R10)], [LoadGs(R11, 8), LoadMem(R10, RSP, 16), StoreMem(R11, 0, R10)],
                  [AddImm(R11, 8), StoreGs(8, R11)], [Pop(R10), Pop(R11)], s);
  }

  lemma ExecFourParts(a: seq<Instr>, b: seq<Instr>, c: seq<Instr>, d: seq<Instr>, s: Machine)
    ensures ExecAll(a + b + c + d, s) == ExecAll(d, ExecAll(c, ExecAll(b, ExecAll(a, s))))
  {
    hide Exec, ExecAll;
    ExecAllConcat(a, b, s);
    ExecAllConcat(a + b, c, s);
    ExecAllConcat(a + b + c, d, s);
  }

  lemma SpillKeeps(s: Machine, a: nat)
    requires StackReady(s.regs[RSP]) && s.regs[RSP] <= a
    ensures var sp := s.regs[RSP];
      ReadWord(WriteWord(WriteWord(s.mem, sp - 8, s.regs[R11]), sp - 16, s.regs[R10]), a) == ReadWord(s.mem, a)
  {
    hide WriteWord, ReadWord;
    var sp := s.regs[RSP];
    WordElsewhere(s.mem, sp - 8, s.regs[R11], a);
    WordElsewhere(WriteWord(s.mem, sp - 8, s.regs[R11]), sp - 16, s.regs[R10], a);
  }

  lemma PushedKeepsSpills(s: Machine)
    requires StackReady(s.regs[RSP]) && ShadowReady(s.gs, s.mem)
    ensures var sp := s.regs[RSP];
      ReadWord(Pushed(s), sp - 16) == s.regs[R10] && ReadWord(Pushed(s), sp - 8) == s.regs[R11]
  {
    hide WriteWord, ReadWord;
    var sp, top := s.regs[RSP], ReadWord(s.mem, s.gs + 8);
    var ret := ReadWord(s.mem, sp);
    var m1 := WriteWord(s.mem, sp - 8, s.regs[R11]);
    var m2 := WriteWord(m1, sp - 16, s.regs[R10]);
    var m3 := WriteWord(m2, top, ret);
    ReadWritten(m1, sp - 16, s.regs[R10]);
    ReadWritten(s.mem, sp - 8, s.regs[R11]);
    WordElsewhere(m1, sp - 16, s.regs[R10], sp - 8);
    WordElsewhere(m2, top, ret, sp - 16);
    WordElsewhere(m2, top, ret, sp - 8);
    WordElsewhere(m3, s.gs + 8, Sum(top, 8), sp - 16);
    WordElsewhere(m3, s.gs + 8, Sum(top, 8), sp - 8);
  }

  // ---------------------------------------------------------------- the epilogue

  /** The return address the epilogue finds on the shadow stack. */
  function ShadowTop(s: Machine): Word
    requires ShadowReady(s.gs, s.mem) && s.gs + 24 <= ReadWord(s.mem, s.gs + 8)
  {
    ReadWord(s.mem, ReadWord(s.mem, s.gs + 8) - 8)
  }

  /** The stack pointer is at a return slot, the shadow stack is not empty, the scratch register is not RSP. */
  predicate ReturnReady(s: Machine, scratch: Option<Reg>) {
    && s.status == Running && StackReady(s.regs[RSP])
    && ShadowReady(s.gs, s.mem) && s.gs + 24 <= ReadWord(s.mem, s.gs + 8)
    && scratch != Some(RSP)
  }

  function Scratch(scratch: Option<Reg>): Reg {
    match scratch case Some(r) => r case None => R11
  }

  /** Memory once the top has been moved down, R11 being spilled first if there is no scratch register. */
  function Popped(s: Machine, scratch: Option<Reg>): Mem
    requires ReturnReady(s, scratch)
  {
    var m := if scratch == None then WriteWord(s.mem, s.regs[RSP] - 8, s.regs[R11]) else s.mem;
    WriteWord(m, s.gs + 8, ReadWord(s.mem, s.gs + 8) - 8)
  }

  /** The registers after the epilogue: all as before, but for a scratch register found dead. */
  function RegsAfter(s: Machine, scratch: Option<Reg>): Regs
    requires ReturnReady(s, scratch)
  {
    match scratch case Some(r) => s.regs[r := ShadowTop(s)] case None => s.regs
  }

  lemma PopShadowEffect(s: Machine, r: Reg)
    requires s.status == Running && r != RSP
    requires ShadowReady(s.gs, s.mem) && s.gs + 24 <= ReadWord(s.mem, s.gs + 8)
    ensures ExecAll(PopShadow(r), s) == s.(regs := s.regs[r := ShadowTop(s)], zf := false,
              mem := WriteWord(s.mem, s.gs + 8, ReadWord(s.mem, s.gs + 8) - 8))
  {
    hide WriteWord, ReadWord, Exec, ExecAll;
    var top := ReadWord(s.mem, s.gs + 8);
    ExecAllConcat([LoadGs(r, 8), SubImm(r, 8)], [StoreGs(8, r), LoadMem(r, r, 0)], s);
    ExecTwo(LoadGs(r, 8), SubImm(r, 8), s);
    var s1 := s.(regs := s.regs[r := top]);
    assert Exec(LoadGs(r, 8), s) == s1 by { GsEffect(s, r); }
    var s2 := s.(regs := s.regs[r := top - 8], zf := false);
    assert Exec(SubImm(r, 8), s1) == s2 by { AddEffect(s1, r); }
    ExecTwo(StoreGs(8, r), LoadMem(r, r, 0), s2);
    var s3 := s2.(mem := WriteWord(s.mem, s.gs + 8, top - 8));
    assert Exec(StoreGs(8, r), s2) == s3 by { GsEffect(s2, r); }
    WordElsewhere(s.mem, s.gs + 8, top - 8, top - 8);
    assert Exec(LoadMem(r, r, 0), s3) == s3.(regs := s3.regs[r := ShadowTop(s)]) by { LoadEffect(s3, r, r, 0); }
  }

  /** Up to the check: the shadow stack is popped and the popped word is in the scratch register. */
  lemma BeforeCheck(s: Machine, scratch: Option<Reg>)
    requires ReturnReady(s, scratch)
    ensures var r := Scratch(scratch);
      var pre := if scratch == None then [Push(R11)] else [];
      ExecAll(pre + PopShadow(r), s) == s.(mem := Popped(s, scratch), zf := false,
        regs := (if scratch == None then s.regs[RSP := s.regs[RSP] - 8] else s.regs)[r := ShadowTop(s)])
  {
    hide WriteWord, ReadWord, Exec, ExecAll;
    var r := Scratch(scratch);
    if scratch == None {
      var sp := s.regs[RSP];
      var s1 := s.(regs := s.regs[RSP := sp - 8], mem := WriteWord(s.mem, sp - 8, s.regs[R11]));
      ExecAllConcat([Push(R11)], PopShadow(r), s);
      ExecOne(Push(R11), s);
      PushEffect(s, R11);
      WordElsewhere(s.mem, sp - 8, s.regs[R11], s.gs + 8);
      WordElsewhere(s.mem, sp - 8, s.regs[R11], ReadWord(s.mem, s.gs + 8) - 8);
      PopShadowEffect(s1, r);
    } else {
      assert [] + PopShadow(r) == PopShadow(r);
      PopShadowEffect(s, r);
    }
  }

  lemma ExecOne(a: Instr, s: Machine)
    ensures ExecAll([a], s) == Exec(a, s)
  {
    hide Exec;
  }

  /** The pop that ends an epilogue with a spill brings R11 and RSP back. */
  lemma UnspillEffect(s: Machine, m: Mem, zf: bool)
    requires ReturnReady(s, None) && ReadWord(m, s.regs[RSP] - 8) == s.regs[R11]
    ensures var t := s.(mem := m, zf := zf, regs := s.regs[RSP := s.regs[RSP] - 8][R11 := ShadowTop(s)]);
      ExecAll([Pop(R11)], t) == s.(mem := m, zf := zf)
  {
    hide WriteWord, ReadWord, Exec, ExecAll;
    var sp := s.regs[RSP];
    var t := s.(mem := m, zf := zf, regs := s.regs[RSP := sp - 8][R11 := ShadowTop(s)]);
    ExecOne(Pop(R11), t);
    PopEffect(t, R11);
    assert t.regs[RSP := sp][R11 := s.regs[R11]] == s.regs;
  }

  lemma PoppedReads(s: Machine, scratch: Option<Reg>)
    requires ReturnReady(s, scratch)
    ensures ReadWord(Popped(s, scratch), s.regs[RSP]) == ReadWord(s.mem, s.regs[RSP])
    ensures scratch == None ==> ReadWord(Popped(s, scratch), s.regs[RSP] - 8) == s.regs[R11]
    ensures scratch == None ==>
      ReadWord(WriteWord(Popped(s, scratch), s.regs[RSP], ShadowTop(s)), s.regs[RSP] - 8) == s.regs[R11]
  {
    hide WriteWord, ReadWord;
    var sp, top := s.regs[RSP], ReadWord(s.mem, s.gs + 8);
    var m := if scratch == None then WriteWord(s.mem, sp - 8, s.regs[R11]) else s.mem;
    WordElsewhere(m, s.gs + 8, top - 8, sp);
    WordElsewhere(s.mem, sp - 8, s.regs[R11], sp);
    WordElsewhere(m, s.gs + 8, top - 8, sp - 8);
    ReadWritten(s.mem, sp - 8, s.regs[R11]);
    WordElsewhere(Popped(s, scratch), sp, ShadowTop(s), sp - 8);
  }

  /** BlindWrite: the slot is overwritten with the popped word, whatever it held. */
  lemma BlindWriteEffect(s: Machine, scratch: Option<Reg>, bb: nat)
    requires ReturnReady(s, scratch)
    ensures ExecAll(Epilogue(BlindWrite, scratch, bb), s) == s.(regs := RegsAfter(s, scratch), zf := false,
              mem := WriteWord(Popped(s, scratch), s.regs[RSP], ShadowTop(s)))
  {
    hide WriteWord, ReadWord, Exec, ExecAll;
    var r := Scratch(scratch);
    var off := if scratch == None then 8 else 0;
    var pre := if scratch == None then [Push(R11)] else [];
    var t := ExecAll(pre + PopShadow(r), s);
    var m := WriteWord(Popped(s, scratch), s.regs[RSP], ShadowTop(s));
    BeforeCheck(s, scratch);
    ExecAllConcat(pre + PopShadow(r), [StoreMem(RSP, off, r)], s);
    ExecOne(StoreMem(RSP, off, r), t);
    assert Exec(StoreMem(RSP, off, r), t) == t.(mem := m) by { StoreEffect(t, r, RSP, off); }
    if scratch == None {
      ExecAllConcat(pre + PopShadow(r) + [StoreMem(RSP, off, r)], [Pop(R11)], s);
      PoppedReads(s, scratch);
      UnspillEffect(s, m, false);
    } else {
      assert pre + PopShadow(r) + [StoreMem(RSP, off, r)] == PopShadow(r) + [StoreMem(RSP, off, r)];
    }
  }

  lemma CompareEffect(s: Machine, r: Reg, d: Word, bb: nat)
    requires s.status == Running && Accessible(Sum(s.regs[RSP], d), 8)
    ensures var t := ExecAll([CmpMem(RSP, d, r), JumpNotEqual(bb)], s);
      if ReadWord(s.mem, Sum(s.regs[RSP], d)) == s.regs[r] then t == s.(zf := true) else t.status == Trapped
  {
    hide WriteWord, ReadWord;
    ExecTwo(CmpMem(RSP, d, r), JumpNotEqual(bb), s);
  }

  lemma {:induction false} StoppedStays(code: seq<Instr>, s: Machine)
    requires s.status != Running
    ensures ExecAll(code, s) == s
  {
    if code != [] { StoppedStays(code[1..], s); }
  }

  /** Trap: the slot is compared, never written; a difference traps. */
  lemma TrapEffect(s: Machine, scratch: Option<Reg>, bb: nat)
    requires ReturnReady(s, scratch)
    ensures var t := ExecAll(Epilogue(TrapOnMismatch, scratch, bb), s);
      if ReadWord(s.mem, s.regs[RSP]) == ShadowTop(s)
      then t == s.(regs := RegsAfter(s, scratch), zf := true, mem := Popped(s, scratch))
      else t.status == Trapped
  {
    hide WriteWord, ReadWord, Exec, ExecAll;
    var r := Scratch(scratch);
    var off := if scratch == None then 8 else 0;
    var pre := if scratch == None then [Push(R11)] else [];
    var check := [CmpMem(RSP, off, r), JumpNotEqual(bb)];
    var t := ExecAll(pre + PopShadow(r), s);
    BeforeCheck(s, scratch);
    ExecAllConcat(pre + PopShadow(r), check, s);
    CompareEffect(t, r, off, bb);
    PoppedReads(s, scratch);
    if scratch == None {
      ExecAllConcat(pre + PopShadow(r) + check, [Pop(R11)], s);
      var u := ExecAll(check, t);
      if u.status == Trapped {
        StoppedStays([Pop(R11)], u);
      } else {
        UnspillEffect(s, Popped(s, scratch), true);
      }
    } else {
      assert pre + PopShadow(r) + check == PopShadow(r) + check;
    }
  }
}
