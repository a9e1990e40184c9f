// Machine facts for statements: the switch's compare chain and zeroing memory.

module SimBlocks {
  import opened Words
  import opened CTree
  import opened X64
  import opened Gen
  import opened SimBase
  import opened SimOps
  import opened SimMoves

  // ---- the compare chain -----------------------------------------------------

  /** One link: mov r11, key; cmp rax, r11; je label. */
  lemma LinkRun(w: World, code: seq<Instr>, s: State, ty: Ty, v: int, key: int, rel: int)
    requires s.status == Running && ty.Int? && Fits(v, ty.w, ty.uns) && Fits(key, ty.w, ty.uns)
    requires s.rax == Enc(v) && CodeAt(code, s.pc, [MovR11Imm(Enc(key)), CmpRaxR11, J(Z, rel)])
    ensures var t := Run(w, code, s, 3);
            OnlyRegs(s, t) && t.rax == s.rax && t.pc == s.pc + 3 + (if v == key then rel else 0)
  {
    hide Run, All, Data, Enc, Fits, Signed;
    var i, j := MovR11Imm(Enc(key)), CmpRaxR11;
    assert [i, j, J(Z, rel)] == [i, j] + [J(Z, rel)];
    CodeSplit(code, s.pc, [i, j], [J(Z, rel)]);
    assert InLine([i, j]);
    RunAll(w, code, s, [i, j]);
    All2(w, i, j, s);
    DataOther(w, i, s.(pc := s.pc + 1));
    var s1 := s.(pc := s.pc + 1, r := s.r.(r11 := Enc(key)));
    All1(w, j, s1);
    DataFlag(w, j, s1.(pc := s1.pc + 1));
    if Enc(v) == Enc(key) {
      EncInjective(v, key, ty.w, ty.uns);
    }
    JumpStep(w, code, Run(w, code, s, 2), Z, rel);
    RunAdd(w, code, s, 2, 1);
  }

  /** The chain reaches the matching label, or falls through when there is none. */
  lemma {:induction false} ChainRun(w: World, code: seq<Instr>, s: State, ty: Ty, v: int,
                                    keys: seq<int>, b: Stmt, body: int) returns (m: nat)
    requires s.status == Running && ty.Int? && Fits(v, ty.w, ty.uns) && s.rax == Enc(v)
    requires forall u :: u in keys ==> Fits(u, ty.w, ty.uns)
    requires CodeAt(code, s.pc, Chain(keys, b, body, s.pc))
    ensures m <= 3 * |keys|
    ensures var t := Run(w, code, s, m);
            && OnlyRegs(s, t)
            && t.pc == if v in keys then body + CaseOff(b, CaseOf(v)) else s.pc + 3 * |keys|
    decreases |keys|
  {
    hide Run, Enc, Fits, CaseOff, CodeAt;
    m := 0;
    if keys == [] {
      RunNone(w, code, s);
    } else {
      var off := body + CaseOff(b, CaseOf(keys[0]));
      var link := [MovR11Imm(Enc(keys[0])), CmpRaxR11, Far(Z, off, s.pc + 2)];
      CodeSplit(code, s.pc, link, Chain(keys[1..], b, body, s.pc + 3));
      LinkRun(w, code, s, ty, v, keys[0], off - (s.pc + 3));
      m := 3;
      if v != keys[0] {
        var m2 := ChainRun(w, code, Run(w, code, s, 3), ty, v, keys[1..], b, body);
        RunAdd(w, code, s, 3, m2);
        m := 3 + m2;
      }
    }
  }

  lemma RunNone(w: World, code: seq<Instr>, s: State)
    ensures Run(w, code, s, 0) == s
  {
  }

  // ---- zeroing -----------------------------------------------------------------

  lemma {:induction false} ZeroJoin(mem: Mem, a: nat, m: nat, n: nat)
    requires a + m + n <= |mem|
    ensures ZeroFill(ZeroFill(mem, a, m), a + m, n) == ZeroFill(mem, a, m + n)
    decreases m
  {
    if m > 0 {
      ZeroJoin(mem[a := 0], a + 1, m - 1, n);
    }
  }

  lemma ZeroAtRun(w: World, s: State, k: nat, n: nat)
    requires s.status == Running
    ensures InLine([ZeroAt(k, n)])
    ensures All(w, [ZeroAt(k, n)], s)
            == if s.rax + k + n > |s.mem| then s.(pc := s.pc + 1, status := Trapped)
               else s.(pc := s.pc + 1, mem := ZeroFill(s.mem, s.rax + k, n))
  {
    hide Data, ZeroFill;
    All1(w, ZeroAt(k, n), s);
    DataMemory(w, ZeroAt(k, n), s.(pc := s.pc + 1));
  }

  /** The unrolled form: chunks of 8, 4, 2 and 1 bytes. */
  lemma {:induction false} ChunksRun(w: World, s: State, k: nat, size: nat)
    requires s.status == Running && k <= size
    ensures InLine(ZeroChunks(k, size))
    ensures var t := All(w, ZeroChunks(k, size), s);
            if s.rax + size <= |s.mem| then
              t == s.(pc := s.pc + |ZeroChunks(k, size)|, mem := ZeroFill(s.mem, s.rax + k, size - k))
            else k < size ==> t.status == Trapped
    decreases size - k
  {
    hide All, ZeroFill;
    if k == size {
      AllNone(w, s);
      ZeroNone(s.mem, s.rax + k);
    } else {
      var c := Chunk(size - k);
      ZeroAtRun(w, s, k, c);
      ChunksInLine(k + c, size);
      AllAdd(w, [ZeroAt(k, c)], ZeroChunks(k + c, size), s);
      var t := All(w, [ZeroAt(k, c)], s);
      if s.rax + k + c > |s.mem| {
        AllHalted(w, t, ZeroChunks(k + c, size));
      } else {
        ChunksRun(w, t, k + c, size);
        if s.rax + size <= |s.mem| {
          ZeroJoin(s.mem, s.rax + k, c, size - k - c);
        }
      }
    }
  }

  lemma ZeroNone(mem: Mem, a: nat)
    ensures a <= |mem| ==> ZeroFill(mem, a, 0) == mem
  {
  }

  lemma AllHalted(w: World, s: State, seg: seq<Instr>)
    requires s.status == Trapped
    ensures All(w, seg, s) == s
  {
  }

  lemma {:induction false} ChunksInLine(k: nat, size: nat)
    requires k <= size
    ensures InLine(ZeroChunks(k, size))
    decreases size - k
  {
    if k < size {
      ChunksInLine(k + Chunk(size - k), size);
    }
  }

  const BYTE_LOOP := [ZeroAt(0, 1), IncRax, DecRcx]

  lemma CountRun(w: World, s: State, rem: nat)
    requires s.status == Running && 1 <= rem < 0x8000_0000 && s.r.rcx == rem && s.rax < |s.mem|
    ensures var t := All(w, [IncRax, DecRcx], s);
            && t == s.(pc := s.pc + 2, rax := s.rax + 1, r := s.r.(rcx := rem - 1), fl := t.fl)
            && (t.fl.zf <==> rem == 1)
  {
    hide All, Data;
    var j, l := IncRax, DecRcx;
    All2(w, j, l, s);
    DataAlu(w, j, s.(pc := s.pc + 1));
    var s2 := s.(pc := s.pc + 1, rax := s.rax + 1);
    All1(w, l, s2);
    DataFlag(w, l, s2.(pc := s2.pc + 1));
  }

  /** One byte of the counted loop. */
  lemma ByteRun(w: World, code: seq<Instr>, s: State, rem: nat)
    requires s.status == Running && 1 <= rem < 0x8000_0000 && s.r.rcx == rem
    requires CodeAt(code, s.pc, BYTE_LOOP) && CodeAt(code, s.pc + 3, [J(NZ, -4)])
    ensures s.rax + 1 > |s.mem| ==> Run(w, code, s, 4).status == Trapped
    ensures s.rax + 1 <= |s.mem| ==>
              var t := Run(w, code, s, 4);
              && t == s.(pc := t.pc, rax := s.rax + 1, r := t.r, fl := t.fl, mem := s.mem[s.rax := 0])
              && t.r.rcx == rem - 1 && t.pc == if rem == 1 then s.pc + 4 else s.pc
  {
    hide Run, All, Data, CodeAt, ZeroFill;
    assert InLine(BYTE_LOOP);
    RunAll(w, code, s, BYTE_LOOP);
    RunAdd(w, code, s, 3, 1);
    assert BYTE_LOOP == [ZeroAt(0, 1)] + [IncRax, DecRcx];
    AllAdd(w, [ZeroAt(0, 1)], [IncRax, DecRcx], s);
    ZeroAtRun(w, s, 0, 1);
    var t := All(w, [ZeroAt(0, 1)], s);
    if s.rax + 1 > |s.mem| {
      AllHalted(w, t, [IncRax, DecRcx]);
      RunStopped(w, code, t, 1);
    } else {
      ZeroOne(s.mem, s.rax);
      CountRun(w, t, rem);
      JumpStep(w, code, Run(w, code, s, 3), NZ, -4);
    }
  }

  lemma ZeroOne(mem: Mem, a: nat)
    requires a + 1 <= |mem|
    ensures ZeroFill(mem, a, 1) == mem[a := 0]
  {
    assert ZeroFill(mem[a := 0], a + 1, 0) == mem[a := 0];
  }

  /** The counted loop zeroes exactly `rem` bytes or faults. */
  lemma {:induction false} BytesRun(w: World, code: seq<Instr>, s: State, rem: nat)
    requires s.status == Running && 1 <= rem < 0x8000_0000 && s.r.rcx == rem
    requires CodeAt(code, s.pc, BYTE_LOOP) && CodeAt(code, s.pc + 3, [J(NZ, -4)])
    ensures var t := Run(w, code, s, 4 * rem);
            if s.rax + rem <= |s.mem| then
              t == s.(pc := s.pc + 4, rax := t.rax, r := t.r, fl := t.fl, mem := ZeroFill(s.mem, s.rax, rem))
            else t.status == Trapped
    decreases rem
  {
    hide Run, CodeAt;
    ByteRun(w, code, s, rem);
    RunAdd(w, code, s, 4, 4 * (rem - 1));
    var t := Run(w, code, s, 4);
    if s.rax + 1 > |s.mem| {
      RunStopped(w, code, t, 4 * (rem - 1));
    } else if rem == 1 {
      RunNone(w, code, t);
      ZeroOne(s.mem, s.rax);
    } else {
      BytesRun(w, code, t, rem - 1);
    }
  }

  lemma ZeroParts(code: seq<Instr>, pc: int, size: nat)
    requires size > 64 && CodeAt(code, pc, ZeroCode(size))
    ensures CodeAt(code, pc, [MovRcxImm(Enc(size))])
    ensures CodeAt(code, pc + 1, BYTE_LOOP) && CodeAt(code, pc + 4, [J(NZ, -4)])
  {
    hide CodeAt;
    var a, b := [MovRcxImm(Enc(size))], [J(NZ, -4)];
    assert ZeroCode(size) == a + BYTE_LOOP + b;
    CodeSplit(code, pc, a + BYTE_LOOP, b);
    CodeSplit(code, pc, a, BYTE_LOOP);
  }

  /** Both forms, with their cost. */
  lemma ZeroRun(w: World, code: seq<Instr>, s: State, size: nat) returns (m: nat)
    requires s.status == Running && 1 <= size < 0x8000_0000 && CodeAt(code, s.pc, ZeroCode(size))
    ensures m <= if size <= 64 then |ZeroCode(size)| else 1 + 4 * size
    ensures var t := Run(w, code, s, m);
            if s.rax + size <= |s.mem| then
              t == s.(pc := s.pc + |ZeroCode(size)|, rax := t.rax, r := t.r, fl := t.fl,
                      mem := ZeroFill(s.mem, s.rax, size))
            else t.status == Trapped
  {
    hide Run, All, Data, CodeAt, ZeroFill, ZeroChunks;
    if size <= 64 {
      ChunksRun(w, s, 0, size);
      RunAll(w, code, s, ZeroChunks(0, size));
      m := |ZeroCode(size)|;
    } else {
      ZeroParts(code, s.pc, size);
      var i := MovRcxImm(Enc(size));
      assert InLine([i]);
      RunAll(w, code, s, [i]);
      All1(w, i, s);
      DataOther(w, i, s.(pc := s.pc + 1));
      BytesRun(w, code, Run(w, code, s, 1), size);
      RunAdd(w, code, s, 1, 4 * size);
      m := 1 + 4 * size;
    }
  }
}
