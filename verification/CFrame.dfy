// The layout of one function's frame: sixteen hidden temporaries just below the
// frame pointer, then parameters and locals downwards.

module CFrame {
  import opened Words
  import opened CTree
  import opened CFence
  import opened CUpdate
  import opened CLowers

  const TEMP_BYTES: int := 8 * SLOTS
  const MAX_FRAME: int := 2048

  /** `size` bytes at offset `off` from the frame pointer. */
  datatype Slot = Slot(off: int, size: int)

  predicate Apart(a: Slot, b: Slot) { a.off + a.size <= b.off || b.off + b.size <= a.off }

  /** A variable lies below the temporaries and above the end of the frame. */
  predicate Below(s: Slot, end: int) { end <= s.off && 0 < s.size && s.off + s.size <= -TEMP_BYTES }

  /** Rounding down to a multiple, for offsets that are negative. */
  function RoundedDown(x: int, align: int): (r: int)
    requires x <= 0 && align >= 1
    ensures r <= x < r + align && r % align == 0
  {
    Multiple(-x, align);
    -((-x + align - 1) / align * align)
  }

  lemma Multiple(y: nat, align: int)
    requires align >= 1
    ensures var up := (y + align - 1) / align * align; y <= up < y + align && (-up) % align == 0
  {
    var q, r := (y + align - 1) / align, (y + align - 1) % align;
    assert y + align - 1 == q * align + r;
    AddMultiple(0, -q, align);
    assert -(q * align) == 0 + align * -q;
  }

  class Frame {
    var curOffset: int
    var ntemp: nat
    var tempPeak: nat
    ghost var vars: seq<Slot>

    ghost predicate Valid()
      reads this
    {
      && -MAX_FRAME <= curOffset <= -TEMP_BYTES
      && ntemp <= tempPeak <= SLOTS
      && (forall i :: 0 <= i < |vars| ==> Below(vars[i], curOffset))
      && (forall i, j :: 0 <= i < j < |vars| ==> Apart(vars[i], vars[j]))
    }

    /** A function starts below its temporaries. */
    constructor ()
      ensures Valid() && curOffset == -TEMP_BYTES && ntemp == 0 && vars == []
    {
      curOffset, ntemp, tempPeak, vars := -TEMP_BYTES, 0, 0, [];
    }

    /** Temporaries are free again at every statement. */
    method NewStatement()
      requires Valid()
      modifies this`ntemp
      ensures Valid() && ntemp == 0
    {
      ntemp := 0;
    }

    /** Room for a parameter or local: aligned, apart from every other variable
        and from every temporary. Refused exactly when it has no size, when the
        frame would be too large, or when there is no memory for its symbol, which
        `room` says. */
    method NewLocal(size: int, align: int, room: bool) returns (ok: bool, off: int)
      requires Valid()
      modifies this`curOffset, this`vars
      ensures size <= 0 ==> !ok && curOffset == old(curOffset) && vars == old(vars)
      ensures size > 0 ==>
                var al := if align < 1 then 1 else align;
                && off == RoundedDown(old(curOffset) - size, al)
                && (ok <==> -off <= MAX_FRAME && room)
                && (ok ==> Valid() && curOffset == off && vars == old(vars) + [Slot(off, size)] && off % al == 0)
    {
      if size <= 0 {
        return false, 0;
      }
      var al := if align < 1 then 1 else align;
      curOffset := curOffset - size;
      curOffset := RoundedDown(curOffset, al);
      off := curOffset;
      ok := -curOffset <= MAX_FRAME && room;
      if ok {
        vars := vars + [Slot(off, size)];
      }
    }

    /** The next hidden temporary of this statement; `room` says whether there is
        memory for its symbol. */
    method NewTemp(room: bool) returns (ok: bool, off: int)
      requires Valid()
      modifies this`ntemp, this`tempPeak
      ensures Valid()
      ensures ok <==> old(ntemp) < SLOTS && room
      ensures ok ==> ntemp == old(ntemp) + 1 && Local(off) == Temp(old(ntemp))
    {
      if ntemp >= SLOTS {
        return false, 0;
      }
      var slot: int := ntemp;
      ntemp := ntemp + 1;
      if ntemp > tempPeak {
        tempPeak := ntemp;
      }
      if !room {
        return false, 0;
      }
      return true, -8 * (slot + 1);
    }

    /** The frame a finished function asks for: no more than needed to hold every
        variable and temporary and keep the stack aligned. */
    method FrameBytes() returns (bytes: int)
      requires Valid()
      ensures bytes % 16 == 0 && -curOffset <= bytes < -curOffset + 16 && bytes <= MAX_FRAME
      ensures forall i :: 0 <= i < |vars| ==> Within(vars[i], bytes)
      ensures forall n :: 0 <= n < SLOTS ==> Within(TempSlot(n), bytes)
    {
      var frame := -curOffset;
      bytes := (frame + 15) / 16 * 16;
      forall i | 0 <= i < |vars|
        ensures Within(vars[i], bytes)
      {
        assert Below(vars[i], curOffset);
      }
    }
  }

  /** The slot lies between the frame pointer and the end of the frame. */
  predicate Within(s: Slot, bytes: int) { -bytes <= s.off && 0 < s.size && s.off + s.size <= 0 }

  function TempSlot(n: nat): Slot { Slot(-8 * (n + 1), 8) }

  /** Two temporaries of one statement never overlap, and none overlaps a
      variable of the frame. */
  lemma TempsApart(m: nat, n: nat, v: Slot, end: int)
    requires m < SLOTS && n < SLOTS && Below(v, end)
    ensures (m != n ==> Apart(TempSlot(m), TempSlot(n))) && Apart(TempSlot(m), v)
  {
  }

  /** An access to a variable of the frame stays clear of the temporaries, so it
      is never what the fence is there to exclude. */
  lemma VariableUnfenced(w: World, fp: int, m: Mem, v: Slot, end: int)
    requires Home(w, fp, m) && Below(v, end) && -fp <= end
    ensures !Fenced(w, Enc(fp + v.off), v.size)
  {
  }

  /** A statement's expression, as the parser leaves it, means what was written:
      same value, same fuel, same memory but for the temporaries. */
  lemma StatementMeans(w: World, e: Src, fp: int, sp: int, mem: Mem, fuel: nat)
    requires Blind(w) && Home(w, fp, mem) && Lower(e, 0).1 <= SLOTS
    ensures var r1, r2 := MeanE(w, e, fp, sp, mem, fuel), EvalE(Bare(w), Lower(e, 0).0, fp, sp, mem, fuel);
            Fine(w, r1, r2, mem, fp, 0, Lower(e, 0).1)
  {
    LowersE(w, e, 0, fp, sp, mem, mem, fuel);
  }
}
