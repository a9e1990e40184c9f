// Running a compiled image: the fuel it is given, and what is reported of the run.

module CcRun {
  import opened Words
  import opened CTree
  import opened X64
  import opened Gen
  import opened NeverWild
  import opened SimUnit

  const FUEL_DEFAULT: nat := 2_000_000
  const FUEL_MAX: nat := 50_000_000

  /** Zero asks for the default; more than the maximum is cut to it. */
  function Given(asked: nat): (f: nat)
    ensures 0 < f <= FUEL_MAX
  {
    if asked == 0 then FUEL_DEFAULT else if asked > FUEL_MAX then FUEL_MAX else asked
  }

  /** Fuel spent, given what is left. */
  function SpentOf(given: int, left: int): int { given - left }

  datatype Code = Fine | OutOfFuel | OutOfStack

  datatype Report = Report(code: Code, value: Word, used: int)

  /** What the caller is told, from the state the run left. */
  function Reported(given: nat, t: State): Report {
    var left := if t.fuel < 0 then 0 else t.fuel;
    Report(if t.rt.aborted == 1 then OutOfFuel else if t.rt.aborted == 2 then OutOfStack else Fine, t.rax, given - left)
  }

  /** The report tells what the program means: its value and exactly the fuel it
      spent, or the budget it ran out of; and no run takes more steps than the
      most fuel anyone can be given allows. */
  lemma ReportMeans(w: World, entry: nat, s: State, asked: nat) returns (n: nat)
    requires Open(w) && entry < |w.funcs|
    requires s.status == Running && s.pc == 0 && s.fuel == Given(asked) && s.rt.aborted == 0
    requires s.rt.limit == w.limit && s.rt.prsp % 16 == 0
    ensures n <= 8 + MaxWeight(w.funcs) * (FUEL_MAX + 1)
    ensures var t := Run(w, GenUnit(w.funcs, entry), s, n);
            var r := RunFunc(w, w.funcs[entry], Incoming(w, entry, s), s.rt.prsp, s.mem, s.fuel);
            && (r.Trap? <==> t.status == Trapped)
            && (r.Ok? ==>
                 Reported(Given(asked), t) == Report(Fine, t.rax, SpentOf(Given(asked), r.fuel))
                 && (w.funcs[entry].ret.Int? ==> t.rax == Enc(r.v)))
            && (r.NoFuel? ==> Reported(Given(asked), t) == Report(OutOfFuel, 0, Given(asked)))
            && (r.NoStack? ==> Reported(Given(asked), t) == Report(OutOfStack, 0, SpentOf(Given(asked), r.fuel)))
            && !r.Wild?
  {
    hide Run, GenUnit, RunFunc, Incoming, WellFormedUnit, MaxWeight, Enc;
    n := ImageRuns(w, entry, s);
    TameF(w, entry, Incoming(w, entry, s), s.rt.prsp, s.mem, s.fuel);
    Dearer(MaxWeight(w.funcs), s.fuel + 1, FUEL_MAX + 1);
  }

  lemma Dearer(per: nat, a: nat, b: nat)
    requires a <= b
    ensures per * a <= per * b
  {
  }
}
