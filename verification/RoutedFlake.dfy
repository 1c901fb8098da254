/** pkg/idgen/routedflake.go: ids of 41 timestamp bits, a 12-bit middle shared by a route hint that
    grows down from its top and a machine id that grows up from its bottom, and 10 sequence bits. */
module RoutedFlake {
  import opened GoText
  import opened BitFields
  import opened Ticker

  const LIMITS := Limits(1024, Some(0x1FF_FFFF_FFFF))

  /** Field widths are Go `uint`s, so they lie below 2^64; the machine id is an int64. */
  datatype Config = Config(hintBits: nat, machineBits: nat, machineId: int) {
    predicate WellTyped() {
      hintBits < TWO64 && machineBits < TWO64 && -TWO63 <= machineId < TWO63
    }

    /** The widths share the middle and the machine id fits its field. */
    predicate Fits() {
      machineBits >= 1 && hintBits + machineBits <= 12 && 0 <= machineId < Pow2(machineBits)
    }

    /** The sum of the widths wraps around to a small number, so the budget check passes. */
    predicate Wraps() {
      && 1 <= machineBits <= 63
      && TWO64 <= hintBits + machineBits <= TWO64 + 12
      && 0 <= machineId < Pow2(machineBits)
    }
  }

  datatype Layout = Layout(hintShift: nat, hintMax: int, machinePart: int)

  datatype ConfigError = NoMachineBits | BudgetExceeded | MachineOutOfRange

  datatype Configured = Ready(layout: Layout) | Rejected(error: ConfigError)

  /** `NewRoutedFlake` up to the allocation. */
  function Configure(cfg: Config): Configured {
    if cfg.machineBits < 1 then Rejected(NoMachineBits)
    else if ToUint64(cfg.hintBits + cfg.machineBits) > 12 then Rejected(BudgetExceeded)
    else if cfg.machineId < 0 || cfg.machineId > LowMask(cfg.machineBits) then Rejected(MachineOutOfRange)
    else Ready(Layout(ToUint64(10 + ToUint64(12 - cfg.hintBits)), LowMask(cfg.hintBits), Shl64(cfg.machineId, 10)))
  }

  lemma NarrowMachine(cfg: Config)
    requires cfg.machineBits <= 12 && 0 <= cfg.machineId < Pow2(cfg.machineBits)
    ensures cfg.machineId < 4096 && Shl64(cfg.machineId, 10) == cfg.machineId * 1024
  {
    Pow2Mono(cfg.machineBits, 12);
    assert Pow2(12) == 4096 && Pow2(10) == 1024;
    Shl64Exact(cfg.machineId, 10);
  }

  /** The constructor accepts exactly the configurations that fit and those whose width sum wraps;
      the latter reject every hint, so they can never mint. */
  lemma ConfigureAccepts(cfg: Config)
    requires cfg.WellTyped()
    ensures Configure(cfg).Ready? <==> cfg.Fits() || cfg.Wraps()
    ensures cfg.Fits() ==>
      Configure(cfg) == Ready(Layout(22 - cfg.hintBits, Pow2(cfg.hintBits) - 1, cfg.machineId * 1024))
    ensures cfg.Wraps() ==> Configure(cfg).layout.hintMax == -1
  {
    LowMaskValue(cfg.machineBits);
    LowMaskValue(cfg.hintBits);
    SumWraps(cfg.hintBits, cfg.machineBits);
    if cfg.Fits() { FittingLayout(cfg); }
  }

  lemma FittingLayout(cfg: Config)
    requires cfg.Fits()
    ensures Configure(cfg) == Ready(Layout(22 - cfg.hintBits, Pow2(cfg.hintBits) - 1, cfg.machineId * 1024))
  {
    hide Pow2, LowMask, Shl64, ToUint64;
    SumWraps(cfg.hintBits, cfg.machineBits);
    LowMaskValue(cfg.machineBits);
    LowMaskValue(cfg.hintBits);
    NarrowMachine(cfg);
    HintOffset(cfg.hintBits);
  }

  lemma SumWraps(a: nat, b: nat)
    requires a < TWO64 && b < TWO64
    ensures ToUint64(a + b) == if a + b < TWO64 then a + b else a + b - TWO64
  {
  }

  lemma HintOffset(h: nat)
    requires h <= 12
    ensures ToUint64(10 + ToUint64(12 - h)) == 22 - h
  {
  }

  // ---------------------------------------------------------------- packing

  predicate HintFits(cfg: Config, hint: int) {
    0 <= hint < Pow2(cfg.hintBits)
  }

  function Middle(cfg: Config, hint: nat): nat
    requires cfg.Fits()
  {
    hint * Pow2(12 - cfg.hintBits) + cfg.machineId
  }

  /** The id as a number. */
  function Pack(cfg: Config, tick: nat, hint: nat, s: nat): nat
    requires cfg.Fits()
  {
    tick * 0x40_0000 + Middle(cfg, hint) * 1024 + s
  }

  lemma MulMono(a: nat, b: nat, p: nat)
    requires a <= b
    ensures a * p <= b * p
  {
  }

  /** The hint part stops where the reserved gap or the machine field begins. */
  lemma MiddleBounds(cfg: Config, hint: nat)
    requires cfg.Fits() && HintFits(cfg, hint)
    ensures cfg.machineId < Pow2(12 - cfg.hintBits)
    ensures 0 <= hint * Pow2(12 - cfg.hintBits) <= 4096 - Pow2(12 - cfg.hintBits)
    ensures Middle(cfg, hint) < 4096
  {
    hide Pow2;
    var gap := Pow2(12 - cfg.hintBits);
    Pow2Mono(cfg.machineBits, 12 - cfg.hintBits);
    Pow2Add(cfg.hintBits, 12 - cfg.hintBits);
    Pow2Of12();
    MulMono(hint + 1, Pow2(cfg.hintBits), gap);
    MulAddDistrib(hint, 1, gap);
    MulNonneg(hint, gap);
  }

  lemma HintShifted(cfg: Config, hint: nat)
    requires cfg.Fits() && HintFits(cfg, hint)
    ensures Pow2(22 - cfg.hintBits) == Pow2(12 - cfg.hintBits) * 1024
    ensures Shl64(hint, 22 - cfg.hintBits) == hint * Pow2(12 - cfg.hintBits) * 1024
  {
    var gap := Pow2(12 - cfg.hintBits);
    assert Pow2(22 - cfg.hintBits) == gap * 1024 by {
      Pow2Add(12 - cfg.hintBits, 10);
      assert Pow2(10) == 1024;
    }
    MiddleBounds(cfg, hint);
    MulAssoc(hint, gap, 1024);
    Shl64Exact(hint, 22 - cfg.hintBits);
  }

  lemma MulNonneg(a: nat, b: nat)
    ensures a * b >= 0
  {
  }

  lemma MulAssoc(a: int, b: int, c: int)
    ensures a * b * c == a * (b * c)
  {
  }

  /** A tick and a hint side by side are one field above the gap. */
  lemma TickAndHint(tick: nat, hints: nat, gap: nat, hint: nat) returns (q: nat)
    requires hints * gap == 4096
    ensures tick * 0x40_0000 + hint * gap * 1024 == q * (gap * 1024)
  {
    MulNonneg(tick, hints);
    q := tick * hints + hint;
    calc {
      q * (gap * 1024);
      tick * hints * (gap * 1024) + hint * (gap * 1024);
      { MulAssoc(tick, hints, gap * 1024); MulAssoc(hints, gap, 1024); MulAssoc(hint, gap, 1024); }
      tick * (4096 * 1024) + hint * gap * 1024;
    }
  }

  lemma HintsTimesGap(h: nat)
    requires h <= 12
    ensures Pow2(h) * Pow2(12 - h) == 4096
  {
    Pow2Add(h, 12 - h);
    Pow2Of12();
  }

  lemma OrHigh(cfg: Config, tick: nat, hint: nat)
    requires cfg.Fits() && HintFits(cfg, hint) && tick <= 0x1FF_FFFF_FFFF
    ensures Or64(Shl64(tick, 22), Shl64(hint, 22 - cfg.hintBits))
         == tick * 0x40_0000 + hint * Pow2(12 - cfg.hintBits) * 1024
  {
    MiddleBounds(cfg, hint);
    HintShifted(cfg, hint);
    Pow2Values();
    Shl64Exact(tick, 22);
    Or64Disjoint(tick * 0x40_0000, tick, 22, hint * Pow2(12 - cfg.hintBits) * 1024);
  }

  lemma OrMachine(cfg: Config, tick: nat, hint: nat)
    requires cfg.Fits() && HintFits(cfg, hint) && tick <= 0x1FF_FFFF_FFFF
    ensures Or64(tick * 0x40_0000 + hint * Pow2(12 - cfg.hintBits) * 1024, cfg.machineId * 1024)
         == (tick * 4096 + Middle(cfg, hint)) * 1024
  {
    MiddleBounds(cfg, hint);
    HintShifted(cfg, hint);
    HintsTimesGap(cfg.hintBits);
    var q := TickAndHint(tick, Pow2(cfg.hintBits), Pow2(12 - cfg.hintBits), hint);
    var high := hint * Pow2(12 - cfg.hintBits);
    assert Middle(cfg, hint) == high + cfg.machineId;
    Or64Disjoint(tick * 0x40_0000 + high * 1024, q, 22 - cfg.hintBits, cfg.machineId * 1024);
  }

  /** Or-ing the four shifted fields together is the arithmetic packing: the fields never overlap. */
  lemma PackIsOr(cfg: Config, tick: nat, hint: nat, s: nat)
    requires cfg.Fits() && HintFits(cfg, hint) && tick <= 0x1FF_FFFF_FFFF && s < 1024
    ensures Or64(Or64(Or64(Shl64(tick, 22), Shl64(hint, 22 - cfg.hintBits)), cfg.machineId * 1024), s)
         == Pack(cfg, tick, hint, s)
  {
    hide Or64, Shl64, Pow2, Middle;
    OrHigh(cfg, tick, hint);
    OrMachine(cfg, tick, hint);
    MiddleBounds(cfg, hint);
    OrSequence(tick * 4096 + Middle(cfg, hint), s);
  }

  /** Ids are positive int64 values and order by tick first. */
  lemma PackBounds(cfg: Config, tick: nat, hint: nat, s: nat)
    requires cfg.Fits() && HintFits(cfg, hint) && s < 1024
    ensures tick * 0x40_0000 <= Pack(cfg, tick, hint, s) < (tick + 1) * 0x40_0000
    ensures tick <= 0x1FF_FFFF_FFFF ==> Pack(cfg, tick, hint, s) < TWO63
  {
    MiddleBounds(cfg, hint);
  }

  // ---------------------------------------------------------------- reading the fields back

  function TickOf(id: int): int { And64(Shr64(id, 22), 0x1FF_FFFF_FFFF) }

  function SequenceOf(id: int): int { And64(id, 1023) }

  /** The low machineBits bits of the middle. */
  function MachineOf(id: int, machineBits: nat): int { And64(Shr64(id, 10), LowMask(machineBits)) }

  /** The high hintBits bits of the middle. */
  function HintOf(id: int, hintBits: nat): int
    requires hintBits <= 12
  {
    And64(Shr64(id, 22 - hintBits), LowMask(hintBits))
  }

  /** The bits between the two fields. */
  function GapOf(id: int, cfg: Config): int
    requires cfg.Fits()
  {
    And64(Shr64(id, 10 + cfg.machineBits), LowMask(12 - cfg.hintBits - cfg.machineBits))
  }

  lemma MulAddDistrib(a: int, b: int, p: int)
    ensures (a + b) * p == a * p + b * p
  {
  }

  /** Dividing by p a sum whose first part is a multiple of p. */
  lemma DivOfSum(a: int, p: int, b: int)
    requires p > 0
    ensures (a * p + b) / p == a + b / p
    ensures (a * p + b) % p == b % p
  {
    MulAddDistrib(a, b / p, p);
    ModUnique(a * p + b, p, a + b / p, b % p);
  }

  lemma DivTwice(x: nat, a: nat, b: nat)
    requires a > 0 && b > 0
    ensures a * b > 0 && x / (a * b) == x / a / b
  {
    var q, r := x / a / b, (x / a) % b;
    var s := x % a;
    MulStrict(0, b, a);
    assert x / a == q * b + r;
    assert x == (q * b + r) * a + s;
    MulAddDistrib(q * b, r, a);
    MulAssoc(q, b, a);
    assert r * a + s < a * b by { MulMono(r + 1, b, a); MulAddDistrib(r, 1, a); }
    MulNonneg(r, a);
    ModUnique(x, a * b, q, r * a + s);
  }

  lemma WindowSizes(offset: nat, width: nat)
    requires offset + width <= 12
    ensures Pow2(12 - offset) * Pow2(offset) == 4096
    ensures Pow2(12 - offset - width) * Pow2(width) == Pow2(12 - offset)
    ensures Pow2(10 + offset) == 1024 * Pow2(offset)
  {
    Pow2Add(12 - offset, offset);
    Pow2Add(12 - offset - width, width);
    Pow2Add(10, offset);
    Pow2Of10();
    Pow2Of12();
  }

  /** Above its tick, an id shifted into the middle is the shifted middle. */
  lemma ShiftIntoMiddle(tick: nat, middle: nat, s: nat, offset: nat)
    requires s < 1024 && offset <= 12
    ensures Shr64(tick * 0x40_0000 + middle * 1024 + s, 10 + offset) == tick * Pow2(12 - offset) + middle / Pow2(offset)
  {
    var x, p, c := tick * 0x40_0000 + middle * 1024 + s, Pow2(offset), Pow2(12 - offset);
    WindowSizes(offset, 0);
    DivTwice(x, 1024, p);
    assert x / 1024 == tick * 4096 + middle;
    MulAssoc(tick, c, p);
    DivOfSum(tick * c, p, middle);
  }

  lemma DivShrinks(x: nat, p: nat)
    requires p >= 1
    ensures 0 <= x / p <= x
  {
    MulMono(1, p, x / p);
  }

  lemma MaskOfSum(y: nat, a: nat, width: nat, u: nat)
    requires width <= 62 && y == a * Pow2(width) + u && y < TWO63
    ensures And64(y, LowMask(width)) == u % Pow2(width)
  {
    hide Pow2, And64, LowMask;
    LowMaskValue(width);
    And64Mask(y, width);
    DivOfSum(a, Pow2(width), u);
  }

  lemma Regroup(tick: nat, t: nat, w: nat, c: nat)
    requires t * w == c
    ensures tick * t >= 0 && tick * c == tick * t * w
  {
    MulAssoc(tick, t, w);
    MulNonneg(tick, t);
  }

  /** Shifting and masking an id reads the same window of its middle. */
  lemma ReadMiddle(tick: nat, middle: nat, s: nat, offset: nat, width: nat)
    requires tick <= 0x1FF_FFFF_FFFF && middle < 4096 && s < 1024 && offset + width <= 12
    ensures And64(Shr64(tick * 0x40_0000 + middle * 1024 + s, 10 + offset), LowMask(width))
         == (middle / Pow2(offset)) % Pow2(width)
  {
    hide Pow2, And64, Shr64, LowMask;
    var p, t, w, c := Pow2(offset), Pow2(12 - offset - width), Pow2(width), Pow2(12 - offset);
    assert t * w == c by { WindowSizes(offset, width); }
    DivShrinks(middle, p);
    var u := middle / p;
    Regroup(tick, t, w, c);
    ShiftFits(tick, middle, s, offset);
    ShiftIntoMiddle(tick, middle, s, offset);
    MaskOfSum(tick * c + u, tick * t, width, u);
  }

  lemma ShiftFits(tick: nat, middle: nat, s: nat, offset: nat)
    requires tick <= 0x1FF_FFFF_FFFF && middle < 4096 && s < 1024 && offset <= 12
    ensures 0 <= tick * Pow2(12 - offset) + middle / Pow2(offset) < TWO63
  {
    ShiftIntoMiddle(tick, middle, s, offset);
    DivShrinks(tick * 0x40_0000 + middle * 1024 + s, Pow2(10 + offset));
  }

  // ---------------------------------------------------------------- the recovered fields

  /** The parts of a middle below and above an offset within the gap. */
  lemma MiddleParts(cfg: Config, hint: nat, offset: nat)
    requires cfg.Fits() && HintFits(cfg, hint) && cfg.machineBits <= offset <= 12 - cfg.hintBits
    ensures Middle(cfg, hint) / Pow2(offset) == hint * Pow2(12 - cfg.hintBits - offset)
    ensures Middle(cfg, hint) % Pow2(offset) == cfg.machineId
  {
    var p, k := Pow2(offset), Pow2(12 - cfg.hintBits - offset);
    Pow2Mono(cfg.machineBits, offset);
    Pow2Add(12 - cfg.hintBits - offset, offset);
    MulAssoc(hint, k, p);
    ModUnique(Middle(cfg, hint), p, hint * k, cfg.machineId);
  }

  /** A machine field read as wide as the hint allows still holds the machine id. */
  lemma MachineRecovered(cfg: Config, tick: nat, hint: nat, s: nat, bits: nat)
    requires cfg.Fits() && HintFits(cfg, hint) && tick <= 0x1FF_FFFF_FFFF && s < 1024
    requires cfg.machineBits <= bits && cfg.hintBits + bits <= 12
    ensures MachineOf(Pack(cfg, tick, hint, s), bits) == cfg.machineId
  {
    hide Pow2, Middle, Shr64, And64, LowMask;
    MiddleBounds(cfg, hint);
    MiddleParts(cfg, hint, bits);
    ReadMiddle(tick, Middle(cfg, hint), s, 0, bits);
    ShiftByNothing(Middle(cfg, hint));
  }

  /** A hint field read as wide as the machine field allows holds the hint moved up by the extra bits. */
  lemma HintRecovered(cfg: Config, tick: nat, hint: nat, s: nat, bits: nat)
    requires cfg.Fits() && HintFits(cfg, hint) && tick <= 0x1FF_FFFF_FFFF && s < 1024
    requires cfg.hintBits <= bits && bits + cfg.machineBits <= 12
    ensures HintOf(Pack(cfg, tick, hint, s), bits) == hint * Pow2(bits - cfg.hintBits)
  {
    hide Pow2, Middle, Shr64, And64, LowMask;
    MiddleBounds(cfg, hint);
    MiddleParts(cfg, hint, 12 - bits);
    ReadMiddle(tick, Middle(cfg, hint), s, 12 - bits, bits);
    HintStaysSmall(cfg, hint, bits);
    var v := hint * Pow2(bits - cfg.hintBits);
    assert Middle(cfg, hint) / Pow2(12 - bits) == v;
    ModUnique(v, Pow2(bits), 0, v);
  }

  lemma HintStaysSmall(cfg: Config, hint: nat, bits: nat)
    requires HintFits(cfg, hint) && cfg.hintBits <= bits
    ensures 0 <= hint * Pow2(bits - cfg.hintBits) < Pow2(bits)
  {
    Pow2Add(cfg.hintBits, bits - cfg.hintBits);
    MulStrict(hint, Pow2(cfg.hintBits), Pow2(bits - cfg.hintBits));
    MulNonneg(hint, Pow2(bits - cfg.hintBits));
  }

  lemma MulStrict(a: nat, b: nat, p: nat)
    requires a < b && p > 0
    ensures a * p < b * p
  {
  }

  lemma GapIsZero(cfg: Config, tick: nat, hint: nat, s: nat)
    requires cfg.Fits() && HintFits(cfg, hint) && tick <= 0x1FF_FFFF_FFFF && s < 1024
    ensures GapOf(Pack(cfg, tick, hint, s), cfg) == 0
  {
    hide Pow2, Middle, Shr64, And64, LowMask;
    var w := 12 - cfg.hintBits - cfg.machineBits;
    MiddleBounds(cfg, hint);
    MiddleParts(cfg, hint, cfg.machineBits);
    ReadMiddle(tick, Middle(cfg, hint), s, cfg.machineBits, w);
    DivOfSum(hint, Pow2(w), 0);
  }

  lemma TickRecovered(cfg: Config, tick: nat, hint: nat, s: nat)
    requires cfg.Fits() && HintFits(cfg, hint) && tick <= 0x1FF_FFFF_FFFF && s < 1024
    ensures TickOf(Pack(cfg, tick, hint, s)) == tick
  {
    hide Pow2, Middle, And64, LowMask;
    MiddleBounds(cfg, hint);
    ShiftIntoMiddle(tick, Middle(cfg, hint), s, 12);
    assert Middle(cfg, hint) / Pow2(12) == 0 by {
      Pow2Of12();
      ModUnique(Middle(cfg, hint), Pow2(12), 0, Middle(cfg, hint));
    }
    ShiftByNothing(tick);
    TickMask(tick);
  }

  lemma ShiftByNothing(x: nat)
    ensures x / Pow2(0) == x && x * Pow2(0) == x
  {
  }

  lemma TickMask(tick: nat)
    requires tick <= 0x1FF_FFFF_FFFF
    ensures And64(tick, 0x1FF_FFFF_FFFF) == tick
  {
    assert Pow2(41) == 0x200_0000_0000 by { Pow2Values(); }
    And64Mask(tick, 41);
    ModUnique(tick, Pow2(41), 0, tick);
  }

  lemma SequenceRecovered(cfg: Config, tick: nat, hint: nat, s: nat)
    requires cfg.Fits() && HintFits(cfg, hint) && tick <= 0x1FF_FFFF_FFFF && s < 1024
    ensures SequenceOf(Pack(cfg, tick, hint, s)) == s
  {
    PackBounds(cfg, tick, hint, s);
    LowTen(tick * 4096 + Middle(cfg, hint), s);
  }

  lemma LowTen(n: nat, s: nat)
    requires s < 1024 && n * 1024 + s < TWO63
    ensures And64(n * 1024 + s, 1023) == s
  {
    Pow2Of10();
    LowMaskValue(10);
    MaskOfSum(n * 1024 + s, n, 10, s);
    ModUnique(s, Pow2(10), 0, s);
  }

  /** Every field of a minted id reads back, the reserved bits are zero, and the sign bit is clear. */
  lemma FieldsRecovered(cfg: Config, tick: nat, hint: nat, s: nat)
    requires cfg.Fits() && HintFits(cfg, hint) && tick <= 0x1FF_FFFF_FFFF && s < 1024
    ensures var id := Pack(cfg, tick, hint, s);
      && 0 <= id < TWO63
      && TickOf(id) == tick && SequenceOf(id) == s
      && MachineOf(id, cfg.machineBits) == cfg.machineId && HintOf(id, cfg.hintBits) == hint
      && GapOf(id, cfg) == 0
  {
    PackBounds(cfg, tick, hint, s);
    TickRecovered(cfg, tick, hint, s);
    SequenceRecovered(cfg, tick, hint, s);
    MachineRecovered(cfg, tick, hint, s, cfg.machineBits);
    HintRecovered(cfg, tick, hint, s, cfg.hintBits);
    assert hint * Pow2(0) == hint;
    GapIsZero(cfg, tick, hint, s);
  }

  /** Widening either field within the 12-bit budget leaves the machine id of an old id where it was
      and moves its hint up by the added bits. */
  lemma WideningKeepsFields(cfg: Config, tick: nat, hint: nat, s: nat, hintBits: nat, machineBits: nat)
    requires cfg.Fits() && HintFits(cfg, hint) && tick <= 0x1FF_FFFF_FFFF && s < 1024
    requires cfg.hintBits <= hintBits && cfg.machineBits <= machineBits && hintBits + machineBits <= 12
    ensures MachineOf(Pack(cfg, tick, hint, s), machineBits) == cfg.machineId
    ensures HintOf(Pack(cfg, tick, hint, s), hintBits) == hint * Pow2(hintBits - cfg.hintBits)
  {
    MachineRecovered(cfg, tick, hint, s, machineBits);
    HintRecovered(cfg, tick, hint, s, hintBits);
  }

  // ---------------------------------------------------------------- the generator

  datatype Outcome = Id(id: int) | Error(reason: Step)

  /** One call of `Next`: the hint and the clock readings it sees. */
  datatype Request = Request(hint: int, first: int, later: seq<int>)

  function ToCall(cfg: Config, r: Request): Call {
    if cfg.Fits() && HintFits(cfg, r.hint) then At(r.first, r.later) else Refused
  }

  function ToOutcome(cfg: Config, r: Request, t: Step): Outcome {
    if cfg.Fits() && HintFits(cfg, r.hint) && t.Minted? then Id(Pack(cfg, t.tick, r.hint, t.sequence)) else Error(t)
  }

  class Generator {
    ghost const cfg: Config
    const layout: Layout
    var lastMs: int
    var sequence: nat
    /** The waiting loop has not returned, so the mutex is still held. */
    var held: bool

    ghost predicate Valid()
      reads this
    {
      cfg.WellTyped() && Configure(cfg) == Ready(layout) && Sound(LIMITS, Now())
    }

    ghost function Now(): State
      reads this
    {
      State(lastMs, sequence, held)
    }

    constructor (cfg: Config)
      requires cfg.WellTyped() && Configure(cfg).Ready?
      ensures Valid() && this.cfg == cfg && Now() == START
    {
      this.cfg := cfg;
      this.layout := Configure(cfg).layout;
      lastMs, sequence, held := -1, 0, false;
    }

    /** `Next`; the id is assembled with shifts and ors as in the source. */
    method Next(hint: int, first: int, later: seq<int>) returns (r: Outcome)
      requires Valid()
      modifies this`lastMs, this`sequence, this`held
      ensures Valid()
      ensures var request := Request(hint, first, later);
        var (next, t) := Advance(LIMITS, old(Now()), ToCall(cfg, request));
        Now() == next && r == ToOutcome(cfg, request, t)
    {
      ConfigureAccepts(cfg);
      if hint < 0 || hint > layout.hintMax { return Error(NotTried); }
      Pow2Of10();
      var next, t := TakeTurn(LIMITS, 10, State(lastMs, sequence, held), first, later);
      lastMs, sequence, held := next.lastMs, next.sequence, next.held;
      if !t.Minted? { return Error(t); }
      StepForward(LIMITS, old(Now()), At(first, later));
      var id := Assemble(t.tick, hint, t.sequence);
      r := Id(id);
    }

    /** The shifts and ors that put the four fields side by side. */
    method Assemble(tick: nat, hint: nat, s: nat) returns (id: int)
      requires cfg.Fits() && HintFits(cfg, hint) && tick <= 0x1FF_FFFF_FFFF && s < 1024
      requires layout == Layout(22 - cfg.hintBits, Pow2(cfg.hintBits) - 1, cfg.machineId * 1024)
      ensures id == Pack(cfg, tick, hint, s)
    {
      PackIsOr(cfg, tick, hint, s);
      id := Or64(Or64(Or64(Shl64(tick, 22), Shl64(hint, layout.hintShift)), layout.machinePart), s);
    }
  }

  /** The generator, or the error: exactly the configurations that fit, or whose width sum wraps, give one. */
  method NewRoutedFlake(cfg: Config) returns (g: Generator?, error: Option<ConfigError>)
    requires cfg.WellTyped()
    ensures g != null <==> cfg.Fits() || cfg.Wraps()
    ensures g != null ==> fresh(g) && g.Valid() && g.cfg == cfg && g.Now() == START && error == None
    ensures g == null ==> error.Some? && Configure(cfg) == Rejected(error.value)
  {
    hide Configure, Pow2;
    ConfigureAccepts(cfg);
    var configured := Configure(cfg);
    if configured.Rejected? {
      return null, Some(configured.error);
    }
    error := None;
    g := new Generator(cfg);
  }

  // ---------------------------------------------------------------- runs

  function Calls(cfg: Config, rs: seq<Request>): (r: seq<Call>)
    ensures |r| == |rs|
  {
    seq(|rs|, i requires 0 <= i < |rs| => ToCall(cfg, rs[i]))
  }

  /** The outcome of every call made on a generator in state st. */
  function RunFrom(cfg: Config, st: State, rs: seq<Request>): (r: seq<Outcome>)
    ensures |r| == |rs|
  {
    var ts := Steps(LIMITS, st, Calls(cfg, rs));
    seq(|rs|, i requires 0 <= i < |rs| => ToOutcome(cfg, rs[i], ts[i]))
  }

  /** The outcome of every call made on a fresh generator. */
  function Run(cfg: Config, rs: seq<Request>): seq<Outcome> {
    RunFrom(cfg, START, rs)
  }

  /** No call of the run failed on the timestamp field. */
  ghost predicate NoOverflow(cfg: Config, st: State, rs: seq<Request>) {
    Error(Overflow) !in RunFrom(cfg, st, rs)
  }

  /** Every reading the clock can give during the run fits 41 bits. */
  predicate ClockInRange(rs: seq<Request>) {
    forall i :: 0 <= i < |rs| ==> InRange(LIMITS, At(rs[i].first, rs[i].later))
  }

  lemma RangeSuffices(cfg: Config, st: State, rs: seq<Request>)
    requires ClockInRange(rs)
    ensures NoOverflow(cfg, st, rs)
  {
    RangeNeverOverflows(LIMITS, st, Calls(cfg, rs));
    var ts := Steps(LIMITS, st, Calls(cfg, rs));
    forall i | 0 <= i < |rs|
      ensures RunFrom(cfg, st, rs)[i] != Error(Overflow)
    {
      assert ts[i] in ts;
    }
  }

  lemma MintedStep(cfg: Config, st: State, rs: seq<Request>, i: nat) returns (t: Step)
    requires Sound(LIMITS, st) && i < |rs| && RunFrom(cfg, st, rs)[i].Id?
    ensures t == Steps(LIMITS, st, Calls(cfg, rs))[i] && t.Minted?
    ensures cfg.Fits() && HintFits(cfg, rs[i].hint) && t.tick <= 0x1FF_FFFF_FFFF && t.sequence < 1024
    ensures RunFrom(cfg, st, rs)[i] == Id(Pack(cfg, t.tick, rs[i].hint, t.sequence))
  {
    t := Steps(LIMITS, st, Calls(cfg, rs))[i];
    StepsFit(LIMITS, st, Calls(cfg, rs), i);
  }

  lemma RangeOfSteps(cfg: Config, st: State, rs: seq<Request>)
    requires NoOverflow(cfg, st, rs)
    ensures Overflow !in Steps(LIMITS, st, Calls(cfg, rs))
  {
    var ts := Steps(LIMITS, st, Calls(cfg, rs));
    forall i | 0 <= i < |ts| ensures ts[i] != Overflow {
      assert RunFrom(cfg, st, rs)[i] in RunFrom(cfg, st, rs);
    }
  }

  /** Same tick and same hint order by sequence; a later tick orders first. */
  lemma PackOrders(cfg: Config, a: Step, ha: nat, b: Step, hb: nat)
    requires cfg.Fits() && HintFits(cfg, ha) && HintFits(cfg, hb)
    requires a.Minted? && b.Minted? && a.sequence < 1024 && b.sequence < 1024
    ensures a != b ==> Pack(cfg, a.tick, ha, a.sequence) != Pack(cfg, b.tick, hb, b.sequence)
    ensures Before(a, b) && (a.tick < b.tick || ha == hb) ==>
      Pack(cfg, a.tick, ha, a.sequence) < Pack(cfg, b.tick, hb, b.sequence)
  {
    MiddleBounds(cfg, ha);
    MiddleBounds(cfg, hb);
    FieldsOrder(a.tick, Middle(cfg, ha), a.sequence, b.tick, Middle(cfg, hb), b.sequence);
  }

  /** Ids compare by tick, then middle, then sequence. */
  lemma FieldsOrder(ta: nat, ma: nat, sa: nat, tb: nat, mb: nat, sb: nat)
    requires ma < 4096 && mb < 4096 && sa < 1024 && sb < 1024
    ensures var a, b := ta * 0x40_0000 + ma * 1024 + sa, tb * 0x40_0000 + mb * 1024 + sb;
      && (ta < tb ==> a < b)
      && (ta == tb && ma == mb ==> (a < b <==> sa < sb))
      && (a == b ==> ta == tb && ma == mb && sa == sb)
  {
  }

  /** Over every run of `Next` with any hints and any clock, forwards or backwards, whose readings
      fit 41 bits: all ids differ, and they increase when the tick advances or the hint is the same. */
  lemma RunUnique(cfg: Config, rs: seq<Request>, i: nat, j: nat)
    requires ClockInRange(rs)
    requires i < j < |rs| && Run(cfg, rs)[i].Id? && Run(cfg, rs)[j].Id?
    ensures Run(cfg, rs)[i].id != Run(cfg, rs)[j].id
    ensures TickOf(Run(cfg, rs)[i].id) < TickOf(Run(cfg, rs)[j].id) || rs[i].hint == rs[j].hint ==>
      Run(cfg, rs)[i].id < Run(cfg, rs)[j].id
  {
    RangeSuffices(cfg, START, rs);
    UniqueUntilOverflow(cfg, rs, i, j);
  }

  /** It is enough that no call failed on the timestamp field. */
  lemma UniqueUntilOverflow(cfg: Config, rs: seq<Request>, i: nat, j: nat)
    requires NoOverflow(cfg, START, rs)
    requires i < j < |rs| && Run(cfg, rs)[i].Id? && Run(cfg, rs)[j].Id?
    ensures Run(cfg, rs)[i].id != Run(cfg, rs)[j].id
    ensures TickOf(Run(cfg, rs)[i].id) < TickOf(Run(cfg, rs)[j].id) || rs[i].hint == rs[j].hint ==>
      Run(cfg, rs)[i].id < Run(cfg, rs)[j].id
  {
    var a := MintedStep(cfg, START, rs, i);
    var b := MintedStep(cfg, START, rs, j);
    RangeOfSteps(cfg, START, rs);
    RunIncreases(LIMITS, START, Calls(cfg, rs));
    PackOrders(cfg, a, rs[i].hint, b, rs[j].hint);
    TickRecovered(cfg, a.tick, rs[i].hint, a.sequence);
    TickRecovered(cfg, b.tick, rs[j].hint, b.sequence);
  }

  /** One call in figures: 1024 ids a millisecond and 2^41 milliseconds from the epoch. */
  lemma NextAnswers(cfg: Config, st: State, r: Request)
    requires cfg.Fits() && 0 <= r.hint < Pow2(cfg.hintBits) && Sound(LIMITS, st) && !st.held && r.first >= st.lastMs
    ensures var answer, tick := RunFrom(cfg, st, [r])[0], r.first - 1767225600000;
      && (0 <= tick <= 0x1FF_FFFF_FFFF && r.first > st.lastMs ==> answer == Id(Pack(cfg, tick, r.hint, 0)))
      && (0 <= tick && r.first == st.lastMs && st.sequence < 1023 ==> answer == Id(Pack(cfg, tick, r.hint, st.sequence + 1)))
      && (r.first == st.lastMs && st.sequence == 1023 && r.later == [] ==> answer == Error(Stalled))
      && (tick > 0x1FF_FFFF_FFFF ==> answer == Error(Overflow))
      && (tick < 0 && r.first > st.lastMs ==> answer == Error(BeforeEpoch))
  {
    hide Pow2, Pack;
    var calls := Calls(cfg, [r]);
    assert calls == [At(r.first, r.later)] && calls[1..] == [];
    assert Steps(LIMITS, st, calls) == [Advance(LIMITS, st, calls[0]).1];
  }

  /** The readings of all calls, whether or not their hints are accepted. */
  function Readings(rs: seq<Request>): (r: seq<Call>)
    ensures |r| == |rs|
  {
    seq(|rs|, i requires 0 <= i < |rs| => At(rs[i].first, rs[i].later))
  }

  /** With a clock that stays in range, does not run backwards and ends every wait, every call with a hint
      that fits gets an id, with that hint, this machine, and the time of its first reading or of the one
      that ended its wait; a call with any other hint is refused. */
  lemma EveryRequestMints(cfg: Config, rs: seq<Request>, i: nat)
    requires cfg.Fits() && Steady(LIMITS, Readings(rs)) && i < |rs|
    ensures Run(cfg, rs)[i].Id? <==> 0 <= rs[i].hint < Pow2(cfg.hintBits)
    ensures Run(cfg, rs)[i].Id? ==>
      var id := Run(cfg, rs)[i].id;
      && HintOf(id, cfg.hintBits) == rs[i].hint && MachineOf(id, cfg.machineBits) == cfg.machineId
      && (TickOf(id) + EPOCH_MS == rs[i].first ||
          exists k: nat :: WaitEnds(rs[i].later, rs[i].first, k) && TickOf(id) + EPOCH_MS == rs[i].later[k])
    ensures !Run(cfg, rs)[i].Id? ==> Run(cfg, rs)[i] == Error(NotTried)
  {
    var calls := Calls(cfg, rs);
    if HintFits(cfg, rs[i].hint) {
      AcceptedSteady(cfg, rs);
      EveryCallMints(LIMITS, START, calls, i);
      var t := MintedStep(cfg, START, rs, i);
      FieldsRecovered(cfg, t.tick, rs[i].hint, t.sequence);
    } else {
      RefusedStep(LIMITS, START, calls, i);
    }
  }

  lemma AcceptedSteady(cfg: Config, rs: seq<Request>)
    requires Steady(LIMITS, Readings(rs))
    ensures Steady(LIMITS, Calls(cfg, rs))
    ensures forall j :: 0 <= j < |rs| && Calls(cfg, rs)[j].At? ==> START.lastMs <= Calls(cfg, rs)[j].first
  {
    var calls, all := Calls(cfg, rs), Readings(rs);
    forall i | 0 <= i < |rs| && calls[i].At?
      ensures Answers(LIMITS, calls[i]) && START.lastMs <= calls[i].first
    {
      assert calls[i] == all[i] && Answers(LIMITS, all[i]);
    }
    forall i, j | 0 <= i < j < |rs| && calls[i].At? && calls[j].At?
      ensures NotAfter(calls[i], calls[j].first)
    {
      assert calls[i] == all[i] && calls[j] == all[j];
    }
  }

  // ---------------------------------------------------------------- what a timestamp overflow costs

  /** The state a run leaves behind. */
  function After(cfg: Config, rs: seq<Request>): State {
    StateAfter(LIMITS, START, Calls(cfg, rs))
  }

  /** Some id of the run rs is minted again by `more`, which itself stays in range, after the call r. */
  ghost predicate Reissued(cfg: Config, rs: seq<Request>, r: Request, more: seq<Request>) {
    var next := Advance(LIMITS, After(cfg, rs), ToCall(cfg, r)).0;
    && NoOverflow(cfg, next, more)
    && exists i, j :: 0 <= i < |rs| && 0 <= j < |more| && Run(cfg, rs)[i].Id? && Run(cfg, rs)[i] == RunFrom(cfg, next, more)[j]
  }

  lemma NotReissued(cfg: Config, rs: seq<Request>, r: Request, more: seq<Request>)
    requires cfg.Fits() && NoOverflow(cfg, START, rs)
    requires !Rewinds(LIMITS, After(cfg, rs), ToCall(cfg, r))
    ensures !Reissued(cfg, rs, r, more)
  {
    var next := Advance(LIMITS, After(cfg, rs), ToCall(cfg, r)).0;
    RangeOfSteps(cfg, START, rs);
    RunCovers(LIMITS, START, Calls(cfg, rs));
    StepForward(LIMITS, After(cfg, rs), ToCall(cfg, r));
    if NoOverflow(cfg, next, more) {
      RangeOfSteps(cfg, next, more);
      ForwardNeverRepeats(LIMITS, Calls(cfg, rs), ToCall(cfg, r), Calls(cfg, more));
      forall i, j | 0 <= i < |rs| && 0 <= j < |more| && Run(cfg, rs)[i].Id? && RunFrom(cfg, next, more)[j].Id?
        ensures Run(cfg, rs)[i] != RunFrom(cfg, next, more)[j]
      {
        var a := MintedStep(cfg, START, rs, i);
        var b := MintedStep(cfg, next, more, j);
        PackOrders(cfg, a, rs[i].hint, b, more[j].hint);
      }
    }
  }

  lemma RewindReissues(cfg: Config, rs: seq<Request>, r: Request) returns (more: seq<Request>)
    requires cfg.Fits() && NoOverflow(cfg, START, rs)
    requires Rewinds(LIMITS, After(cfg, rs), ToCall(cfg, r))
    ensures Reissued(cfg, rs, r, more)
  {
    var st := After(cfg, rs);
    var next := Advance(LIMITS, st, ToCall(cfg, r)).0;
    RangeOfSteps(cfg, START, rs);
    RewindRepeats(LIMITS, Calls(cfg, rs), ToCall(cfg, r));
    var again := Minted(st.lastMs - EPOCH_MS, 1);
    var i :| 0 <= i < |rs| && Steps(LIMITS, START, Calls(cfg, rs))[i] == again;
    StepsFit(LIMITS, START, Calls(cfg, rs), i);
    more := [Request(rs[i].hint, st.lastMs, [])];
    assert Calls(cfg, more) == [At(st.lastMs, [])];
    assert Steps(LIMITS, next, Calls(cfg, more)) == [again];
    assert RunFrom(cfg, next, more)[0] == Run(cfg, rs)[i];
  }

  /** Uniqueness across one more call is lost exactly when that call reads a time past the timestamp
      field while the current millisecond has already issued sequence number 1: the failure resets the
      sequence without advancing `lastMs`. */
  lemma ReissueIff(cfg: Config, rs: seq<Request>, r: Request)
    requires cfg.Fits() && NoOverflow(cfg, START, rs)
    ensures (exists more :: Reissued(cfg, rs, r, more)) <==> Rewinds(LIMITS, After(cfg, rs), ToCall(cfg, r))
  {
    if Rewinds(LIMITS, After(cfg, rs), ToCall(cfg, r)) {
      var more := RewindReissues(cfg, rs, r);
    } else {
      forall more ensures !Reissued(cfg, rs, r, more) { NotReissued(cfg, rs, r, more); }
    }
  }

  // ---------------------------------------------------------------- fleets

  /** Each generator's hint field stays clear of the other's machine field. */
  predicate WidthsAgree(ha: nat, ma: nat, hb: nat, mb: nat) {
    ha + mb <= 12 && hb + ma <= 12
  }

  /** Two generators with different machine ids never mint a common id, whatever their clocks, hints
      and field widths, as long as the wider hint and the wider machine field fit the middle together. */
  lemma FleetDisjoint(a: Config, b: Config, ra: seq<Request>, rb: seq<Request>, i: nat, j: nat)
    requires a.Fits() && b.Fits() && a.machineId != b.machineId
    requires WidthsAgree(a.hintBits, a.machineBits, b.hintBits, b.machineBits)
    requires i < |ra| && j < |rb| && Run(a, ra)[i].Id? && Run(b, rb)[j].Id?
    ensures Run(a, ra)[i].id != Run(b, rb)[j].id
  {
    var s := MintedStep(a, START, ra, i);
    var t := MintedStep(b, START, rb, j);
    var wide := if a.machineBits < b.machineBits then b.machineBits else a.machineBits;
    MachineRecovered(a, s.tick, ra[i].hint, s.sequence, wide);
    MachineRecovered(b, t.tick, rb[j].hint, t.sequence, wide);
  }

  /** No two machine ids of generators with these widths ever collide, on any pair of runs. */
  ghost predicate NeverMeet(ha: nat, ma: nat, hb: nat, mb: nat) {
    forall x, y, ra, rb, i, j ::
      (var a, b := Config(ha, ma, x), Config(hb, mb, y);
       a.Fits() && b.Fits() && x != y && 0 <= i < |ra| && 0 <= j < |rb| && Run(a, ra)[i].Id? ==>
         Run(a, ra)[i] != Run(b, rb)[j])
  }

  lemma FirstId(cfg: Config, hint: int)
    requires cfg.Fits() && HintFits(cfg, hint)
    ensures Run(cfg, [Request(hint, EPOCH_MS, [])]) == [Id(Pack(cfg, 0, hint, 0))]
  {
    var rs := [Request(hint, EPOCH_MS, [])];
    assert Calls(cfg, rs) == [At(EPOCH_MS, [])];
    assert Steps(LIMITS, START, [At(EPOCH_MS, [])]) == [Minted(0, 0)];
  }

  lemma SharedFits(ha: nat, ma: nat, hb: nat, mb: nat)
    requires ma >= 1 && mb >= 1 && ha + ma <= 12 && hb + mb <= 12 && ha + mb > 12
    ensures var a, b := Config(ha, ma, 0), Config(hb, mb, Pow2(12 - ha));
      a.Fits() && b.Fits() && HintFits(a, 1) && HintFits(b, 0)
  {
    Pow2Add(1, mb - 1);
    Pow2Mono(12 - ha, mb - 1);
    Pow2Mono(1, ha);
    Pow2Mono(0, hb);
  }

  lemma SharedBit(ha: nat, ma: nat, hb: nat, mb: nat)
    requires ma >= 1 && mb >= 1 && ha + ma <= 12 && hb + mb <= 12 && ha + mb > 12
    ensures var a, b := Config(ha, ma, 0), Config(hb, mb, Pow2(12 - ha));
      && a.Fits() && b.Fits()
      && Run(a, [Request(1, EPOCH_MS, [])])[0].Id?
      && Run(a, [Request(1, EPOCH_MS, [])])[0] == Run(b, [Request(0, EPOCH_MS, [])])[0]
  {
    var a, b := Config(ha, ma, 0), Config(hb, mb, Pow2(12 - ha));
    SharedFits(ha, ma, hb, mb);
    hide Pow2, Run;
    FirstId(a, 1);
    FirstId(b, 0);
  }

  /** When hint bits of one reach machine bits of the other, hint 1 of machine 0 collides with a
      machine id that occupies the same bit. */
  lemma WidthsCollide(ha: nat, ma: nat, hb: nat, mb: nat)
    requires ma >= 1 && mb >= 1 && ha + ma <= 12 && hb + mb <= 12 && ha + mb > 12
    ensures !NeverMeet(ha, ma, hb, mb) && !NeverMeet(hb, mb, ha, ma)
  {
    var x, y := 0, Pow2(12 - ha);
    var ra, rb := [Request(1, EPOCH_MS, [])], [Request(0, EPOCH_MS, [])];
    SharedBit(ha, ma, hb, mb);
    assert Run(Config(ha, ma, x), ra)[0] == Run(Config(hb, mb, y), rb)[0];
  }

  /** The budget over a mixed fleet is exact: collisions are impossible if and only if each hint
      width plus the other generator's machine width stays within 12 bits. */
  lemma FleetIff(ha: nat, ma: nat, hb: nat, mb: nat)
    requires ma >= 1 && mb >= 1 && ha + ma <= 12 && hb + mb <= 12
    ensures NeverMeet(ha, ma, hb, mb) <==> WidthsAgree(ha, ma, hb, mb)
  {
    if WidthsAgree(ha, ma, hb, mb) {
      forall x, y, ra, rb, i, j | Config(ha, ma, x).Fits() && Config(hb, mb, y).Fits() && x != y &&
          0 <= i < |ra| && 0 <= j < |rb| && Run(Config(ha, ma, x), ra)[i].Id?
        ensures Run(Config(ha, ma, x), ra)[i] != Run(Config(hb, mb, y), rb)[j]
      {
        if Run(Config(hb, mb, y), rb)[j].Id? {
          FleetDisjoint(Config(ha, ma, x), Config(hb, mb, y), ra, rb, i, j);
        }
      }
    } else if ha + mb > 12 {
      WidthsCollide(ha, ma, hb, mb);
    } else {
      WidthsCollide(hb, mb, ha, ma);
    }
  }
}
