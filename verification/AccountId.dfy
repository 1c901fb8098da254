/** pkg/idgen/account.go: typed account ids. Three facet bits between timestamp and machine id say
    whether the account is an agent. */
module AccountId {
  import opened GoText
  import opened BitFields
  import opened Ticker

  const LIMITS := Limits(1024, Some(0x1FF_FFFF_FFFF))

  const AGENT: int := 0
  const HUMAN: int := 1

  predicate Issuable(facet: int) {
    facet == AGENT || facet == HUMAN
  }

  predicate MachineFits(machine: int) {
    0 <= machine < 512
  }

  // ---------------------------------------------------------------- reading the facet

  function Facet(id: int): int {
    And64(Shr64(id, 19), 7)
  }

  predicate IsAgent(id: int) {
    Facet(id) == AGENT
  }

  /** Non-numeric and non-positive ids are not agents. */
  predicate IsAgentAccountId(id: string) {
    match ParseInt(TrimSpace(id))
    case None => false
    case Some(v) => v > 0 && IsAgent(v)
  }

  // ---------------------------------------------------------------- packing

  function Pack(machine: int, tick: nat, facet: int, s: nat): nat
    requires MachineFits(machine) && Issuable(facet)
  {
    tick * 0x40_0000 + facet * 0x8_0000 + machine * 1024 + s
  }

  lemma FieldPowers()
    ensures Pow2(22) == 0x40_0000 && Pow2(19) == 0x8_0000 && Pow2(10) == 1024 && Pow2(3) == 8
  {
    Pow2Values();
  }

  lemma ShiftedParts(tick: nat, facet: nat, machine: nat)
    requires tick <= 0x1FF_FFFF_FFFF && Issuable(facet) && MachineFits(machine)
    ensures Shl64(tick, 22) == tick * 0x40_0000
    ensures Shl64(facet, 19) == facet * 0x8_0000
    ensures Shl64(machine, 10) == machine * 1024
  {
    FieldPowers();
    Shl64Exact(tick, 22);
    Shl64Exact(facet, 19);
    Shl64Exact(machine, 10);
  }

  lemma OrTickFacet(tick: nat, facet: nat)
    requires tick <= 0x1FF_FFFF_FFFF && Issuable(facet)
    ensures Or64(tick * 0x40_0000, facet * 0x8_0000) == tick * 0x40_0000 + facet * 0x8_0000
  {
    FieldPowers();
    Or64Disjoint(tick * 0x40_0000, tick, 22, facet * 0x8_0000);
  }

  lemma OrMachine(n: nat, machine: nat)
    requires n < 0x1000_0000_0000 && MachineFits(machine)
    ensures Or64(n * 0x8_0000, machine * 1024) == n * 0x8_0000 + machine * 1024
  {
    FieldPowers();
    Or64Disjoint(n * 0x8_0000, n, 19, machine * 1024);
  }

  lemma PackIsOr(machine: nat, tick: nat, facet: nat, s: nat)
    requires MachineFits(machine) && Issuable(facet) && tick <= 0x1FF_FFFF_FFFF && s < 1024
    ensures Or64(Or64(Or64(Shl64(tick, 22), Shl64(facet, 19)), Shl64(machine, 10)), s) == Pack(machine, tick, facet, s)
  {
    ShiftedParts(tick, facet, machine);
    OrTickFacet(tick, facet);
    var n := tick * 8 + facet;
    var high := Or64(Shl64(tick, 22), Shl64(facet, 19));
    assert high == n * 0x8_0000;
    OrMachine(n, machine);
    var m := n * 512 + machine;
    var upper := Or64(high, Shl64(machine, 10));
    assert upper == m * 1024;
    OrSequence(m, s);
    assert Or64(upper, s) == m * 1024 + s;
  }

  lemma Shift19(n: nat, low: nat)
    requires low < 0x8_0000
    ensures Shr64(n * 0x8_0000 + low, 19) == n
  {
    assert Pow2(19) == 0x8_0000 by { FieldPowers(); }
  }

  lemma Mask3(n: nat, facet: nat)
    requires n < TWO63 && facet < 8 && n % 8 == facet
    ensures And64(n, 7) == facet
  {
    assert Pow2(3) == 8 by { FieldPowers(); }
    And64Mask(n, 3);
  }

  lemma LowThree(tick: nat, facet: nat)
    requires facet < 8
    ensures (tick * 8 + facet) % 8 == facet
  {
  }

  /** A minted id is a positive int64 or zero, and its facet bits read back as they were issued. */
  lemma FacetRecovered(machine: nat, tick: nat, facet: nat, s: nat)
    requires MachineFits(machine) && Issuable(facet) && tick <= 0x1FF_FFFF_FFFF && s < 1024
    ensures 0 <= Pack(machine, tick, facet, s) < TWO63
    ensures Facet(Pack(machine, tick, facet, s)) == facet
  {
    var n, low := tick * 8 + facet, machine * 1024 + s;
    Shift19(n, low);
    assert Pack(machine, tick, facet, s) == n * 0x8_0000 + low;
    assert n % 8 == facet by { LowThree(tick, facet); }
    Mask3(n, facet);
  }

  // ---------------------------------------------------------------- the generator

  datatype Outcome = Id(id: int) | Error(reason: Step)

  datatype Request = Request(facet: int, first: int, later: seq<int>)

  function ToCall(r: Request): Call {
    if Issuable(r.facet) then At(r.first, r.later) else Refused
  }

  function ToOutcome(machine: int, r: Request, t: Step): Outcome
    requires MachineFits(machine)
  {
    if Issuable(r.facet) && t.Minted? then Id(Pack(machine, t.tick, r.facet, t.sequence)) else Error(t)
  }

  class Generator {
    const machineId: int
    var lastMs: int
    var sequence: nat
    var held: bool

    ghost function Now(): State
      reads this
    {
      State(lastMs, sequence, held)
    }

    ghost predicate Valid()
      reads this
    {
      MachineFits(machineId) && Sound(LIMITS, Now())
    }

    /** `NewAccountIDGenerator` after its range check on the machine id. */
    constructor (machine: int)
      requires MachineFits(machine)
      ensures Valid() && machineId == machine && Now() == START
    {
      machineId := machine;
      lastMs, sequence, held := -1, 0, false;
    }

    method Next(facet: int, first: int, later: seq<int>) returns (r: Outcome)
      requires Valid()
      modifies this`lastMs, this`sequence, this`held
      ensures Valid()
      ensures var request := Request(facet, first, later);
        var (next, t) := Advance(LIMITS, old(Now()), ToCall(request));
        Now() == next && r == ToOutcome(machineId, request, t)
    {
      if !Issuable(facet) { return Error(NotTried); }
      Pow2Of10();
      var next, t := TakeTurn(LIMITS, 10, State(lastMs, sequence, held), first, later);
      lastMs, sequence, held := next.lastMs, next.sequence, next.held;
      if !t.Minted? { return Error(t); }
      StepForward(LIMITS, old(Now()), At(first, later));
      PackIsOr(machineId, t.tick, facet, t.sequence);
      r := Id(Or64(Or64(Or64(Shl64(t.tick, 22), Shl64(facet, 19)), Shl64(machineId, 10)), t.sequence));
    }
  }

  /** Null stands for the error on a machine id out of range. */
  method NewAccountIDGenerator(machine: int) returns (g: Generator?)
    ensures g != null <==> 0 <= machine <= 511
    ensures g != null ==> fresh(g) && g.Valid() && g.machineId == machine && g.Now() == START
  {
    if machine < 0 || machine > 511 {
      return null;
    }
    g := new Generator(machine);
  }

  // ---------------------------------------------------------------- runs

  function Calls(rs: seq<Request>): (r: seq<Call>)
    ensures |r| == |rs|
  {
    seq(|rs|, i requires 0 <= i < |rs| => ToCall(rs[i]))
  }

  /** The outcome of every call made on a generator in state st. */
  function RunFrom(machine: int, st: State, rs: seq<Request>): (r: seq<Outcome>)
    requires MachineFits(machine)
    ensures |r| == |rs|
  {
    var ts := Steps(LIMITS, st, Calls(rs));
    seq(|rs|, i requires 0 <= i < |rs| => ToOutcome(machine, rs[i], ts[i]))
  }

  /** The outcome of every call made on a fresh generator. */
  function Run(machine: int, rs: seq<Request>): (r: seq<Outcome>)
    requires MachineFits(machine)
    ensures |r| == |rs|
  {
    RunFrom(machine, START, rs)
  }

  /** Zero is minted only by machine 0, for an agent, as the first id of the epoch's millisecond. */
  lemma ZeroId(machine: nat, tick: nat, facet: nat, s: nat)
    requires MachineFits(machine) && Issuable(facet)
    ensures Pack(machine, tick, facet, s) == 0 <==> machine == 0 && tick == 0 && facet == AGENT && s == 0
  {
  }

  /** On every run, an id minted for a facet decodes to that facet, and its decimal text is judged to
      be an agent exactly when the facet is agent; the one exception is id 0, which the text form
      treats as no account. */
  lemma RunFacets(machine: int, rs: seq<Request>, i: nat)
    requires MachineFits(machine) && i < |rs| && Run(machine, rs)[i].Id?
    ensures var id := Run(machine, rs)[i].id;
      && Facet(id) == rs[i].facet
      && (IsAgentAccountId(FormatInt(id)) <==> rs[i].facet == AGENT && id != 0)
  {
    var t := Steps(LIMITS, START, Calls(rs))[i];
    StepsFit(LIMITS, START, Calls(rs), i);
    FacetRecovered(machine, t.tick, rs[i].facet, t.sequence);
    TextOfId(Run(machine, rs)[i].id);
  }

  /** The transport text of any int64 parses back to it; zero and negative numbers are no accounts. */
  lemma TextOfId(id: int)
    requires -TWO63 <= id < TWO63
    ensures IsAgentAccountId(FormatInt(id)) <==> id > 0 && IsAgent(id)
  {
    TrimOfFormat(id);
    ParseOfFormat(id);
  }

  /** No call of the run failed on the timestamp field. */
  ghost predicate NoOverflow(machine: int, st: State, rs: seq<Request>)
    requires MachineFits(machine)
  {
    Error(Overflow) !in RunFrom(machine, st, rs)
  }

  /** Every reading the clock can give during the run fits 41 bits. */
  predicate ClockInRange(rs: seq<Request>) {
    forall i :: 0 <= i < |rs| ==> InRange(LIMITS, At(rs[i].first, rs[i].later))
  }

  lemma RangeSuffices(machine: int, st: State, rs: seq<Request>)
    requires MachineFits(machine) && ClockInRange(rs)
    ensures NoOverflow(machine, st, rs)
  {
    RangeNeverOverflows(LIMITS, st, Calls(rs));
    var ts := Steps(LIMITS, st, Calls(rs));
    forall i | 0 <= i < |rs|
      ensures RunFrom(machine, st, rs)[i] != Error(Overflow)
    {
      assert ts[i] in ts;
    }
  }

  lemma RangeOfSteps(machine: int, st: State, rs: seq<Request>)
    requires MachineFits(machine) && NoOverflow(machine, st, rs)
    ensures Overflow !in Steps(LIMITS, st, Calls(rs))
  {
    var ts := Steps(LIMITS, st, Calls(rs));
    forall k | 0 <= k < |ts|
      ensures ts[k] != Overflow
    {
      assert RunFrom(machine, st, rs)[k] in RunFrom(machine, st, rs);
    }
  }

  /** Different pairs give different ids, whatever the facets. */
  lemma PackDistinct(machine: int, a: Step, fa: int, b: Step, fb: int)
    requires MachineFits(machine) && Issuable(fa) && Issuable(fb)
    requires a.Minted? && b.Minted? && a.sequence < 1024 && b.sequence < 1024 && a != b
    ensures Pack(machine, a.tick, fa, a.sequence) != Pack(machine, b.tick, fb, b.sequence)
  {
  }

  lemma MintedStep(machine: int, st: State, rs: seq<Request>, i: nat) returns (t: Step)
    requires MachineFits(machine) && Sound(LIMITS, st) && i < |rs| && RunFrom(machine, st, rs)[i].Id?
    ensures t == Steps(LIMITS, st, Calls(rs))[i] && t.Minted? && t.sequence < 1024 && Issuable(rs[i].facet)
    ensures RunFrom(machine, st, rs)[i] == Id(Pack(machine, t.tick, rs[i].facet, t.sequence))
  {
    t := Steps(LIMITS, st, Calls(rs))[i];
    StepsFit(LIMITS, st, Calls(rs), i);
  }

  /** Over every run, whatever facets are asked for and whatever the clock does within 41 bits, ids of one
      generator differ. */
  lemma RunUnique(machine: int, rs: seq<Request>, i: nat, j: nat)
    requires MachineFits(machine) && i < j < |rs| && Run(machine, rs)[i].Id? && Run(machine, rs)[j].Id?
    requires ClockInRange(rs)
    ensures Run(machine, rs)[i].id != Run(machine, rs)[j].id
  {
    RangeSuffices(machine, START, rs);
    RangeOfSteps(machine, START, rs);
    RunIncreases(LIMITS, START, Calls(rs));
    var a := MintedStep(machine, START, rs, i);
    var b := MintedStep(machine, START, rs, j);
    assert Before(a, b);
    PackDistinct(machine, a, rs[i].facet, b, rs[j].facet);
  }

  /** One call in figures: 1024 ids a millisecond and 2^41 milliseconds from the epoch. */
  lemma NextAnswers(machine: int, st: State, r: Request)
    requires MachineFits(machine) && Issuable(r.facet) && Sound(LIMITS, st) && !st.held && r.first >= st.lastMs
    ensures var answer, tick := RunFrom(machine, st, [r])[0], r.first - 1767225600000;
      && (0 <= tick <= 0x1FF_FFFF_FFFF && r.first > st.lastMs ==> answer == Id(Pack(machine, tick, r.facet, 0)))
      && (0 <= tick && r.first == st.lastMs && st.sequence < 1023 ==> answer == Id(Pack(machine, tick, r.facet, st.sequence + 1)))
      && (r.first == st.lastMs && st.sequence == 1023 && r.later == [] ==> answer == Error(Stalled))
      && (tick > 0x1FF_FFFF_FFFF ==> answer == Error(Overflow))
      && (tick < 0 && r.first > st.lastMs ==> answer == Error(BeforeEpoch))
  {
    hide Pack;
    var calls := Calls([r]);
    assert calls == [At(r.first, r.later)] && calls[1..] == [];
    assert Steps(LIMITS, st, calls) == [Advance(LIMITS, st, calls[0]).1];
  }

  /** The readings of all calls, whether or not their facets are accepted. */
  function Readings(rs: seq<Request>): (r: seq<Call>)
    ensures |r| == |rs|
  {
    seq(|rs|, i requires 0 <= i < |rs| => At(rs[i].first, rs[i].later))
  }

  /** With a clock that stays in range, does not run backwards and ends every wait, every call for an agent
      or a human gets an id, and a call for any other facet is refused. */
  lemma EveryRequestMints(machine: int, rs: seq<Request>, i: nat)
    requires MachineFits(machine) && Steady(LIMITS, Readings(rs)) && i < |rs|
    ensures Run(machine, rs)[i].Id? <==> rs[i].facet == 0 || rs[i].facet == 1
    ensures !Run(machine, rs)[i].Id? ==> Run(machine, rs)[i] == Error(NotTried)
  {
    var calls := Calls(rs);
    if Issuable(rs[i].facet) {
      AcceptedSteady(rs);
      EveryCallMints(LIMITS, START, calls, i);
    } else {
      RefusedStep(LIMITS, START, calls, i);
    }
  }

  lemma AcceptedSteady(rs: seq<Request>)
    requires Steady(LIMITS, Readings(rs))
    ensures Steady(LIMITS, Calls(rs))
    ensures forall j :: 0 <= j < |rs| && Calls(rs)[j].At? ==> START.lastMs <= Calls(rs)[j].first
  {
    var calls, all := Calls(rs), Readings(rs);
    forall i | 0 <= i < |rs| && calls[i].At?
      ensures Answers(LIMITS, calls[i]) && START.lastMs <= calls[i].first
    {
      assert calls[i] == all[i] && Answers(LIMITS, all[i]);
    }
    forall i, j | 0 <= i < j < |rs| && calls[i].At? && calls[j].At?
      ensures NotAfter(calls[i], calls[j].first)
    {
      assert calls[i] == all[i] && calls[j] == all[j];
    }
  }

  // ---------------------------------------------------------------- what a timestamp overflow costs

  /** The state a run leaves behind. */
  function After(rs: seq<Request>): State {
    StateAfter(LIMITS, START, Calls(rs))
  }

  /** Some id of the run rs is minted again by `more`, which itself does not overflow, after the call r. */
  ghost predicate Reissued(machine: int, rs: seq<Request>, r: Request, more: seq<Request>)
    requires MachineFits(machine)
  {
    var next := Advance(LIMITS, After(rs), ToCall(r)).0;
    && NoOverflow(machine, next, more)
    && exists i, j :: 0 <= i < |rs| && 0 <= j < |more| && Run(machine, rs)[i].Id? && Run(machine, rs)[i] == RunFrom(machine, next, more)[j]
  }

  lemma NotReissued(machine: int, rs: seq<Request>, r: Request, more: seq<Request>)
    requires MachineFits(machine) && NoOverflow(machine, START, rs)
    requires !Rewinds(LIMITS, After(rs), ToCall(r))
    ensures !Reissued(machine, rs, r, more)
  {
    var next := Advance(LIMITS, After(rs), ToCall(r)).0;
    RangeOfSteps(machine, START, rs);
    RunCovers(LIMITS, START, Calls(rs));
    StepForward(LIMITS, After(rs), ToCall(r));
    if NoOverflow(machine, next, more) {
      RangeOfSteps(machine, next, more);
      ForwardNeverRepeats(LIMITS, Calls(rs), ToCall(r), Calls(more));
      forall i, j | 0 <= i < |rs| && 0 <= j < |more| && Run(machine, rs)[i].Id? && RunFrom(machine, next, more)[j].Id?
        ensures Run(machine, rs)[i] != RunFrom(machine, next, more)[j]
      {
        var a := MintedStep(machine, START, rs, i);
        var b := MintedStep(machine, next, more, j);
        PackDistinct(machine, a, rs[i].facet, b, more[j].facet);
      }
    }
  }

  lemma RewindReissues(machine: int, rs: seq<Request>, r: Request) returns (more: seq<Request>)
    requires MachineFits(machine) && NoOverflow(machine, START, rs)
    requires Rewinds(LIMITS, After(rs), ToCall(r))
    ensures Reissued(machine, rs, r, more)
  {
    var st := After(rs);
    var next := Advance(LIMITS, st, ToCall(r)).0;
    RangeOfSteps(machine, START, rs);
    RewindRepeats(LIMITS, Calls(rs), ToCall(r));
    var again := Minted(st.lastMs - EPOCH_MS, 1);
    var i :| 0 <= i < |rs| && Steps(LIMITS, START, Calls(rs))[i] == again;
    StepsFit(LIMITS, START, Calls(rs), i);
    more := [Request(rs[i].facet, st.lastMs, [])];
    assert Calls(more) == [At(st.lastMs, [])];
    assert Steps(LIMITS, next, Calls(more)) == [again];
    assert RunFrom(machine, next, more)[0] == Run(machine, rs)[i];
  }

  /** As for routed ids, one more call costs uniqueness exactly when it reads a time past the timestamp
      field while the current millisecond has already issued sequence number 1. */
  lemma ReissueIff(machine: int, rs: seq<Request>, r: Request)
    requires MachineFits(machine) && NoOverflow(machine, START, rs)
    ensures (exists more :: Reissued(machine, rs, r, more)) <==> Rewinds(LIMITS, After(rs), ToCall(r))
  {
    if Rewinds(LIMITS, After(rs), ToCall(r)) {
      var more := RewindReissues(machine, rs, r);
    } else {
      forall more
        ensures !Reissued(machine, rs, r, more)
      {
        NotReissued(machine, rs, r, more);
      }
    }
  }
}
