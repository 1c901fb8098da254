/** pkg/idgen/snowflake.go: the legacy generator. It has no overflow check: the elapsed time is
    shifted as an int64 and the word is handed out as a uint64. */
module Snowflake {
  import opened GoText
  import opened BitFields
  import opened Ticker

  const LIMITS := Limits(4096, None)

  const WRAP_MS: int := 0x400_0000_0000

  predicate NodeFits(node: int) {
    0 <= node < 1024
  }

  /** The id as a uint64: only the low 42 bits of the elapsed time survive the shift. */
  function Pack(node: int, elapsed: nat, s: nat): nat
    requires NodeFits(node)
  {
    (elapsed % WRAP_MS) * 0x40_0000 + node * 4096 + s
  }

  // ---------------------------------------------------------------- the shift and the reinterpretation

  /** Pushing e past bit 64 keeps e mod 2^42. */
  lemma ShiftedElapsed(e: nat)
    ensures ToUint64(Shl64(e, 22)) == (e % WRAP_MS) * 0x40_0000
  {
    assert Pow2(22) == 0x40_0000 by { Pow2Values(); }
    SignedRoundTrip(e * 0x40_0000);
    var q, r := e / WRAP_MS, e % WRAP_MS;
    assert e * 0x40_0000 == q * 0x1_0000_0000_0000_0000 + r * 0x40_0000;
  }

  lemma SignedRoundTrip(u: int)
    ensures ToUint64(ToInt64(u)) == u % 0x1_0000_0000_0000_0000
  {
  }

  /** Or-ing low bits into a word, seen unsigned. */
  lemma OrLow(x: int, n: nat, q: nat, k: nat, b: nat)
    requires ToUint64(x) == n == q * Pow2(k) && b < Pow2(k) && n + b < TWO64 && b < TWO63
    ensures ToUint64(Or64(x, b)) == n + b
  {
    PlainWord(b);
    assert Or(n, b) == n + b by { OrDisjoint(q, k, b); }
    SignedRoundTrip(n + b);
    UnsignedWord(n + b);
  }

  lemma UnsignedWord(u: int)
    requires 0 <= u < TWO64
    ensures u % 0x1_0000_0000_0000_0000 == u
  {
  }

  lemma NodeShift(node: nat)
    requires NodeFits(node)
    ensures Shl64(node, 12) == node * 4096
  {
    Pow2Of12();
    Shl64Exact(node, 12);
  }

  lemma LowFields(w: nat, node: nat, s: nat, x: int)
    requires w < WRAP_MS && NodeFits(node) && s < 4096 && ToUint64(x) == w * 0x40_0000
    ensures ToUint64(Or64(Or64(x, node * 4096), s)) == w * 0x40_0000 + node * 4096 + s
  {
    assert Pow2(22) == 0x40_0000 by { Pow2Values(); }
    OrLow(x, w * 0x40_0000, w, 22, node * 4096);
    Pow2Of12();
    OrLow(Or64(x, node * 4096), w * 0x40_0000 + node * 4096, w * 1024 + node, 12, s);
  }

  /** The word built with shifts and ors, read as a uint64, is the arithmetic packing. */
  lemma PackIsOr(node: nat, elapsed: nat, s: nat)
    requires NodeFits(node) && s < 4096
    ensures ToUint64(Or64(Or64(Shl64(elapsed, 22), Shl64(node, 12)), s)) == Pack(node, elapsed, s)
  {
    ShiftedElapsed(elapsed);
    NodeShift(node);
    LowFields(elapsed % WRAP_MS, node, s, Shl64(elapsed, 22));
  }

  /** Two ids agree exactly when node and sequence agree and the elapsed times agree modulo 2^42. */
  lemma CollideIff(node: int, e: nat, s: nat, node': int, e': nat, s': nat)
    requires NodeFits(node) && NodeFits(node') && s < 4096 && s' < 4096
    ensures Pack(node, e, s) == Pack(node', e', s') <==> node == node' && s == s' && e % WRAP_MS == e' % WRAP_MS
  {
  }

  /** From 2^41 ms on the int64 is negative, yet the uint64 keeps the order up to 2^42 ms. */
  lemma SignBit(node: nat, elapsed: nat, s: nat)
    requires NodeFits(node) && s < 4096 && elapsed < WRAP_MS
    ensures ToInt64(Pack(node, elapsed, s)) < 0 <==> elapsed >= 0x200_0000_0000
  {
  }

  // ---------------------------------------------------------------- the generator

  datatype Outcome = Id(id: nat) | Error(reason: Step)

  datatype Request = Request(first: int, later: seq<int>)

  function ToOutcome(node: int, t: Step): Outcome
    requires NodeFits(node)
  {
    if t.Minted? then Id(Pack(node, t.tick, t.sequence)) else Error(t)
  }

  class Generator {
    const nodeId: int
    var lastMs: int
    var sequence: nat
    var held: bool

    ghost function Now(): State
      reads this
    {
      State(lastMs, sequence, held)
    }

    ghost predicate Valid()
      reads this
    {
      NodeFits(nodeId) && Sound(LIMITS, Now())
    }

    /** `NewSnowflake` after its range check on the node id. */
    constructor (node: int)
      requires NodeFits(node)
      ensures Valid() && nodeId == node && Now() == START
    {
      nodeId := node;
      lastMs, sequence, held := -1, 0, false;
    }

    method Next(first: int, later: seq<int>) returns (r: Outcome)
      requires Valid()
      modifies this`lastMs, this`sequence, this`held
      ensures Valid()
      ensures var (next, t) := Advance(LIMITS, old(Now()), At(first, later));
        Now() == next && r == ToOutcome(nodeId, t)
    {
      Pow2Of12();
      var next, t := TakeTurn(LIMITS, 12, State(lastMs, sequence, held), first, later);
      lastMs, sequence, held := next.lastMs, next.sequence, next.held;
      if !t.Minted? { return Error(t); }
      StepForward(LIMITS, old(Now()), At(first, later));
      PackIsOr(nodeId, t.tick, t.sequence);
      r := Id(ToUint64(Or64(Or64(Shl64(t.tick, 22), Shl64(nodeId, 12)), t.sequence)));
    }
  }

  /** Null stands for the error on a node id out of range. */
  method NewSnowflake(node: int) returns (g: Generator?)
    ensures g != null <==> 0 <= node <= 1023
    ensures g != null ==> fresh(g) && g.Valid() && g.nodeId == node && g.Now() == START
  {
    if node < 0 || node > 1023 {
      return null;
    }
    g := new Generator(node);
  }

  // ---------------------------------------------------------------- runs

  function Calls(rs: seq<Request>): (r: seq<Call>)
    ensures |r| == |rs|
  {
    seq(|rs|, i requires 0 <= i < |rs| => At(rs[i].first, rs[i].later))
  }

  function Run(node: int, rs: seq<Request>): (r: seq<Outcome>)
    requires NodeFits(node)
    ensures |r| == |rs|
  {
    var ts := Steps(LIMITS, START, Calls(rs));
    seq(|rs|, i requires 0 <= i < |rs| => ToOutcome(node, ts[i]))
  }

  lemma {:induction false} NeverOverflows(st: State, calls: seq<Call>)
    ensures Overflow !in Steps(LIMITS, st, calls)
    decreases calls
  {
    if calls != [] {
      NeverOverflows(Advance(LIMITS, st, calls[0]).0, calls[1..]);
    }
  }

  /** Over every run whose ids all come from the first 2^42 ms after the epoch, ids strictly increase
      as uint64 values; the clock may otherwise do anything. */
  lemma RunIncreasing(node: int, rs: seq<Request>, i: nat, j: nat)
    requires NodeFits(node) && i < j < |rs| && Run(node, rs)[i].Id? && Run(node, rs)[j].Id?
    requires forall k :: 0 <= k < |rs| && Steps(LIMITS, START, Calls(rs))[k].Minted? ==>
      Steps(LIMITS, START, Calls(rs))[k].tick < WRAP_MS
    ensures Run(node, rs)[i].id < Run(node, rs)[j].id
  {
    var ts := Steps(LIMITS, START, Calls(rs));
    NeverOverflows(START, Calls(rs));
    RunIncreases(LIMITS, START, Calls(rs));
    StepsFit(LIMITS, START, Calls(rs), i);
    StepsFit(LIMITS, START, Calls(rs), j);
    assert Before(ts[i], ts[j]);
  }

  /** One wrap period later the same ids come out again. */
  lemma WrapRepeats(node: int)
    requires NodeFits(node)
    ensures var r := Run(node, [Request(EPOCH_MS, []), Request(EPOCH_MS + WRAP_MS, [])]);
      r[0].Id? && r[0] == r[1]
  {
    var calls := Calls([Request(EPOCH_MS, []), Request(EPOCH_MS + WRAP_MS, [])]);
    assert calls == [At(EPOCH_MS, []), At(EPOCH_MS + WRAP_MS, [])];
    assert calls[1..] == [At(EPOCH_MS + WRAP_MS, [])];
    assert Steps(LIMITS, START, calls) == [Minted(0, 0), Minted(WRAP_MS, 0)];
  }

  /** With a clock past the epoch that does not run backwards and ends every wait, every call gets an id. */
  lemma EveryCallGetsId(node: int, rs: seq<Request>, i: nat)
    requires NodeFits(node) && Steady(LIMITS, Calls(rs)) && i < |rs|
    ensures Run(node, rs)[i].Id?
  {
    forall j | 0 <= j < |rs|
      ensures START.lastMs <= Calls(rs)[j].first
    {
      assert Answers(LIMITS, Calls(rs)[j]);
    }
    EveryCallMints(LIMITS, START, Calls(rs), i);
  }

  /** One call on a generator in state st, in figures: 4096 ids a millisecond and no last millisecond. */
  lemma NextAnswers(node: int, st: State, r: Request)
    requires NodeFits(node) && Sound(LIMITS, st) && !st.held && r.first >= st.lastMs
    ensures var answer, elapsed := ToOutcome(node, Advance(LIMITS, st, At(r.first, r.later)).1), r.first - 1767225600000;
      && (0 <= elapsed && r.first > st.lastMs ==> answer == Id(Pack(node, elapsed, 0)))
      && (0 <= elapsed && r.first == st.lastMs && st.sequence < 4095 ==> answer == Id(Pack(node, elapsed, st.sequence + 1)))
      && (r.first == st.lastMs && st.sequence == 4095 && r.later == [] ==> answer == Error(Stalled))
      && (elapsed < 0 && r.first > st.lastMs ==> answer == Error(BeforeEpoch))
  {
    hide Pack;
  }
}
