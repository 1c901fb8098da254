/** The clock-and-sequence discipline that the three id generators of pkg/idgen share:
    `lastMs` and `sequence` move together under a lock, a backward clock is refused, and an
    exhausted sequence waits for the clock to pass the current millisecond.

    Each call sees the first clock reading and the readings its waiting loop would take after it.
    A waiting loop that never sees a later reading keeps the lock, so no later call gets through. */
module Ticker {
  import opened BitFields
  import opened GoText

  const EPOCH_MS: int := 1767225600000

  /** Ids per millisecond and, where the generator checks it, the largest tick. */
  datatype Limits = Limits(capacity: nat, maxTick: Option<nat>) {
    predicate Exceeds(ms: int) {
      maxTick.Some? && ms - EPOCH_MS > maxTick.value
    }
  }

  datatype State = State(lastMs: int, sequence: nat, held: bool)

  const START := State(-1, 0, false)

  /** One call: refused before the lock is taken, or made with these clock readings. */
  datatype Call = Refused | At(first: int, later: seq<int>)

  datatype Step =
    | Minted(tick: nat, sequence: nat)
    | NotTried
    | Backwards
    | BeforeEpoch
    | Overflow
    | Stalled

  /** The first reading past ms, which is what the waiting loop returns. */
  function FirstAfter(later: seq<int>, ms: int): (r: Option<int>)
    ensures r.Some? ==> r.value > ms && r.value in later
    ensures r.None? ==> forall x :: x in later ==> x <= ms
  {
    if later == [] then None
    else if later[0] > ms then Some(later[0])
    else
      assert later == [later[0]] + later[1..];
      FirstAfter(later[1..], ms)
  }

  function Finish(lim: Limits, st: State, ms: int, s: nat): (State, Step) {
    if ms < EPOCH_MS then (st.(sequence := s), BeforeEpoch)
    else if lim.Exceeds(ms) then (st.(sequence := s), Overflow)
    else (State(ms, s, false), Minted(ms - EPOCH_MS, s))
  }

  /** One call of `Next`, up to packing the minted pair into an id. */
  function Advance(lim: Limits, st: State, call: Call): (State, Step) {
    match call
    case Refused => (st, NotTried)
    case At(first, later) =>
      if st.held then (st, Stalled)
      else if first < st.lastMs then (st, Backwards)
      else if first > st.lastMs then Finish(lim, st, first, 0)
      else if st.sequence + 1 < lim.capacity then Finish(lim, st, first, st.sequence + 1)
      else match FirstAfter(later, first)
        case None => (st.(sequence := 0, held := true), Stalled)
        case Some(ms) => Finish(lim, st, ms, 0)
  }

  // ---------------------------------------------------------------- one step

  /** Reachable states: before the first mint `lastMs` is still -1. */
  predicate Sound(lim: Limits, st: State) {
    && st.sequence < lim.capacity
    && (st.lastMs == -1 || (st.lastMs >= EPOCH_MS && !lim.Exceeds(st.lastMs)))
  }

  /** The pair t lies strictly past the state. */
  predicate Past(st: State, t: Step)
    requires t.Minted?
  {
    t.tick + EPOCH_MS > st.lastMs || (t.tick + EPOCH_MS == st.lastMs && t.sequence > st.sequence)
  }

  predicate Before(a: Step, b: Step)
    requires a.Minted? && b.Minted?
  {
    a.tick < b.tick || (a.tick == b.tick && a.sequence < b.sequence)
  }

  /** The state only moves forward; a held lock stays held. */
  predicate Follows(st: State, next: State) {
    || next.held
    || (!st.held && st.lastMs < next.lastMs)
    || (!st.held && st.lastMs == next.lastMs && (st.lastMs < EPOCH_MS || st.sequence <= next.sequence))
  }

  /** A step that does not overflow moves the state forward, and a mint lands exactly on the new state. */
  lemma StepForward(lim: Limits, st: State, call: Call)
    requires Sound(lim, st)
    ensures var (next, t) := Advance(lim, st, call);
      && Sound(lim, next)
      && (st.held ==> next == st && !t.Minted?)
      && (t.Minted? ==> Past(st, t) && next == State(t.tick + EPOCH_MS, t.sequence, false))
      && (t.Minted? && t.sequence > 0 ==> st == next.(sequence := t.sequence - 1))
      && (!t.Minted? && t != Overflow ==> next.held || st.lastMs == -1 == next.lastMs || next == st)
      && (t == Overflow ==> next == st.(sequence := 0))
      && (t != Overflow ==> Follows(st, next))
  {
  }

  /** `waitNextMillis` over the readings still to come. */
  method WaitNextMillis(currentMs: int, later: seq<int>) returns (r: Option<int>)
    ensures r == FirstAfter(later, currentMs)
  {
    var i := 0;
    while i < |later|
      invariant 0 <= i <= |later|
      invariant FirstAfter(later, currentMs) == FirstAfter(later[i..], currentMs)
    {
      if later[i] > currentMs { return Some(later[i]); }
      i := i + 1;
    }
    r := None;
  }

  /** The body that the three `Next` methods share from taking the lock to storing `lastMs`, on the
      generator's fields; `seqBits` is the width of the sequence mask. */
  method TakeTurn(lim: Limits, seqBits: nat, st: State, first: int, later: seq<int>) returns (next: State, t: Step)
    requires Sound(lim, st) && lim.capacity == Pow2(seqBits) && 1 <= seqBits <= 61
    ensures (next, t) == Advance(lim, st, At(first, later))
    ensures Sound(lim, next)
  {
    StepForward(lim, st, At(first, later));
    next := st;
    if st.held { return next, Stalled; }
    var ms := first;
    if ms < next.lastMs { return next, Backwards; }
    if ms == next.lastMs {
      MaskedIncrement(next.sequence, seqBits);
      next := next.(sequence := And64(next.sequence + 1, LowMaskOf(seqBits)));
      if next.sequence == 0 {
        var found := WaitNextMillis(ms, later);
        if found.None? { return next.(held := true), Stalled; }
        ms := found.value;
      }
    } else {
      next := next.(sequence := 0);
    }
    var tick := ms - EPOCH_MS;
    if tick < 0 { return next, BeforeEpoch; }
    if lim.maxTick.Some? && tick > lim.maxTick.value { return next, Overflow; }
    next := next.(lastMs := ms);
    t := Minted(tick, next.sequence);
  }

  function LowMaskOf(k: nat): (r: int)
    requires k <= 63
    ensures r == Pow2(k) - 1
  {
    LowMaskValue(k);
    LowMask(k)
  }

  // ---------------------------------------------------------------- runs

  function StateAfter(lim: Limits, st: State, calls: seq<Call>): State
    decreases calls
  {
    if calls == [] then st
    else StateAfter(lim, Advance(lim, st, calls[0]).0, calls[1..])
  }

  /** The outcome of each call of a run, in order. */
  function Steps(lim: Limits, st: State, calls: seq<Call>): (r: seq<Step>)
    ensures |r| == |calls|
    decreases calls
  {
    if calls == [] then []
    else [Advance(lim, st, calls[0]).1] + Steps(lim, Advance(lim, st, calls[0]).0, calls[1..])
  }

  ghost predicate AllPast(st: State, ts: seq<Step>) {
    forall i :: 0 <= i < |ts| && ts[i].Minted? ==> !st.held && Past(st, ts[i])
  }

  ghost predicate Increasing(ts: seq<Step>) {
    forall i, j :: 0 <= i < j < |ts| && ts[i].Minted? && ts[j].Minted? ==> Before(ts[i], ts[j])
  }

  lemma StepsSplit(lim: Limits, st: State, calls: seq<Call>)
    requires calls != []
    ensures var (next, t) := Advance(lim, st, calls[0]);
      var rest := Steps(lim, next, calls[1..]);
      && Steps(lim, st, calls)[0] == t
      && (forall i :: 0 <= i < |rest| ==> Steps(lim, st, calls)[i + 1] == rest[i])
      && (Overflow !in Steps(lim, st, calls) ==> t != Overflow && Overflow !in rest)
  {
    var next, t := Advance(lim, st, calls[0]).0, Advance(lim, st, calls[0]).1;
    var rest := Steps(lim, next, calls[1..]);
    assert Steps(lim, st, calls) == [t] + rest;
    if Overflow !in Steps(lim, st, calls) {
      assert t in [t] + rest;
      assert forall x :: x in rest ==> x in [t] + rest;
    }
  }

  /** A minting step comes from a call that was made, and its pair fits the fields. */
  lemma {:induction false} StepsFit(lim: Limits, st: State, calls: seq<Call>, i: nat)
    requires Sound(lim, st) && i < |calls| && Steps(lim, st, calls)[i].Minted?
    ensures calls[i].At? && Steps(lim, st, calls)[i].sequence < lim.capacity
    ensures lim.maxTick.Some? ==> Steps(lim, st, calls)[i].tick <= lim.maxTick.value
    decreases calls
  {
    StepForward(lim, st, calls[0]);
    StepsSplit(lim, st, calls);
    if i > 0 { StepsFit(lim, Advance(lim, st, calls[0]).0, calls[1..], i - 1); }
  }

  /** From any sound state, every run whose readings fit the timestamp field mints strictly
      increasing (tick, sequence) pairs past that state, whatever else the clock does. */
  lemma {:induction false} RunIncreases(lim: Limits, st: State, calls: seq<Call>)
    requires Sound(lim, st) && Overflow !in Steps(lim, st, calls)
    ensures AllPast(st, Steps(lim, st, calls)) && Increasing(Steps(lim, st, calls))
    decreases calls
  {
    if calls != [] {
      StepsSplit(lim, st, calls);
      StepForward(lim, st, calls[0]);
      RunIncreases(lim, Advance(lim, st, calls[0]).0, calls[1..]);
    }
  }

  /** The state reached is sound and covers everything the run minted. */
  lemma {:induction false} RunCovers(lim: Limits, st: State, calls: seq<Call>)
    requires Sound(lim, st) && Overflow !in Steps(lim, st, calls)
    ensures var last := StateAfter(lim, st, calls);
      && Sound(lim, last)
      && Follows(st, last)
      && forall i :: 0 <= i < |calls| && Steps(lim, st, calls)[i].Minted? && !last.held ==> !Past(last, Steps(lim, st, calls)[i])
    decreases calls
  {
    if calls != [] {
      StepsSplit(lim, st, calls);
      StepForward(lim, st, calls[0]);
      RunCovers(lim, Advance(lim, st, calls[0]).0, calls[1..]);
    }
  }

  /** Every sequence number up to the current one was issued in the current millisecond, by this
      run or by an earlier one that ended in it. */
  lemma {:induction false} RunFills(lim: Limits, st: State, calls: seq<Call>, s: nat)
    requires Sound(lim, st) && Overflow !in Steps(lim, st, calls)
    requires var last := StateAfter(lim, st, calls); !last.held && last.lastMs >= EPOCH_MS && s <= last.sequence
    ensures var last := StateAfter(lim, st, calls);
      || Minted(last.lastMs - EPOCH_MS, s) in Steps(lim, st, calls)
      || (st.lastMs == last.lastMs && s <= st.sequence)
    decreases calls
  {
    if calls != [] {
      var next, t := Advance(lim, st, calls[0]).0, Advance(lim, st, calls[0]).1;
      StepsSplit(lim, st, calls);
      StepForward(lim, st, calls[0]);
      RunCovers(lim, next, calls[1..]);
      RunFills(lim, next, calls[1..], s);
      assert Steps(lim, st, calls) == [t] + Steps(lim, next, calls[1..]);
    }
  }

  // ---------------------------------------------------------------- what an overflow does

  /** The first reading past the timestamp field's range reaches a generator whose current millisecond
      has issued sequence number 1: at once, or after waiting out an exhausted sequence. */
  predicate Rewinds(lim: Limits, st: State, call: Call) {
    && call.At? && !st.held && st.lastMs >= EPOCH_MS && st.sequence > 0
    && (|| (call.first > st.lastMs && lim.Exceeds(call.first))
        || (&& call.first == st.lastMs && st.sequence + 1 >= lim.capacity
            && var next := FirstAfter(call.later, call.first); next.Some? && lim.Exceeds(next.value)))
  }

  /** That is when a call fails with an overflow and loses a positive sequence. */
  lemma RewindsIff(lim: Limits, st: State, call: Call)
    requires Sound(lim, st)
    ensures Rewinds(lim, st, call) <==> Advance(lim, st, call).1 == Overflow && st.lastMs >= EPOCH_MS && st.sequence > 0
  {
  }

  /** Every reading the call can take fits the timestamp field. */
  predicate InRange(lim: Limits, call: Call) {
    call.At? ==> !lim.Exceeds(call.first) && forall i :: 0 <= i < |call.later| ==> !lim.Exceeds(call.later[i])
  }

  lemma {:induction false} RangeNeverOverflows(lim: Limits, st: State, calls: seq<Call>)
    requires forall i :: 0 <= i < |calls| ==> InRange(lim, calls[i])
    ensures Overflow !in Steps(lim, st, calls)
    decreases calls
  {
    if calls != [] {
      var call := calls[0];
      assert InRange(lim, call);
      if call.At? && FirstAfter(call.later, call.first).Some? {
        assert !lim.Exceeds(FirstAfter(call.later, call.first).value);
      }
      assert Advance(lim, st, call).1 != Overflow;
      RangeNeverOverflows(lim, Advance(lim, st, call).0, calls[1..]);
    }
  }

  /** If the call does not rewind the sequence, no continuation repeats a pair. */
  lemma ForwardNeverRepeats(lim: Limits, calls: seq<Call>, call: Call, more: seq<Call>)
    requires lim.capacity > 0 && Overflow !in Steps(lim, START, calls)
    requires var st := StateAfter(lim, START, calls);
      !Rewinds(lim, st, call) && Overflow !in Steps(lim, Advance(lim, st, call).0, more)
    ensures forall t :: t in Steps(lim, START, calls) && t.Minted? ==>
      t !in Steps(lim, Advance(lim, StateAfter(lim, START, calls), call).0, more)
  {
    var st := StateAfter(lim, START, calls);
    RunCovers(lim, START, calls);
    StepForward(lim, st, call);
    RewindsIff(lim, st, call);
    RunIncreases(lim, Advance(lim, st, call).0, more);
  }

  /** If it does, reading the unchanged millisecond once more issues a pair again. */
  lemma RewindRepeats(lim: Limits, calls: seq<Call>, call: Call)
    requires lim.capacity > 1 && Overflow !in Steps(lim, START, calls)
    requires Rewinds(lim, StateAfter(lim, START, calls), call)
    ensures var st := StateAfter(lim, START, calls);
      var again := Minted(st.lastMs - EPOCH_MS, 1);
      && again in Steps(lim, START, calls)
      && Advance(lim, Advance(lim, st, call).0, At(st.lastMs, [])).1 == again
  {
    var st := StateAfter(lim, START, calls);
    RunCovers(lim, START, calls);
    StepForward(lim, st, call);
    RewindsIff(lim, st, call);
    RunFills(lim, START, calls, 1);
  }

  // ---------------------------------------------------------------- what a good reading gives

  /** The wait ends with the reading at i. */
  predicate WaitEnds(later: seq<int>, ms: int, i: nat) {
    i < |later| && later[i] > ms && forall j :: 0 <= j < i ==> later[j] <= ms
  }

  lemma {:induction false} WaitEndsThere(later: seq<int>, ms: int, i: nat)
    requires WaitEnds(later, ms, i)
    ensures FirstAfter(later, ms) == Some(later[i])
    decreases later
  {
    if i > 0 {
      assert WaitEnds(later[1..], ms, i - 1);
      WaitEndsThere(later[1..], ms, i - 1);
    }
  }

  lemma {:induction false} WaitHasEnd(later: seq<int>, ms: int) returns (i: nat)
    requires exists k :: 0 <= k < |later| && later[k] > ms
    ensures WaitEnds(later, ms, i)
    decreases later
  {
    if later[0] > ms {
      i := 0;
    } else {
      var k :| 0 <= k < |later| && later[k] > ms;
      assert later[1..][k - 1] > ms;
      var rest := WaitHasEnd(later[1..], ms);
      i := rest + 1;
      assert forall j :: 1 <= j < i ==> later[j] == later[1..][j - 1];
    }
  }

  /** On a sound state, a reading in range that is not behind mints: a new millisecond with sequence 0,
      the current one with the next sequence number while there is one, and after that the millisecond
      at which the wait ends. */
  lemma ReadingMints(lim: Limits, st: State, first: int, later: seq<int>)
    requires Sound(lim, st) && !st.held && first >= st.lastMs && first >= EPOCH_MS && !lim.Exceeds(first)
    ensures var t := Advance(lim, st, At(first, later)).1;
      && (first > st.lastMs ==> t == Minted(first - EPOCH_MS, 0))
      && (first == st.lastMs && st.sequence + 1 < lim.capacity ==> t == Minted(first - EPOCH_MS, st.sequence + 1))
      && (first == st.lastMs && st.sequence + 1 == lim.capacity ==>
            && (forall i: nat :: WaitEnds(later, first, i) ==>
                  t == if lim.Exceeds(later[i]) then Overflow else Minted(later[i] - EPOCH_MS, 0))
            && ((forall i :: 0 <= i < |later| ==> later[i] <= first) ==>
                  t == Stalled && Advance(lim, st, At(first, later)).0.held))
  {
    forall i: nat | WaitEnds(later, first, i)
      ensures FirstAfter(later, first) == Some(later[i])
    {
      WaitEndsThere(later, first, i);
    }
  }

  /** And every other reading is refused for its own reason, without moving the generator. */
  lemma ReadingRefused(lim: Limits, st: State, first: int, later: seq<int>)
    requires Sound(lim, st)
    ensures var (next, t) := Advance(lim, st, At(first, later));
      && (st.held ==> t == Stalled && next == st)
      && (!st.held && first < st.lastMs ==> t == Backwards && next == st)
      && (!st.held && st.lastMs < first < EPOCH_MS ==> t == BeforeEpoch && next.lastMs == st.lastMs)
      && (!st.held && first > st.lastMs && lim.Exceeds(first) && first >= EPOCH_MS ==> t == Overflow && next.lastMs == st.lastMs)
  {
  }

  lemma {:induction false} RefusedStep(lim: Limits, st: State, calls: seq<Call>, i: nat)
    requires i < |calls| && calls[i].Refused?
    ensures Steps(lim, st, calls)[i] == NotTried
    decreases calls
  {
    StepsSplit(lim, st, calls);
    if i > 0 {
      RefusedStep(lim, Advance(lim, st, calls[0]).0, calls[1..], i - 1);
    }
  }

  /** A clock that stays in range, never runs backwards, and ends every wait. Only the readings up to
      the end of a call's wait count. */
  ghost predicate Steady(lim: Limits, calls: seq<Call>) {
    && (forall i :: 0 <= i < |calls| && calls[i].At? ==> Answers(lim, calls[i]))
    && (forall i, j :: 0 <= i < j < |calls| && calls[i].At? && calls[j].At? ==> NotAfter(calls[i], calls[j].first))
  }

  ghost predicate Answers(lim: Limits, call: Call)
    requires call.At?
  {
    && call.first >= EPOCH_MS && InRange(lim, call)
    && exists k :: 0 <= k < |call.later| && call.later[k] > call.first
  }

  ghost predicate NotAfter(call: Call, ms: int)
    requires call.At?
  {
    call.first <= ms && forall k: nat :: WaitEnds(call.later, call.first, k) ==> call.later[k] <= ms
  }

  lemma CallMints(lim: Limits, st: State, call: Call)
    requires Sound(lim, st) && !st.held && call.At? && Answers(lim, call) && st.lastMs <= call.first
    ensures var (next, t) := Advance(lim, st, call);
      && t.Minted? && next == State(t.tick + EPOCH_MS, t.sequence, false)
      && (t.tick + EPOCH_MS == call.first || exists k: nat :: WaitEnds(call.later, call.first, k) && t.tick + EPOCH_MS == call.later[k])
  {
    var k := WaitHasEnd(call.later, call.first);
    ReadingMints(lim, st, call.first, call.later);
    assert !lim.Exceeds(call.later[k]);
    StepForward(lim, st, call);
  }

  /** With such a clock every call that is not refused outright mints, at its first reading or at the one
      that ends its wait. */
  lemma {:induction false} EveryCallMints(lim: Limits, st: State, calls: seq<Call>, i: nat)
    requires Sound(lim, st) && !st.held && Steady(lim, calls) && i < |calls| && calls[i].At?
    requires forall j :: 0 <= j < |calls| && calls[j].At? ==> st.lastMs <= calls[j].first
    ensures var t := Steps(lim, st, calls)[i];
      && t.Minted?
      && (t.tick + EPOCH_MS == calls[i].first ||
          exists k: nat :: WaitEnds(calls[i].later, calls[i].first, k) && t.tick + EPOCH_MS == calls[i].later[k])
    decreases calls
  {
    StepsSplit(lim, st, calls);
    if calls[0].At? {
      CallMints(lim, st, calls[0]);
    }
    if i > 0 {
      var next, rest := Advance(lim, st, calls[0]).0, calls[1..];
      StepForward(lim, st, calls[0]);
      SteadyRest(lim, calls);
      forall j | 0 <= j < |rest| && rest[j].At?
        ensures next.lastMs <= rest[j].first
      {
        assert rest[j] == calls[j + 1];
        assert calls[0].At? ==> NotAfter(calls[0], calls[j + 1].first);
      }
      EveryCallMints(lim, next, rest, i - 1);
    }
  }

  lemma SteadyRest(lim: Limits, calls: seq<Call>)
    requires Steady(lim, calls) && calls != []
    ensures Steady(lim, calls[1..])
  {
    hide Answers, NotAfter;
    var rest := calls[1..];
    forall i | 0 <= i < |rest| && rest[i].At?
      ensures Answers(lim, rest[i])
    {
      assert rest[i] == calls[i + 1];
    }
    forall i, j | 0 <= i < j < |rest| && rest[i].At? && rest[j].At?
      ensures NotAfter(rest[i], rest[j].first)
    {
      assert rest[i] == calls[i + 1] && rest[j] == calls[j + 1];
    }
  }
}
