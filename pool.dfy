/** The instance pool of the JavaScript runtime provider (RuntimeProviderJS
    Get and Put) as one sequential step each: an idle queue of bounded
    capacity and an allocation counter that is only ever incremented. */
module Pool {
  import opened Common

  const Uint32Limit: nat := 0x1_0000_0000

  /** The values of a Go uint32. */
  type Uint32 = x: nat | x < Uint32Limit

  /** atomic.Uint32.Inc: add one and return the new value, wrapping at 2^32. */
  function Inc32(x: Uint32): (r: Uint32)
    ensures x + 1 < Uint32Limit ==> r == x + 1
    ensures x + 1 == Uint32Limit ==> r == 0
  {
    (x + 1) % Uint32Limit
  }

  /** The pool's part of RuntimeProviderJS: the buffered channel `poolCh`
      (its contents `idle`, its capacity the configured MaxCount, which is
      also `maxCount`), the counter `currentCount`, and the number of
      instances `newFn` has built so far. */
  datatype PoolState<T> = PoolState(idle: seq<T>, maxCount: Uint32, currentCount: Uint32, constructed: nat)

  /** What one call of Get gives: ctx.Err(), an instance taken from the
      queue, a freshly built one, or nothing yet (the call blocks in its
      second select). */
  datatype Acquired<T> = Cancelled | Idle(r: T) | Fresh(r: T) | MustWait

  datatype GetResult<T> = GetResult(acquired: Acquired<T>, state: PoolState<T>)

  /** A select over ctx.Done() and the queue. When both are ready Go picks
      either; `cancelWins` says which. None when neither is ready. */
  function Select<T>(s: PoolState<T>, cancelled: bool, cancelWins: bool): (r: Option<GetResult<T>>)
    ensures r.None? <==> !cancelled && |s.idle| == 0
  {
    if cancelled && (|s.idle| == 0 || cancelWins) then Some(GetResult(Cancelled, s))
    else if |s.idle| > 0 then Some(GetResult(Idle(s.idle[0]), s.(idle := s.idle[1..])))
    else None
  }

  /** Get: the first select; on its default branch the load check, the
      increment and the recheck; then the second select, which in a single
      step finds nothing ready and waits. `built` is what newFn builds. */
  function GetStep<T>(s: PoolState<T>, cancelled: bool, cancelWins: bool, built: T): GetResult<T>
  {
    match Select(s, cancelled, cancelWins)
    case Some(r) => r
    case None =>
      var s' :=
        if s.currentCount >= s.maxCount then s
        else s.(currentCount := Inc32(s.currentCount));
      if s.currentCount < s.maxCount && s'.currentCount <= s.maxCount then
        GetResult(Fresh(built), s'.(constructed := s.constructed + 1))
      else
        match Select(s', cancelled, cancelWins)
        case Some(r) => r
        case None => GetResult(MustWait, s')
  }

  /** Put: a non-blocking send; a full queue discards the instance. */
  function PutStep<T>(s: PoolState<T>, r: T): PoolState<T>
  {
    if |s.idle| < s.maxCount then s.(idle := s.idle + [r]) else s
  }

  /** What every step keeps: the counter never passes maxCount, every
      instance built was counted, and the queue respects its capacity. */
  predicate Valid<T>(s: PoolState<T>)
  {
    s.currentCount <= s.maxCount && s.constructed <= s.currentCount && |s.idle| <= s.maxCount
  }

  /** A cancelled context ends Get with ctx.Err() unless an idle instance
      was ready and won the race; nothing is built and nothing changes. */
  lemma GetCancelled<T>(s: PoolState<T>, cancelWins: bool, built: T)
    ensures var g := GetStep(s, true, cancelWins, built);
      && (g.acquired.Cancelled? || g.acquired.Idle?)
      && ((|s.idle| == 0 || cancelWins) ==> g == GetResult(Cancelled, s))
  {
  }

  /** An idle instance is handed out before any allocation is considered:
      the head of the queue, with the counters untouched. */
  lemma GetPrefersIdle<T>(s: PoolState<T>, cancelled: bool, cancelWins: bool, built: T)
    requires |s.idle| > 0 && !(cancelled && cancelWins)
    ensures GetStep(s, cancelled, cancelWins, built) ==
      GetResult(Idle(s.idle[0]), s.(idle := s.idle[1..]))
  {
  }

  /** The allocation rule: a built instance is built exactly when no select
      case was ready, the counter was below maxCount before the increment
      and at most maxCount after it; the counter then grows by one. */
  lemma {:induction false} GetFreshIff<T>(s: PoolState<T>, cancelled: bool, cancelWins: bool, built: T)
    ensures var g := GetStep(s, cancelled, cancelWins, built);
      g.acquired.Fresh? <==>
        !cancelled && |s.idle| == 0 && s.currentCount < s.maxCount && Inc32(s.currentCount) <= s.maxCount
    ensures var g := GetStep(s, cancelled, cancelWins, built);
      g.acquired.Fresh? ==>
        && g == GetResult(Fresh(built), s.(currentCount := s.currentCount + 1, constructed := s.constructed + 1))
  {
    assert s.currentCount < s.maxCount ==> Inc32(s.currentCount) == s.currentCount + 1;
  }

  /** Without a ready case and with the counter at maxCount, Get waits and
      changes nothing; with the counter below maxCount it never waits. */
  lemma GetWaitsIff<T>(s: PoolState<T>, cancelled: bool, cancelWins: bool, built: T)
    ensures var g := GetStep(s, cancelled, cancelWins, built);
      g.acquired.MustWait? <==> !cancelled && |s.idle| == 0 && s.currentCount >= s.maxCount
    ensures var g := GetStep(s, cancelled, cancelWins, built);
      g.acquired.MustWait? ==> g.state == s
  {
  }

  /** In a sequential step the recheck after the increment always passes:
      the counter is below maxCount < 2^32, so the increment cannot wrap. */
  lemma RecheckPasses(x: Uint32, maxCount: Uint32)
    requires x < maxCount
    ensures Inc32(x) <= maxCount
  {
  }

  /** The counter is never decremented, and Get raises it by at most one. */
  lemma GetCounterMonotone<T>(s: PoolState<T>, cancelled: bool, cancelWins: bool, built: T)
    ensures var g := GetStep(s, cancelled, cancelWins, built);
      g.state.currentCount == s.currentCount || g.state.currentCount == s.currentCount + 1
  {
  }

  /** Put appends exactly when the queue has room, discards otherwise, and
      never touches the counter or the number built. */
  lemma PutEffect<T>(s: PoolState<T>, r: T)
    ensures var t := PutStep(s, r);
      && (|s.idle| < s.maxCount ==> t.idle == s.idle + [r])
      && (|s.idle| >= s.maxCount ==> t.idle == s.idle)
      && t.currentCount == s.currentCount && t.maxCount == s.maxCount && t.constructed == s.constructed
  {
  }

  /** Get and Put keep the pool valid. */
  lemma GetPreservesValid<T>(s: PoolState<T>, cancelled: bool, cancelWins: bool, built: T)
    requires Valid(s)
    ensures Valid(GetStep(s, cancelled, cancelWins, built).state)
  {
    GetFreshIff(s, cancelled, cancelWins, built);
  }

  lemma PutPreservesValid<T>(s: PoolState<T>, r: T)
    requires Valid(s)
    ensures Valid(PutStep(s, r))
  {
  }

  /** No run of Gets and Puts ever builds more than maxCount instances. */
  lemma {:induction false} NeverOverAllocates<T>(s: PoolState<T>, ops: seq<PoolOp<T>>)
    requires Valid(s)
    ensures Valid(Run(s, ops)) && Run(s, ops).constructed <= s.maxCount
    ensures Run(s, ops).maxCount == s.maxCount && Run(s, ops).currentCount >= s.currentCount
    decreases |ops|
  {
    if ops != [] {
      match ops[0] {
        case GetOp(c, w, f) =>
          GetPreservesValid(s, c, w, f);
          GetCounterMonotone(s, c, w, f);
        case PutOp(r) =>
          PutPreservesValid(s, r);
      }
      NeverOverAllocates(Apply(s, ops[0]), ops[1..]);
    }
  }

  /** A call on the pool, with the choices Go makes at run time. */
  datatype PoolOp<T> = GetOp(cancelled: bool, cancelWins: bool, built: T) | PutOp(r: T)

  function Apply<T>(s: PoolState<T>, op: PoolOp<T>): PoolState<T>
  {
    match op
    case GetOp(c, w, f) => GetStep(s, c, w, f).state
    case PutOp(r) => PutStep(s, r)
  }

  function Run<T>(s: PoolState<T>, ops: seq<PoolOp<T>>): PoolState<T>
    decreases |ops|
  {
    if ops == [] then s else Run(Apply(s, ops[0]), ops[1..])
  }
}
