/**
 The causal load filter of the confirm path: an exponential approach to the raw load over the
 elapsed ticks, staged by apply and made effective by commit. Exact arithmetic replaces the
 exponential by any decay `E` with `0 < E < 1` and `E(a + b) = E(a) * E(b)`.
 */
module Stabilizer {
  import opened Wrappers
  import opened Vectors

  const TICK_HZ := 1000000000
  const RAW_CD_LIMIT := 10.0
  const APPLIED_CD_LIMIT := 10.0
  const TICK_TOLERANCE := 5.0e-13

  type Rows = seq<seq<real>>

  datatype FilterError =
    | NotCommitted
    | NotContiguous
    | TimeTickMismatch
    | StaleTick
    | BadShape
    | RawGate(slice: nat)
    | AppliedGate(slice: nat)
    | NothingPending

  datatype Pending = Pending(step: int, tick: int, raw: Rows, applied: Rows)

  datatype Filter = Filter(previous: Rows, lastStep: int, lastTick: int, pending: Option<Pending>)

  datatype Settings = Settings(scales: seq<real>, decay: int -> real) {
    ghost predicate Valid() {
      && |scales| == 3 && (forall i :: 0 <= i < 3 ==> scales[i] > 0.0)
      && IsDecay(decay)
    }
  }

  ghost predicate IsDecay(e: int -> real) {
    && (forall d: int :: d > 0 ==> 0.0 < e(d) < 1.0)
    && (forall a: int, b: int :: SplitsAt(e, a, b))
  }

  ghost predicate SplitsAt(e: int -> real, a: int, b: int) {
    a > 0 && b > 0 ==> e(a + b) == e(a) * e(b)
  }

  predicate ThreeByThree(m: Rows) {
    |m| == 3 && forall i :: 0 <= i < 3 ==> |m[i]| == 3
  }

  // ----- the filter on values

  function Blend(old_: real, current: real, alpha: real): real {
    (1.0 - alpha) * old_ + alpha * current
  }

  function Alpha(c: Settings, ticks: int): real {
    1.0 - c.decay(ticks)
  }

  function BlendRow(old_: seq<real>, current: seq<real>, alpha: real): (row: seq<real>)
    requires |old_| == |current| == 3
    ensures |row| == 3
  {
    [Blend(old_[0], current[0], alpha), Blend(old_[1], current[1], alpha), Blend(old_[2], current[2], alpha)]
  }

  function Blended(old_: Rows, raw: Rows, alpha: real): (applied: Rows)
    requires ThreeByThree(old_) && ThreeByThree(raw)
    ensures ThreeByThree(applied)
  {
    [BlendRow(old_[0], raw[0], alpha), BlendRow(old_[1], raw[1], alpha), BlendRow(old_[2], raw[2], alpha)]
  }

  function Cd(force: real, scale: real): real
    requires scale != 0.0
  {
    Abs(force / scale)
  }

  /** The first gate that fails, slice by slice, raw before applied. */
  function GateError(c: Settings, old_: Rows, raw: Rows, alpha: real, i: nat): Option<FilterError>
    requires |c.scales| == 3 && (forall k :: 0 <= k < 3 ==> c.scales[k] > 0.0)
    requires ThreeByThree(old_) && ThreeByThree(raw) && i <= 3
    decreases 3 - i
  {
    if i == 3 then None
    else if Cd(raw[i][0], c.scales[i]) > RAW_CD_LIMIT then Some(RawGate(i))
    else if Cd(Blend(old_[i][0], raw[i][0], alpha), c.scales[i]) > APPLIED_CD_LIMIT then Some(AppliedGate(i))
    else GateError(c, old_, raw, alpha, i + 1)
  }

  ghost predicate ValidFilter(c: Settings, s: Filter) {
    && c.Valid() && ThreeByThree(s.previous)
    && (s.pending.Some? ==>
          var p := s.pending.value;
          && p.step == s.lastStep + 1 && p.tick > s.lastTick && ThreeByThree(p.raw)
          && p.applied == Blended(s.previous, p.raw, Alpha(c, p.tick - s.lastTick)))
  }

  function ApplyError(c: Settings, s: Filter, step: int, time: real, tick: int, raw: Rows): Option<FilterError>
    requires |c.scales| == 3 && (forall k :: 0 <= k < 3 ==> c.scales[k] > 0.0) && ThreeByThree(s.previous)
  {
    if s.pending.Some? then Some(NotCommitted)
    else if step != s.lastStep + 1 then Some(NotContiguous)
    else if Abs(time - tick as real / TICK_HZ as real) > TICK_TOLERANCE then Some(TimeTickMismatch)
    else if tick <= s.lastTick then Some(StaleTick)
    else if !ThreeByThree(raw) then Some(BadShape)
    else GateError(c, s.previous, raw, Alpha(c, tick - s.lastTick), 0)
  }

  datatype Op = Apply(step: int, time: real, tick: int, raw: Rows) | Commit | Rollback

  /** The state after one operation; a rejected operation changes nothing. */
  ghost function After(c: Settings, s: Filter, op: Op): (t: Filter)
    requires ValidFilter(c, s)
    ensures ValidFilter(c, t)
  {
    match op
    case Apply(step, time, tick, raw) =>
      if ApplyError(c, s, step, time, tick, raw).Some? then s
      else s.(pending := Some(Pending(step, tick, raw, Blended(s.previous, raw, Alpha(c, tick - s.lastTick)))))
    case Commit =>
      if s.pending.None? then s
      else Filter(s.pending.value.applied, s.pending.value.step, s.pending.value.tick, None)
    case Rollback => s.(pending := None)
  }

  // ----- the object

  class LoadStabilizer {
    const settings: Settings
    var previous: Rows
    var lastStep: int
    var lastTick: int
    var pending: Option<Pending>

    ghost function View(): Filter
      reads this
    {
      Filter(previous, lastStep, lastTick, pending)
    }

    constructor (settings: Settings, previousApplied: Rows, sourceStep: int, sourceTick: int)
      requires settings.Valid() && ThreeByThree(previousApplied) && sourceTick >= 0
      ensures this.settings == settings
      ensures View() == Filter(previousApplied, sourceStep, sourceTick, None)
    {
      this.settings := settings;
      previous, lastStep, lastTick, pending := previousApplied, sourceStep, sourceTick, None;
    }

    /** Stages the filtered load of the next step; any rejection leaves the object as it was. */
    method ApplyLoad(step: int, time: real, tick: int, raw: Rows) returns (r: Result<Rows, FilterError>)
      requires ValidFilter(settings, View())
      modifies this`pending
      ensures View() == After(settings, old(View()), Apply(step, time, tick, raw))
      ensures match ApplyError(settings, old(View()), step, time, tick, raw)
        case Some(e) => r == Err(e)
        case None => r == Ok(Blended(previous, raw, Alpha(settings, tick - lastTick)))
    {
      hide Blend, Cd;
      if pending.Some? {
        return Err(NotCommitted);
      }
      if step != lastStep + 1 {
        return Err(NotContiguous);
      }
      if Abs(time - tick as real / TICK_HZ as real) > TICK_TOLERANCE {
        return Err(TimeTickMismatch);
      }
      if tick <= lastTick {
        return Err(StaleTick);
      }
      if !ThreeByThree(raw) {
        return Err(BadShape);
      }
      var alpha := Alpha(settings, tick - lastTick);
      var applied: Rows := [];
      for i: nat := 0 to 3
        invariant |applied| == i
        invariant forall k :: 0 <= k < i ==> applied[k] == BlendRow(previous[k], raw[k], alpha)
        invariant GateError(settings, previous, raw, alpha, 0) == GateError(settings, previous, raw, alpha, i)
      {
        if Cd(raw[i][0], settings.scales[i]) > RAW_CD_LIMIT {
          return Err(RawGate(i));
        }
        var value := BlendRow(previous[i], raw[i], alpha);
        if Cd(value[0], settings.scales[i]) > APPLIED_CD_LIMIT {
          return Err(AppliedGate(i));
        }
        applied := applied + [value];
      }
      assert applied == Blended(previous, raw, alpha);
      pending := Some(Pending(step, tick, raw, applied));
      return Ok(applied);
    }

    method CommitLoad() returns (r: Result<(), FilterError>)
      requires ValidFilter(settings, View())
      modifies this
      ensures View() == After(settings, old(View()), Commit)
      ensures r == if old(pending).Some? then Ok(()) else Err(NothingPending)
    {
      if pending.None? {
        return Err(NothingPending);
      }
      previous := pending.value.applied;
      lastStep := pending.value.step;
      lastTick := pending.value.tick;
      pending := None;
      return Ok(());
    }

    method RollbackLoad()
      requires ValidFilter(settings, View())
      modifies this`pending
      ensures View() == After(settings, old(View()), Rollback)
    {
      pending := None;
    }
  }

  // ----- runs

  ghost function Run(c: Settings, s: Filter, ops: seq<Op>): (t: Filter)
    requires ValidFilter(c, s)
    ensures ValidFilter(c, t)
    decreases |ops|
  {
    if ops == [] then s else Run(c, After(c, s, ops[0]), ops[1..])
  }

  /** One committed load: elapsed ticks and the raw force. */
  datatype Event = Event(ticks: int, raw: Rows)

  /** The loads that a run commits, in order. */
  ghost function Committed(c: Settings, s: Filter, ops: seq<Op>): (events: seq<Event>)
    requires ValidFilter(c, s)
    ensures forall i :: 0 <= i < |events| ==> events[i].ticks > 0 && ThreeByThree(events[i].raw)
    decreases |ops|
  {
    if ops == [] then []
    else
      var rest := Committed(c, After(c, s, ops[0]), ops[1..]);
      if ops[0].Commit? && s.pending.Some? then [Event(s.pending.value.tick - s.lastTick, s.pending.value.raw)] + rest
      else rest
  }

  /** The reference filter: each event moves the applied load towards its raw load. */
  ghost function Filtered(c: Settings, start: Rows, events: seq<Event>): (m: Rows)
    requires ThreeByThree(start) && forall i :: 0 <= i < |events| ==> ThreeByThree(events[i].raw)
    ensures ThreeByThree(m)
    decreases |events|
  {
    if events == [] then start
    else Filtered(c, Blended(start, events[0].raw, Alpha(c, events[0].ticks)), events[1..])
  }

  ghost function TotalTicks(events: seq<Event>): int {
    if events == [] then 0 else events[0].ticks + TotalTicks(events[1..])
  }

  /** Whatever is staged, rejected or rolled back, a run's state is the filter of its committed loads. */
  lemma {:induction false} RunIsFilter(c: Settings, s: Filter, ops: seq<Op>)
    requires ValidFilter(c, s)
    ensures var t, events := Run(c, s, ops), Committed(c, s, ops);
      && t.previous == Filtered(c, s.previous, events)
      && t.lastStep == s.lastStep + |events| && t.lastTick == s.lastTick + TotalTicks(events)
    decreases |ops|
  {
    hide Blended, ApplyError, Alpha;
    if ops != [] {
      RunIsFilter(c, After(c, s, ops[0]), ops[1..]);
      if ops[0].Commit? && s.pending.Some? {
        var rest := Committed(c, After(c, s, ops[0]), ops[1..]);
        var first := Event(s.pending.value.tick - s.lastTick, s.pending.value.raw);
        assert ([first] + rest)[1..] == rest;
      }
    }
  }

  ghost predicate Between(lo: real, x: real, hi: real) {
    lo <= x <= hi
  }

  lemma BlendBetween(lo: real, hi: real, a: real, b: real, alpha: real)
    requires lo <= a <= hi && lo <= b <= hi && 0.0 <= alpha <= 1.0
    ensures lo <= Blend(a, b, alpha) <= hi
  {
    var v := 1.0 - alpha;
    var p, q, r, s := v * lo, alpha * lo, v * hi, alpha * hi;
    var x, y := v * a, alpha * b;
    Weighted(v, lo, a, p, x);
    Weighted(alpha, lo, b, q, y);
    Weighted(v, a, hi, x, r);
    Weighted(alpha, b, hi, y, s);
    Complement(alpha, lo, p, q);
    Complement(alpha, hi, r, s);
  }

  /** Weighting keeps the order; the products are parameters so that callers need no arithmetic. */
  lemma Weighted(w: real, a: real, b: real, wa: real, wb: real)
    requires w >= 0.0 && a <= b && wa == w * a && wb == w * b
    ensures wa <= wb
    ensures w > 0.0 && a < b ==> wa < wb
  {
    var d := b - a;
    assert wb == wa + w * d;
    assert w > 0.0 && d > 0.0 ==> w * d > 0.0;
  }

  lemma Complement(alpha: real, x: real, p: real, q: real)
    requires p == (1.0 - alpha) * x && q == alpha * x
    ensures p + q == x
  {
  }

  /** Each filtered component stays between the least and greatest of its start and its committed raw loads. */
  lemma {:induction false} FilteredBetween(c: Settings, start: Rows, events: seq<Event>, i: nat, j: nat, lo: real,
                                           hi: real)
    requires c.Valid() && ThreeByThree(start) && i < 3 && j < 3 && Between(lo, start[i][j], hi)
    requires forall k :: 0 <= k < |events| ==>
      events[k].ticks > 0 && ThreeByThree(events[k].raw) && Between(lo, events[k].raw[i][j], hi)
    ensures Between(lo, Filtered(c, start, events)[i][j], hi)
    decreases |events|
  {
    hide Blend;
    if events != [] {
      var next := Blended(start, events[0].raw, Alpha(c, events[0].ticks));
      BlendBetween(lo, hi, start[i][j], events[0].raw[i][j], Alpha(c, events[0].ticks));
      assert next[i][j] == Blend(start[i][j], events[0].raw[i][j], Alpha(c, events[0].ticks));
      FilteredBetween(c, next, events[1..], i, j, lo, hi);
    }
  }

  /** Under a constant component the result depends on the elapsed ticks alone, not on how they are split. */
  lemma {:induction false} ConstantLoad(c: Settings, start: Rows, events: seq<Event>, i: nat, j: nat, load: real)
    requires c.Valid() && ThreeByThree(start) && i < 3 && j < 3 && events != []
    requires forall k :: 0 <= k < |events| ==>
      events[k].ticks > 0 && ThreeByThree(events[k].raw) && events[k].raw[i][j] == load
    ensures TotalTicks(events) > 0
    ensures Filtered(c, start, events)[i][j] == load + c.decay(TotalTicks(events)) * (start[i][j] - load)
    decreases |events|
  {
    hide Blend;
    var d := events[0].ticks;
    var next := Blended(start, events[0].raw, Alpha(c, d));
    BlendDecays(start[i][j], load, c.decay(d));
    assert next[i][j] == load + c.decay(d) * (start[i][j] - load);
    if events[1..] != [] {
      var rest := TotalTicks(events[1..]);
      ConstantLoad(c, next, events[1..], i, j, load);
      assert SplitsAt(c.decay, d, rest);
      Compose(c.decay(d), c.decay(rest), start[i][j] - load);
    } else {
      assert Filtered(c, next, events[1..]) == next && TotalTicks(events[1..]) == 0;
    }
  }

  lemma BlendDecays(old_: real, load: real, e: real)
    ensures Blend(old_, load, 1.0 - e) == load + e * (old_ - load)
  {
  }

  lemma Compose(a: real, b: real, x: real)
    ensures b * (a * x) == (a * b) * x
  {
  }

  // ----- the gates

  ghost predicate WithinGate(c: Settings, m: Rows)
    requires c.Valid() && ThreeByThree(m)
  {
    forall i :: 0 <= i < 3 ==> Cd(m[i][0], c.scales[i]) <= APPLIED_CD_LIMIT
  }

  lemma CdIsBound(force: real, scale: real, limit: real)
    requires scale > 0.0
    ensures Cd(force, scale) <= limit <==> -(limit * scale) <= force <= limit * scale
  {
    var x := force / scale;
    var low, high := scale * -limit, scale * limit;
    assert scale * x == force;
    Ordered(scale, x, limit, force, high);
    Ordered(scale, -limit, x, low, force);
    assert limit * scale == high && -high == low;
  }

  lemma Ordered(w: real, a: real, b: real, wa: real, wb: real)
    requires w > 0.0 && wa == w * a && wb == w * b
    ensures a <= b <==> wa <= wb
  {
    if a <= b {
      Weighted(w, a, b, wa, wb);
    } else {
      Weighted(w, b, a, wb, wa);
    }
  }

  lemma BlendWithinGate(scale: real, old_: real, raw: real, alpha: real)
    requires scale > 0.0 && 0.0 <= alpha <= 1.0
    requires Cd(old_, scale) <= APPLIED_CD_LIMIT && Cd(raw, scale) <= RAW_CD_LIMIT
    ensures Cd(Blend(old_, raw, alpha), scale) <= APPLIED_CD_LIMIT
  {
    hide Cd, Blend;
    CdIsBound(old_, scale, 10.0);
    CdIsBound(raw, scale, 10.0);
    BlendBetween(-(10.0 * scale), 10.0 * scale, old_, raw, alpha);
    CdIsBound(Blend(old_, raw, alpha), scale, 10.0);
  }

  /** Inside the gate only the raw gate can fire, and an accepted load stays inside. */
  lemma {:induction false} OnlyRawGate(c: Settings, old_: Rows, raw: Rows, alpha: real, i: nat)
    requires c.Valid() && ThreeByThree(old_) && ThreeByThree(raw) && i <= 3 && 0.0 <= alpha <= 1.0
      && WithinGate(c, old_)
    ensures var e := GateError(c, old_, raw, alpha, i);
      && (e.Some? ==> e.value.RawGate?)
      && (e.None? ==> forall k :: i <= k < 3 ==> Cd(Blended(old_, raw, alpha)[k][0], c.scales[k]) <= APPLIED_CD_LIMIT)
    decreases 3 - i
  {
    hide Cd, Blend;
    if i < 3 && Cd(raw[i][0], c.scales[i]) <= RAW_CD_LIMIT {
      BlendWithinGate(c.scales[i], old_[i][0], raw[i][0], alpha);
      OnlyRawGate(c, old_, raw, alpha, i + 1);
    }
  }

  ghost predicate FilterWithinGate(c: Settings, s: Filter)
    requires ValidFilter(c, s)
  {
    WithinGate(c, s.previous) && (s.pending.Some? ==> WithinGate(c, s.pending.value.applied))
  }

  /** An apply that passes every check up to the gates and is refused by an applied one. */
  predicate Refuses(c: Settings, s: Filter, step: int, time: real, tick: int, raw: Rows)
    requires |c.scales| == 3 && (forall k :: 0 <= k < 3 ==> c.scales[k] > 0.0) && ThreeByThree(s.previous)
  {
    var e := ApplyError(c, s, step, time, tick, raw);
    e.Some? && e.value.AppliedGate?
  }

  /** Over any run that starts inside the gate, no apply is refused by the applied gate. */
  lemma {:induction false} AppliedGateNeverFires(
    c: Settings, s: Filter, ops: seq<Op>, step: int, time: real, tick: int, raw: Rows)
    requires ValidFilter(c, s) && FilterWithinGate(c, s)
    ensures var t := Run(c, s, ops);
      FilterWithinGate(c, t) && !Refuses(c, t, step, time, tick, raw)
    decreases |ops|
  {
    hide Cd, Blended, GateError;
    if ops == [] {
      if s.pending.None? && tick > s.lastTick && ThreeByThree(raw) {
        OnlyRawGate(c, s.previous, raw, Alpha(c, tick - s.lastTick), 0);
      }
    } else {
      match ops[0]
      case Apply(step', time', tick', raw') =>
        if ApplyError(c, s, step', time', tick', raw').None? {
          OnlyRawGate(c, s.previous, raw', Alpha(c, tick' - s.lastTick), 0);
        }
        AppliedGateNeverFires(c, After(c, s, ops[0]), ops[1..], step, time, tick, raw);
      case Commit =>
        AppliedGateNeverFires(c, After(c, s, ops[0]), ops[1..], step, time, tick, raw);
      case Rollback =>
        AppliedGateNeverFires(c, After(c, s, ops[0]), ops[1..], step, time, tick, raw);
    }
  }

  // ----- when the applied gate fires

  predicate AppliedRefused(c: Settings, old_: Rows, raw: Rows, alpha: real)
    requires |c.scales| == 3 && (forall k :: 0 <= k < 3 ==> c.scales[k] > 0.0) && ThreeByThree(old_)
  {
    ThreeByThree(raw) && var e := GateError(c, old_, raw, alpha, 0); e.Some? && e.value.AppliedGate?
  }

  /** Beyond the limit, a raw load at the limit leaves the blended load beyond it. */
  lemma StaysBeyond(scale: real, old_: real, raw: real, alpha: real)
    requires scale > 0.0 && 0.0 < alpha < 1.0 && Cd(old_, scale) > APPLIED_CD_LIMIT
    requires raw == if old_ > 0.0 then 10.0 * scale else -(10.0 * scale)
    ensures Cd(raw, scale) <= RAW_CD_LIMIT && Cd(Blend(old_, raw, alpha), scale) > APPLIED_CD_LIMIT
  {
    hide Cd;
    var v := 1.0 - alpha;
    CdIsBound(old_, scale, 10.0);
    CdIsBound(raw, scale, 10.0);
    CdIsBound(Blend(old_, raw, alpha), scale, 10.0);
    Complement(alpha, raw, v * raw, alpha * raw);
    if old_ > 0.0 {
      Weighted(v, raw, old_, v * raw, v * old_);
    } else {
      Weighted(v, old_, raw, v * old_, v * raw);
    }
  }

  /** No load but on slice `k`, where it is at the limit on the side of the old one. */
  function Provoking(c: Settings, old_: Rows, k: nat): (raw: Rows)
    requires |c.scales| == 3 && ThreeByThree(old_) && k < 3
    ensures ThreeByThree(raw)
    ensures forall j :: 0 <= j < 3 && j != k ==> raw[j][0] == 0.0
    ensures raw[k][0] == if old_[k][0] > 0.0 then 10.0 * c.scales[k] else -(10.0 * c.scales[k])
  {
    var x := if old_[k][0] > 0.0 then 10.0 * c.scales[k] else -(10.0 * c.scales[k]);
    seq(3, j => if j == k then [x, 0.0, 0.0] else [0.0, 0.0, 0.0])
  }

  lemma {:induction false} FiresAt(c: Settings, old_: Rows, alpha: real, k: nat, i: nat)
    requires c.Valid() && ThreeByThree(old_) && i <= k < 3 && 0.0 < alpha < 1.0
    requires Cd(old_[k][0], c.scales[k]) > APPLIED_CD_LIMIT
    requires forall j :: i <= j < k ==> Cd(old_[j][0], c.scales[j]) <= APPLIED_CD_LIMIT
    ensures GateError(c, old_, Provoking(c, old_, k), alpha, i) == Some(AppliedGate(k))
    decreases k - i
  {
    hide Cd, Blend, Provoking;
    var raw := Provoking(c, old_, k);
    if i == k {
      StaysBeyond(c.scales[k], old_[k][0], raw[k][0], alpha);
    } else {
      CdIsBound(0.0, c.scales[i], 10.0);
      BlendWithinGate(c.scales[i], old_[i][0], raw[i][0], alpha);
      FiresAt(c, old_, alpha, k, i + 1);
    }
  }

  lemma FirstBeyond(c: Settings, m: Rows) returns (k: nat)
    requires c.Valid() && ThreeByThree(m) && !WithinGate(c, m)
    ensures k < 3 && Cd(m[k][0], c.scales[k]) > APPLIED_CD_LIMIT
    ensures forall j :: 0 <= j < k ==> Cd(m[j][0], c.scales[j]) <= APPLIED_CD_LIMIT
  {
    hide Cd;
    k := 0;
    while k < 3 && Cd(m[k][0], c.scales[k]) <= APPLIED_CD_LIMIT
      invariant k <= 3 && forall j :: 0 <= j < k ==> Cd(m[j][0], c.scales[j]) <= APPLIED_CD_LIMIT
    {
      k := k + 1;
    }
  }

  /** The applied gate refuses some raw load exactly when the applied load it starts from is beyond the limit. */
  lemma AppliedGateCanFire(c: Settings, old_: Rows, alpha: real)
    requires c.Valid() && ThreeByThree(old_) && 0.0 < alpha < 1.0
    ensures (exists raw :: AppliedRefused(c, old_, raw, alpha)) <==> !WithinGate(c, old_)
  {
    hide Cd, GateError, Provoking;
    if WithinGate(c, old_) {
      forall raw
        ensures !AppliedRefused(c, old_, raw, alpha)
      {
        if ThreeByThree(raw) {
          OnlyRawGate(c, old_, raw, alpha, 0);
        }
      }
    } else {
      var k := FirstBeyond(c, old_);
      FiresAt(c, old_, alpha, k, 0);
      assert AppliedRefused(c, old_, Provoking(c, old_, k), alpha);
    }
  }

  /** A request for the next step that reaches the gates and is refused there by an applied one, after some
      operations. */
  ghost predicate RefusedAfter(c: Settings, s: Filter, ops: seq<Op>, step: int, time: real, tick: int, raw: Rows)
    requires ValidFilter(c, s)
  {
    Refuses(c, Run(c, s, ops), step, time, tick, raw)
  }

  /** Over all runs from any state: the applied gate ever refuses a load exactly when the state starts outside the
      gate. */
  lemma AppliedGateFires(c: Settings, s: Filter)
    requires ValidFilter(c, s)
    ensures (exists ops, step, time, tick, raw :: RefusedAfter(c, s, ops, step, time, tick, raw)) <==>
      !FilterWithinGate(c, s)
  {
    if FilterWithinGate(c, s) {
      forall ops, step, time, tick, raw
        ensures !RefusedAfter(c, s, ops, step, time, tick, raw)
      {
        AppliedGateNeverFires(c, s, ops, step, time, tick, raw);
      }
    } else {
      hide GateError, Blended, Provoking, Cd;
      var ops := if s.pending.None? then [] else if WithinGate(c, s.previous) then [Commit] else [Rollback];
      var t := Run(c, s, ops);
      assert ops != [] ==> Run(c, After(c, s, ops[0]), ops[1..]) == After(c, s, ops[0]);
      var k := FirstBeyond(c, t.previous);
      var tick := t.lastTick + 1;
      FiresAt(c, t.previous, Alpha(c, 1), k, 0);
      assert RefusedAfter(c, s, ops, t.lastStep + 1, tick as real / TICK_HZ as real, tick, Provoking(c, t.previous, k));
    }
  }

  // ----- decays exist

  ghost function HalfTo(n: nat): real {
    if n == 0 then 1.0 else 0.5 * HalfTo(n - 1)
  }

  ghost function HalfPower(d: int): real {
    if d <= 0 then 1.0 else HalfTo(d)
  }

  lemma {:induction false} HalfToSplits(a: nat, b: nat)
    ensures HalfTo(a + b) == HalfTo(a) * HalfTo(b)
  {
    if a > 0 {
      HalfToSplits(a - 1, b);
      var x, y := HalfTo(a - 1), HalfTo(b);
      assert HalfTo(a + b) == 0.5 * HalfTo(a - 1 + b);
      assert 0.5 * (x * y) == (0.5 * x) * y;
    }
  }

  lemma {:induction false} HalfToBounds(n: nat)
    ensures 0.0 < HalfTo(n) <= 1.0 && (n > 0 ==> HalfTo(n) < 1.0)
  {
    if n > 0 {
      HalfToBounds(n - 1);
    }
  }

  /** The assumption on the decay can be met. */
  lemma DecayExists()
    ensures IsDecay(HalfPower)
  {
    hide HalfTo;
    forall a: int, b: int
      ensures SplitsAt(HalfPower, a, b)
    {
      if a > 0 && b > 0 {
        HalfToSplits(a, b);
      }
    }
    forall d: int | d > 0
      ensures 0.0 < HalfPower(d) < 1.0
    {
      HalfToBounds(d);
    }
  }

  // ----- the checks in numbers

  /** A coefficient within ten is a force within ten times the scale. */
  lemma GateInNumbers(force: real, scale: real)
    requires scale > 0.0
    ensures Cd(force, scale) <= 10.0 <==> -(10.0 * scale) <= force <= 10.0 * scale
  {
    Divided(force, scale);
    GateTerms(force / scale, force, scale);
  }

  lemma GateTerms(c: real, force: real, scale: real)
    requires scale > 0.0 && scale * c == force
    ensures Abs(c) <= 10.0 <==> -(10.0 * scale) <= force <= 10.0 * scale
  {
    assert c <= 10.0 ==> scale * (10.0 - c) >= 0.0;
    assert c > 10.0 ==> scale * (c - 10.0) > 0.0;
    assert c >= -10.0 ==> scale * (c + 10.0) >= 0.0;
    assert c < -10.0 ==> scale * (c + 10.0) < 0.0;
  }

  /** The in-line force of slice `i` and what the filter would make of it stay within ten times the scale. */
  ghost predicate InGates(c: Settings, old_: Rows, raw: Rows, alpha: real, i: nat)
    requires |c.scales| == 3 && ThreeByThree(old_) && ThreeByThree(raw) && i < 3
  {
    && -(10.0 * c.scales[i]) <= raw[i][0] <= 10.0 * c.scales[i]
    && -(10.0 * c.scales[i]) <= (1.0 - alpha) * old_[i][0] + alpha * raw[i][0] <= 10.0 * c.scales[i]
  }

  lemma {:induction false} GatesInNumbers(c: Settings, old_: Rows, raw: Rows, alpha: real, i: nat)
    requires |c.scales| == 3 && (forall k :: 0 <= k < 3 ==> c.scales[k] > 0.0)
    requires ThreeByThree(old_) && ThreeByThree(raw) && i <= 3
    ensures GateError(c, old_, raw, alpha, i).None? <==> GatesFrom(c, old_, raw, alpha, i)
    decreases 3 - i
  {
    if i < 3 {
      GatesInNumbers(c, old_, raw, alpha, i + 1);
      OneGate(c, old_, raw, alpha, i);
      hide Cd, Blend, InGates, ThreeByThree;
    }
  }

  ghost predicate GatesFrom(c: Settings, old_: Rows, raw: Rows, alpha: real, i: nat)
    requires |c.scales| == 3 && ThreeByThree(old_) && ThreeByThree(raw)
  {
    forall k: nat :: i <= k < 3 ==> InGates(c, old_, raw, alpha, k)
  }

  lemma OneGate(c: Settings, old_: Rows, raw: Rows, alpha: real, i: nat)
    requires |c.scales| == 3 && i < 3 && c.scales[i] > 0.0 && ThreeByThree(old_) && ThreeByThree(raw)
    ensures InGates(c, old_, raw, alpha, i)
      <==> Cd(raw[i][0], c.scales[i]) <= 10.0 && Cd(Blend(old_[i][0], raw[i][0], alpha), c.scales[i]) <= 10.0
  {
    GateInNumbers(raw[i][0], c.scales[i]);
    GateInNumbers(Blend(old_[i][0], raw[i][0], alpha), c.scales[i]);
    hide Cd;
  }

  /** A raw load is taken exactly when nothing is staged, step and tick follow on, the time is the tick's to half a
      picosecond, there are three forces of three components, and every slice stays in its gates. */
  lemma AppliesInNumbers(c: Settings, s: Filter, step: int, time: real, tick: int, raw: Rows)
    requires ValidFilter(c, s)
    ensures ApplyError(c, s, step, time, tick, raw).None? <==>
      && s.pending == None && step == s.lastStep + 1 && tick > s.lastTick
      && -5.0e-13 <= time - tick as real / 1.0e9 <= 5.0e-13 && ThreeByThree(raw)
      && var alpha := 1.0 - c.decay(tick - s.lastTick);
         && InGates(c, s.previous, raw, alpha, 0) && InGates(c, s.previous, raw, alpha, 1)
         && InGates(c, s.previous, raw, alpha, 2)
  {
    hide InGates, GateError, IsDecay;
    if ThreeByThree(raw) {
      GatesInNumbers(c, s.previous, raw, Alpha(c, tick - s.lastTick), 0);
    }
  }
}
