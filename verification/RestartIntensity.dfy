/** The sliding window that limits how often a supervisor may restart its children. */
module RestartWindow {

  /** The number of restarts is compared after a cast to 32 bits. */
  const U32: nat := 0x1_0000_0000

  datatype Strategy = OneForOne | OneForAll | RestForOne

  datatype Flags = Flags(strategy: Strategy, intensity: nat, period: nat)

  predicate WithinPeriod(start: nat, now: nat, period: nat) {
    start <= now && now - start <= period
  }

  /** Without the leading entries that are out of the period. */
  function DropOld(restarts: seq<nat>, now: nat, period: nat): seq<nat> {
    if restarts == [] || WithinPeriod(restarts[0], now, period) then restarts
    else DropOld(restarts[1..], now, period)
  }

  predicate Permits(restarts: seq<nat>, flags: Flags) { |restarts| % U32 <= flags.intensity }

  class RestartIntensity {
    var flags: Flags
    var restarts: seq<nat>

    constructor (flags: Flags)
      ensures this.flags == flags && restarts == []
    {
      this.flags := flags;
      restarts := [];
    }

    method Prune(now: nat)
      modifies `restarts
      ensures restarts == DropOld(old(restarts), now, flags.period)
    {
      while restarts != []
        invariant DropOld(restarts, now, flags.period) == DropOld(old(restarts), now, flags.period)
        decreases |restarts|
      {
        if WithinPeriod(restarts[0], now, flags.period) {
          break;
        }
        restarts := restarts[1..];
      }
    }

    method RecordRestart(now: nat) returns (allowed: bool)
      modifies `restarts
      ensures restarts == After(old(restarts), Record(now), flags.period)
      ensures allowed == Permits(restarts, flags)
    {
      Prune(now);
      restarts := restarts + [now];
      return |restarts| % U32 <= flags.intensity;
    }

    method ActiveRestarts(now: nat) returns (count: nat)
      modifies `restarts
      ensures restarts == After(old(restarts), Observe(now), flags.period) && count == |restarts|
    {
      Prune(now);
      return |restarts|;
    }

    /** New limits, the same window. */
    method Reconfigure(flags: Flags, now: nat)
      modifies this
      ensures this.flags == flags && restarts == DropOld(old(restarts), now, flags.period)
    {
      this.flags := flags;
      Prune(now);
    }
  }

  // ------------------------------------------------------------------ runs

  datatype Op = Record(now: nat) | Observe(now: nat)

  function After(restarts: seq<nat>, op: Op, period: nat): seq<nat> {
    var kept := DropOld(restarts, op.now, period);
    if op.Record? then kept + [op.now] else kept
  }

  function RunOps(ops: seq<Op>, period: nat): seq<nat> {
    if ops == [] then [] else After(RunOps(ops[..|ops| - 1], period), ops[|ops| - 1], period)
  }

  /** Every time a restart was recorded, allowed or not. */
  function Recorded(ops: seq<Op>): seq<nat> {
    if ops == [] then []
    else
      var before := Recorded(ops[..|ops| - 1]);
      var last := ops[|ops| - 1];
      if last.Record? then before + [last.now] else before
  }

  /** The entries that are no earlier than `floor`. */
  function Since(times: seq<nat>, floor: int): seq<nat> {
    if times == [] then []
    else
      var before := Since(times[..|times| - 1], floor);
      var last := times[|times| - 1];
      if last >= floor then before + [last] else before
  }

  ghost predicate Clocked(ops: seq<Op>) {
    forall i, j :: 0 <= i < j < |ops| ==> ops[i].now <= ops[j].now
  }

  ghost predicate Sorted(s: seq<nat>) {
    forall i, j :: 0 <= i < j < |s| ==> s[i] <= s[j]
  }

  lemma {:induction false} RecordedIsSorted(ops: seq<Op>)
    requires Clocked(ops)
    ensures Sorted(Recorded(ops)) && |Recorded(ops)| <= |ops|
    ensures forall x :: x in Recorded(ops) ==> x <= ops[|ops| - 1].now
  {
    if ops != [] {
      var front := ops[..|ops| - 1];
      RecordedIsSorted(front);
      assert forall i :: 0 <= i < |Recorded(front)| ==> Recorded(front)[i] in Recorded(front);
      assert front != [] ==> front[|front| - 1].now <= ops[|ops| - 1].now;
    }
  }

  lemma {:induction false} SinceKeeps(times: seq<nat>, floor: int)
    ensures forall x :: x in Since(times, floor) ==> x in times && x >= floor
    ensures Sorted(times) ==> Sorted(Since(times, floor))
    ensures |Since(times, floor)| <= |times|
  {
    if times != [] {
      var front := times[..|times| - 1];
      SinceKeeps(front, floor);
      assert forall i :: 0 <= i < |Since(front, floor)| ==> Since(front, floor)[i] in front;
    }
  }

  lemma {:induction false} SinceSince(times: seq<nat>, low: int, high: int)
    requires low <= high
    ensures Since(Since(times, low), high) == Since(times, high)
  {
    if times != [] {
      var s := Since(times[..|times| - 1], low);
      SinceSince(times[..|times| - 1], low, high);
      assert (s + [times[|times| - 1]])[..|s|] == s;
    }
  }

  lemma {:induction false} SinceEverything(times: seq<nat>, floor: int)
    requires forall i :: 0 <= i < |times| ==> times[i] >= floor
    ensures Since(times, floor) == times
  {
    if times != [] { SinceEverything(times[..|times| - 1], floor); }
  }

  lemma {:induction false} SinceDropsHead(times: seq<nat>, floor: int)
    requires times != [] && times[0] < floor
    ensures Since(times, floor) == Since(times[1..], floor)
  {
    if |times| > 1 {
      var front := times[..|times| - 1];
      SinceDropsHead(front, floor);
      assert times[1..][..|times| - 2] == front[1..];
    }
  }

  /** On sorted times dropping the old prefix is filtering. */
  lemma {:induction false} DropOldIsSince(times: seq<nat>, now: nat, period: nat)
    requires Sorted(times) && forall x :: x in times ==> x <= now
    ensures DropOld(times, now, period) == Since(times, now - period)
    decreases |times|
  {
    if times == [] {
    } else if WithinPeriod(times[0], now, period) {
      SinceEverything(times, now - period);
    } else {
      assert times[0] in times && forall x :: x in times[1..] ==> x in times;
      DropOldIsSince(times[1..], now, period);
      SinceDropsHead(times, now - period);
    }
  }

  /** With a clock that does not go back, the window holds exactly what was recorded in the last period. */
  lemma {:induction false} WindowIsExact(ops: seq<Op>, period: nat)
    requires Clocked(ops) && ops != []
    ensures RunOps(ops, period) == Since(Recorded(ops), ops[|ops| - 1].now - period)
    decreases |ops|
  {
    var front := ops[..|ops| - 1];
    var op := ops[|ops| - 1];
    var r := Recorded(front);
    RecordedIsSorted(front);
    SinceAppend(r, op.now, op.now - period);
    if front != [] {
      WindowIsExact(front, period);
      assert front[|front| - 1].now <= op.now;
      WindowMoves(r, front[|front| - 1].now, op.now, period);
    }
    assert DropOld(RunOps(front, period), op.now, period) == Since(r, op.now - period);
    hide RunOps, Recorded, Since, DropOld, Sorted;
    LastOp(ops, period);
  }

  lemma LastOp(ops: seq<Op>, period: nat)
    requires ops != []
    ensures var op := ops[|ops| - 1];
      && RunOps(ops, period) == After(RunOps(ops[..|ops| - 1], period), op, period)
      && Recorded(ops) == if op.Record? then Recorded(ops[..|ops| - 1]) + [op.now] else Recorded(ops[..|ops| - 1])
  {
  }

  lemma SinceAppend(times: seq<nat>, last: nat, floor: int)
    ensures Since(times + [last], floor) == if last >= floor then Since(times, floor) + [last] else Since(times, floor)
  {
    assert (times + [last])[..|times|] == times;
  }

  /** Dropping what has become too old takes the window from one time to a later one. */
  lemma WindowMoves(times: seq<nat>, before: nat, now: nat, period: nat)
    requires Sorted(times) && (forall x :: x in times ==> x <= before) && before <= now
    ensures DropOld(Since(times, before - period), now, period) == Since(times, now - period)
  {
    var window := Since(times, before - period);
    SinceKeeps(times, before - period);
    hide Sorted, Since, DropOld;
    DropOldIsSince(window, now, period);
    SinceSince(times, before - period, now - period);
  }

  predicate Allowed(ops: seq<Op>, flags: Flags) {
    ops != [] && ops[|ops| - 1].Record? && Permits(RunOps(ops, flags.period), flags)
  }

  /** How many restarts with a time in `[from, from + period]` were allowed. */
  function AllowedWithin(ops: seq<Op>, flags: Flags, from: nat): nat {
    if ops == [] then 0
    else
      var before := AllowedWithin(ops[..|ops| - 1], flags, from);
      if Allowed(ops, flags) && from <= ops[|ops| - 1].now <= from + flags.period then before + 1 else before
  }

  lemma {:induction false} AllowedWereRecorded(ops: seq<Op>, flags: Flags, from: nat, floor: int)
    requires floor <= from
    ensures AllowedWithin(ops, flags, from) <= |Since(Recorded(ops), floor)|
  {
    if ops != [] {
      AllowedWereRecorded(ops[..|ops| - 1], flags, from, floor);
      var r := Recorded(ops[..|ops| - 1]);
      assert (r + [ops[|ops| - 1].now])[..|r|] == r;
    }
  }

  /** The window never holds as many entries as 32 bits can count. */
  ghost predicate NeverWraps(ops: seq<Op>, period: nat) {
    forall i :: 0 <= i <= |ops| ==> |RunOps(ops[..i], period)| < U32
  }

  /**
   * No closed window of one period, wherever it starts, holds more allowed restarts than the
   * intensity, as long as the count fits the 32 bits it is cast to.
   */
  lemma {:induction false} NoWindowExceedsIntensity(ops: seq<Op>, flags: Flags, from: nat)
    requires Clocked(ops) && NeverWraps(ops, flags.period)
    ensures AllowedWithin(ops, flags, from) <= flags.intensity
    decreases |ops|
  {
    if ops != [] {
      var now := ops[|ops| - 1].now;
      if Allowed(ops, flags) && from <= now <= from + flags.period {
        AllowedWereRecorded(ops, flags, from, now - flags.period);
        WindowIsExact(ops, flags.period);
        assert ops[..|ops|] == ops;
      } else {
        var front := ops[..|ops| - 1];
        assert forall i :: 0 <= i <= |front| ==> front[..i] == ops[..i];
        NoWindowExceedsIntensity(front, flags, from);
      }
    }
  }

  /** A restart is refused exactly when too many fall into the last period, as counted modulo 2^32. */
  lemma RefusedExactly(ops: seq<Op>, flags: Flags, now: nat)
    requires Clocked(ops + [Record(now)])
    ensures Allowed(ops + [Record(now)], flags)
      <==> |Since(Recorded(ops) + [now], now - flags.period)| % U32 <= flags.intensity
  {
    hide RunOps, Since, Clocked;
    var all := ops + [Record(now)];
    assert all[..|ops|] == ops;
    WindowIsExact(all, flags.period);
  }

  /** Recordings at one and the same time all stay in the window. */
  lemma {:induction false} AtOnce(n: nat)
    ensures RunOps(seq(n, i => Record(0)), 0) == seq(n, i => 0)
  {
    if n > 0 {
      assert seq(n, i => Record(0))[..n - 1] == seq(n - 1, i => Record(0));
      AtOnce(n - 1);
      assert seq(n - 1, i => 0) + [0] == seq(n, i => 0);
    }
  }

  /** The cast does matter: after 2^32 restarts at one instant, even an intensity of zero permits one. */
  lemma CastWrapsAround()
    ensures var ops := seq(U32, i => Record(0));
      Clocked(ops) && Allowed(ops, Flags(OneForOne, 0, 0)) && |RunOps(ops, 0)| == U32
  {
    AtOnce(U32);
    hide RunOps;
  }
}
