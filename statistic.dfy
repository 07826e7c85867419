/** The `statistic` record, its field-wise `+=`, and the scoped accumulator `auto_duration`.
    Durations are integer clock ticks and instants are integer times. `full` is the build mode
    `ASCS_FULL_STATISTIC`: without it every duration is a dummy that stays zero and `+=` on it
    does nothing. */
module Stats {

  /** The seven duration accumulators. */
  datatype DurationField =
    | SendDelay | SendTime | PackTime
    | DispatchDelay | RecvIdle | HandleTime | UnpackTime

  /** A snapshot of every field of a `statistic`. */
  datatype Figures = Figures(
    sendMsgSum: nat, sendByteSum: nat,
    sendDelaySum: int, sendTimeSum: int, packTimeSum: int,
    recvMsgSum: nat, recvByteSum: nat,
    dispatchDelaySum: int, recvIdleSum: int, handleTimeSum: int, unpackTimeSum: int,
    lastSendTime: int, lastRecvTime: int, establishTime: int, breakTime: int)
  {
    function Duration(f: DurationField): int
    {
      match f
      case SendDelay => sendDelaySum
      case SendTime => sendTimeSum
      case PackTime => packTimeSum
      case DispatchDelay => dispatchDelaySum
      case RecvIdle => recvIdleSum
      case HandleTime => handleTimeSum
      case UnpackTime => unpackTimeSum
    }

    /** Adds `d` to one duration and leaves every other field as it is. */
    function AddDuration(f: DurationField, d: int): (r: Figures)
      ensures r.Duration(f) == Duration(f) + d
      ensures forall g :: g != f ==> r.Duration(g) == Duration(g)
      ensures r.Counters() == Counters() && r.Times() == Times()
    {
      match f
      case SendDelay => this.(sendDelaySum := sendDelaySum + d)
      case SendTime => this.(sendTimeSum := sendTimeSum + d)
      case PackTime => this.(packTimeSum := packTimeSum + d)
      case DispatchDelay => this.(dispatchDelaySum := dispatchDelaySum + d)
      case RecvIdle => this.(recvIdleSum := recvIdleSum + d)
      case HandleTime => this.(handleTimeSum := handleTimeSum + d)
      case UnpackTime => this.(unpackTimeSum := unpackTimeSum + d)
    }

    /** The four message and byte counters. */
    function Counters(): seq<nat>
    {
      [sendMsgSum, sendByteSum, recvMsgSum, recvByteSum]
    }

    /** The four instants. */
    function Times(): seq<int>
    {
      [lastSendTime, lastRecvTime, establishTime, breakTime]
    }

    predicate DurationsZero()
    {
      && sendDelaySum == 0 && sendTimeSum == 0 && packTimeSum == 0
      && dispatchDelaySum == 0 && recvIdleSum == 0 && handleTimeSum == 0 && unpackTimeSum == 0
    }
  }

  /** `reset_number()` on a snapshot: the four counters and the four instants become zero. */
  function ResetNumbers(a: Figures): (r: Figures)
    ensures r.Counters() == [0, 0, 0, 0] && r.Times() == [0, 0, 0, 0]
    ensures forall f :: r.Duration(f) == a.Duration(f)
  {
    a.(sendMsgSum := 0, sendByteSum := 0, recvMsgSum := 0, recvByteSum := 0,
       lastSendTime := 0, lastRecvTime := 0, establishTime := 0, breakTime := 0)
  }

  /** `a += b` on snapshots: counters and durations add field-wise; instants stay `a`'s. */
  function Plus(a: Figures, b: Figures): (r: Figures)
    ensures forall i :: 0 <= i < 4 ==> r.Counters()[i] == a.Counters()[i] + b.Counters()[i]
    ensures forall f :: r.Duration(f) == a.Duration(f) + b.Duration(f)
    ensures r.Times() == a.Times()
  {
    a.(sendMsgSum := a.sendMsgSum + b.sendMsgSum,
       sendByteSum := a.sendByteSum + b.sendByteSum,
       sendDelaySum := a.sendDelaySum + b.sendDelaySum,
       sendTimeSum := a.sendTimeSum + b.sendTimeSum,
       packTimeSum := a.packTimeSum + b.packTimeSum,
       recvMsgSum := a.recvMsgSum + b.recvMsgSum,
       recvByteSum := a.recvByteSum + b.recvByteSum,
       dispatchDelaySum := a.dispatchDelaySum + b.dispatchDelaySum,
       recvIdleSum := a.recvIdleSum + b.recvIdleSum,
       handleTimeSum := a.handleTimeSum + b.handleTimeSum,
       unpackTimeSum := a.unpackTimeSum + b.unpackTimeSum)
  }

  /** Summing the statistics of a pool of endpoints does not depend on how the sums are grouped. */
  lemma PlusAssociative(a: Figures, b: Figures, c: Figures)
    ensures Plus(Plus(a, b), c) == Plus(a, Plus(b, c))
  {
  }

  /** Adding a record whose counters and durations are all zero changes nothing. */
  lemma PlusZero(a: Figures, z: Figures)
    requires z.Counters() == [0, 0, 0, 0] && z.DurationsZero()
    ensures Plus(a, z) == a
  {
  }

  class Statistic {
    const full: bool
    var sendMsgSum: nat
    var sendByteSum: nat
    var sendDelaySum: int
    var sendTimeSum: int
    var packTimeSum: int
    var recvMsgSum: nat
    var recvByteSum: nat
    var dispatchDelaySum: int
    var recvIdleSum: int
    var handleTimeSum: int
    var unpackTimeSum: int
    var lastSendTime: int
    var lastRecvTime: int
    var establishTime: int
    var breakTime: int

    function Value(): Figures
      reads this
    {
      Figures(sendMsgSum, sendByteSum, sendDelaySum, sendTimeSum, packTimeSum,
              recvMsgSum, recvByteSum, dispatchDelaySum, recvIdleSum, handleTimeSum, unpackTimeSum,
              lastSendTime, lastRecvTime, establishTime, breakTime)
    }

    /** Without full statistics the durations are dummies, modelled as fixed at zero. */
    ghost predicate Valid()
      reads this
    {
      !full ==> Value().DurationsZero()
    }

    /** Sets every field from a snapshot. */
    method Assign(v: Figures)
      modifies this
      ensures Value() == v
    {
      sendMsgSum, sendByteSum := v.sendMsgSum, v.sendByteSum;
      sendDelaySum, sendTimeSum, packTimeSum := v.sendDelaySum, v.sendTimeSum, v.packTimeSum;
      recvMsgSum, recvByteSum := v.recvMsgSum, v.recvByteSum;
      dispatchDelaySum, recvIdleSum := v.dispatchDelaySum, v.recvIdleSum;
      handleTimeSum, unpackTimeSum := v.handleTimeSum, v.unpackTimeSum;
      lastSendTime, lastRecvTime := v.lastSendTime, v.lastRecvTime;
      establishTime, breakTime := v.establishTime, v.breakTime;
    }

    /** `statistic()`: `reset()`, so everything starts at zero. */
    constructor (full: bool)
      ensures this.full == full && Valid()
      ensures Value().Counters() == [0, 0, 0, 0] && Value().Times() == [0, 0, 0, 0]
      ensures Value().DurationsZero()
    {
      this.full := full;
      new;
      Assign(Figures(0, 0, 0, 0, 0, 0, 0, 0, 0, 0, 0, 0, 0, 0, 0));
    }

    /** `reset_number()`: zeroes the four counters and the four instants. */
    method ResetNumber()
      requires Valid()
      modifies this
      ensures Valid()
      ensures Value() == ResetNumbers(old(Value()))
    {
      sendMsgSum, sendByteSum := 0, 0;
      recvMsgSum, recvByteSum := 0, 0;
      lastSendTime, lastRecvTime := 0, 0;
      establishTime, breakTime := 0, 0;
    }

    /** `reset_duration()` (only built with full statistics): zeroes the seven durations. */
    method ResetDuration()
      requires full
      modifies this
      ensures Valid()
      ensures Value().DurationsZero()
      ensures Value().Counters() == old(Value().Counters()) && Value().Times() == old(Value().Times())
    {
      sendDelaySum, sendTimeSum, packTimeSum := 0, 0, 0;
      dispatchDelaySum, recvIdleSum := 0, 0;
      handleTimeSum := 0;
      unpackTimeSum := 0;
    }

    /** `reset()`: `reset_number()`, plus `reset_duration()` with full statistics. */
    method Reset()
      requires Valid()
      modifies this
      ensures Valid()
      ensures Value().Counters() == [0, 0, 0, 0] && Value().Times() == [0, 0, 0, 0]
      ensures Value().DurationsZero()
    {
      ResetNumber();
      if full {
        ResetDuration();
      }
    }

    /** `operator+=(other)`: adds the four counters and the seven durations field-wise and keeps
        this record's instants. `other` may be this record itself. */
    method AddAssign(other: Statistic)
      requires Valid() && other.Valid() && other.full == full
      modifies this
      ensures Valid()
      ensures Value() == Plus(old(Value()), old(other.Value()))
    {
      // every field reads its own old value before it is written, so a snapshot of both
      // records gives the same result, also when `other` is this record
      var mine, theirs := Value(), other.Value();
      Assign(Plus(mine, theirs));
    }

    /** `duration += d` on one accumulator; a dummy duration ignores it. */
    method AddToDuration(f: DurationField, d: int)
      requires Valid()
      modifies this
      ensures Valid()
      ensures Value() == if full then old(Value()).AddDuration(f, d) else old(Value())
    {
      if full {
        Assign(Value().AddDuration(f, d));
      }
    }
  }

  /** `auto_duration`: records a start instant and, on `end()` or destruction, adds the elapsed
      time to one accumulator of a statistic, once. The clock reading is a parameter. */
  class AutoDuration {
    var started: bool
    const beginTime: int
    const stat: Statistic
    const field: DurationField

    /** `auto_duration(duration)` at clock reading `now` (a dummy reading without full
        statistics). */
    constructor (stat: Statistic, field: DurationField, now: int)
      ensures started && this.stat == stat && this.field == field
      ensures beginTime == if stat.full then now else 0
    {
      this.stat, this.field := stat, field;
      beginTime := if stat.full then now else 0;
      started := true;
    }

    /** `end()` at clock reading `now`: the first call adds `now - begin_time`; later calls
        (and the destructor after one) add nothing. */
    method End(now: int)
      requires stat.Valid()
      modifies this, stat
      ensures stat.Valid() && !started
      ensures stat.Value() == if old(started) && stat.full
                              then old(stat.Value()).AddDuration(field, now - beginTime)
                              else old(stat.Value())
    {
      if started {
        stat.AddToDuration(field, if stat.full then now - beginTime else 0);
      }
      started := false;
    }

    /** `~auto_duration()`: `end()`. */
    method Destroy(now: int)
      requires stat.Valid()
      modifies this, stat
      ensures stat.Valid() && !started
      ensures stat.Value() == if old(started) && stat.full
                              then old(stat.Value()).AddDuration(field, now - beginTime)
                              else old(stat.Value())
    {
      End(now);
    }
  }
}
