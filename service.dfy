/**
 * The lane state machine of the vehicle-counting engine. One `Service` is
 * built per incoming counting event from the lane's persisted record; it
 * sequences the event through the Reset, Single, Repeat, Both and Timeout
 * transitions and reports each result through its completion callback.
 *
 * The first half of the module states every transition as a function on a
 * `Machine`, a value holding all of a service's fields; the class `Service`
 * at the end updates its fields step by step and each of its methods is
 * proved to leave exactly the `Machine` the corresponding function gives.
 * The lemmas in between state what those transitions promise.
 *
 * The debounce timer is an `armed` flag together with the sensor position
 * its closure captured; firing it is the explicit step `Fire`. The values
 * passed to the callback are the sequence `replies`.
 */
module LaneService {
  import opened Wrappers
  import CountingAlgorithm

  /** Seconds to wait when the lane record has no numeric timeout. */
  const DefaultTimeout: real := 10.0

  /** The counter value a sensor reports after a reboot or recalibration. */
  const ResetSentinel: int := 128

  /** One observation of a sensor; `null` until the first one is stored. */
  datatype Reading = Reading(count: Option<int>)

  /** The persisted bookkeeping of the sensor at one end of the lane. */
  datatype SensorState = SensorState(
    id: string,
    seen: bool,
    previous: Reading,
    current: Reading,
    inactive: Option<int>,
    prevChange: Option<int>)

  /** The `state` part of a lane record; either position may be missing. */
  datatype StoredState = StoredState(front: Option<SensorState>, back: Option<SensorState>)

  /** The lane record a service is built from. `timeout` is `None` when it is not a number. */
  datatype LaneInfo = LaneInfo(
    id: string,
    timeout: Option<real>,
    count: int,
    frontId: string,
    backId: string,
    state: Option<StoredState>)

  /** A normalized counting event. */
  datatype EventReceived = EventReceived(sensorId: string, count: int)

  /** What the completion callback receives; `change` is `None` while undefined. */
  datatype Reply = Reply(id: string, count: int, change: Option<int>, front: SensorState, back: SensorState)

  /** All fields of a service. */
  datatype Machine = Machine(
    laneId: string,
    timeoutInterval: real,
    totalCount: int,
    totalChange: Option<int>,
    front: SensorState,
    back: SensorState,
    armed: bool,
    timerFront: bool,
    replies: seq<Reply>)

  // ---------------------------------------------------------------------
  // Helpers of Service.js

  function LowerChar(c: char): char {
    if 'A' <= c <= 'Z' then (c as int + 32) as char else c
  }

  function Lower(s: string): string {
    seq(|s|, i requires 0 <= i < |s| => LowerChar(s[i]))
  }

  /** Case-insensitive equality of sensor ids (stringCompare). */
  function StringCompare(x: string, y: string): (same: bool)
    ensures same <==> |x| == |y| && forall i | 0 <= i < |x| :: LowerChar(x[i]) == LowerChar(y[i])
    ensures x == y ==> same
  {
    assert (|x| == |y| && forall i | 0 <= i < |x| :: LowerChar(x[i]) == LowerChar(y[i])) <==> Lower(x) == Lower(y) by {
      if |x| == |y| {
        assert forall i | 0 <= i < |x| :: Lower(x)[i] == LowerChar(x[i]) && Lower(y)[i] == LowerChar(y[i]);
        assert (forall i | 0 <= i < |x| :: LowerChar(x[i]) == LowerChar(y[i]))
          <==> (forall i | 0 <= i < |x| :: Lower(x)[i] == Lower(y)[i]);
      }
    }
    Lower(x) == Lower(y)
  }

  /** The state of a sensor position before anything was observed (initialState). */
  function InitialState(id: string): (s: SensorState)
    ensures s.id == id && !s.seen
    ensures s.previous.count == None && s.current.count == None
    ensures s.inactive == Some(0) && s.prevChange == Some(0)
  {
    SensorState(id, false, Reading(None), Reading(None), Some(0), Some(0))
  }

  /** A stored number, or 0 when it is not set (numberValue). */
  function NumberValue(v: Option<int>): (n: int)
    ensures v.Some? ==> n == v.value
    ensures v.None? ==> n == 0
  {
    v.GetOr(0)
  }

  /**
   * The state a position starts from: the stored one when there is one whose
   * id matches the configured sensor, otherwise a fresh initial state.
   */
  function StartState(stored: Option<SensorState>, id: string): (s: SensorState)
    ensures StringCompare(s.id, id)
    ensures stored.Some? && StringCompare(stored.value.id, id) ==> s == stored.value
    ensures !(stored.Some? && StringCompare(stored.value.id, id)) ==> s == InitialState(id)
  {
    if stored.Some? && StringCompare(stored.value.id, id) then stored.value else InitialState(id)
  }

  function StoredFront(info: LaneInfo): Option<SensorState> {
    if info.state.None? then None else info.state.value.front
  }

  function StoredBack(info: LaneInfo): Option<SensorState> {
    if info.state.None? then None else info.state.value.back
  }

  /** A freshly constructed service (the constructor). */
  function Initial(info: LaneInfo): (m: Machine)
    ensures m.laneId == info.id && m.totalCount == info.count
    ensures m.timeoutInterval == (if info.timeout.Some? then info.timeout.value else DefaultTimeout)
    ensures StringCompare(m.front.id, info.frontId) && StringCompare(m.back.id, info.backId)
    ensures m.front == StartState(StoredFront(info), info.frontId)
    ensures m.back == StartState(StoredBack(info), info.backId)
    ensures m.totalChange == None && !m.armed && m.replies == []
  {
    Machine(info.id, info.timeout.GetOr(DefaultTimeout), info.count, None,
            StartState(StoredFront(info), info.frontId),
            StartState(StoredBack(info), info.backId),
            false, false, [])
  }

  // ---------------------------------------------------------------------
  // The transitions, as functions of the service's fields

  function GetState(m: Machine, isFront: bool): SensorState {
    if isFront then m.front else m.back
  }

  function SetState(m: Machine, isFront: bool, s: SensorState): (m': Machine)
    ensures m'.laneId == m.laneId && m'.timeoutInterval == m.timeoutInterval && m'.replies == m.replies
  {
    if isFront then m.(front := s) else m.(back := s)
  }

  /** previous := current, current := the new reading (updateState). */
  function Rolled(m: Machine, isFront: bool, r: Reading): (m': Machine)
    ensures m'.laneId == m.laneId && m'.timeoutInterval == m.timeoutInterval && m'.replies == m.replies
  {
    var s := GetState(m, isFront);
    SetState(m, isFront, s.(previous := s.current, current := r))
  }

  /** What the delta algorithm is given about one sensor. */
  function Input(s: SensorState): CountingAlgorithm.Sensor {
    CountingAlgorithm.Sensor(NumberValue(s.current.count), NumberValue(s.previous.count),
                             NumberValue(s.inactive), NumberValue(s.prevChange))
  }

  /** One reconciliation (calculate). */
  function Calculated(m: Machine): (m': Machine)
    ensures m'.laneId == m.laneId && m'.timeoutInterval == m.timeoutInterval && m'.replies == m.replies
  {
    var r := CountingAlgorithm.Process(Input(m.front), Input(m.back));
    m.(totalChange := Some(r.totalChange),
       totalCount := m.totalCount + r.totalChange,
       front := m.front.(inactive := Some(r.sensor1Inactive), prevChange := Some(r.sensor1PrevChange), seen := false),
       back := m.back.(inactive := Some(r.sensor2Inactive), prevChange := Some(r.sensor2PrevChange), seen := false))
  }

  function ReplyOf(m: Machine): Reply {
    Reply(m.laneId, m.totalCount, m.totalChange, m.front, m.back)
  }

  /** The callback is invoked with the current fields (sendResponse). */
  function Responded(m: Machine): (m': Machine)
    ensures m'.laneId == m.laneId && m'.timeoutInterval == m.timeoutInterval
    ensures |m'.replies| == |m.replies| + 1
  {
    m.(replies := m.replies + [ReplyOf(m)])
  }

  /** stateStartTimeout: a timer is armed only for a positive interval. */
  function TimerStarted(m: Machine, isFront: bool): (m': Machine)
    ensures m'.laneId == m.laneId && m'.timeoutInterval == m.timeoutInterval && m'.replies == m.replies
  {
    if m.timeoutInterval > 0.0 then m.(armed := true, timerFront := isFront) else m
  }

  function AfterRepeat(m: Machine, isFront: bool, r: Reading): (m': Machine)
    ensures m'.laneId == m.laneId && m'.timeoutInterval == m.timeoutInterval
    ensures |m'.replies| == |m.replies| + 1
  {
    var other := GetState(m, !isFront);
    var m1 := Calculated(Rolled(m, !isFront, other.current));
    var m2 := Rolled(m1, isFront, r);
    TimerStarted(Responded(SetState(m2, isFront, GetState(m2, isFront).(seen := true))), isFront)
  }

  function AfterBoth(m: Machine, isFront: bool, r: Reading): (m': Machine)
    ensures m'.laneId == m.laneId && m'.timeoutInterval == m.timeoutInterval
    ensures |m'.replies| == |m.replies| + 1
  {
    Responded(Calculated(Rolled(m, isFront, r)))
  }

  function AfterSingle(m: Machine, isFront: bool, r: Reading): (m': Machine)
    ensures m'.laneId == m.laneId && m'.timeoutInterval == m.timeoutInterval
    ensures |m'.replies| == |m.replies| + 1
  {
    var s := GetState(m, isFront);
    if s.seen then AfterRepeat(m, isFront, r)
    else
      var m1 := SetState(m, isFront, s.(seen := true));
      if GetState(m1, !isFront).seen then AfterBoth(m1, isFront, r)
      else TimerStarted(Responded(Rolled(m1, isFront, r)), isFront)
  }

  function AfterTimeout(m: Machine, isFront: bool): (m': Machine)
    ensures m'.laneId == m.laneId && m'.timeoutInterval == m.timeoutInterval
    ensures |m'.replies| == |m.replies| + 1
  {
    var other := GetState(m, !isFront);
    Responded(Calculated(Rolled(m, !isFront, other.current)))
  }

  function AfterReset(m: Machine, isFront: bool, r: Reading): (m': Machine)
    ensures m'.laneId == m.laneId && m'.timeoutInterval == m.timeoutInterval
    ensures |m'.replies| == |m.replies| + 1
  {
    var s := GetState(m, isFront).(inactive := Some(0), prevChange := Some(0), seen := false);
    Responded(Rolled(SetState(m, isFront, s), isFront, r))
  }

  /** Whether an event comes from the front sensor; anything else counts as the back one. */
  predicate IsFront(m: Machine, ev: EventReceived) {
    StringCompare(ev.sensorId, m.front.id)
  }

  /** handle */
  function AfterEvent(m: Machine, ev: EventReceived): (m': Machine)
    ensures m'.laneId == m.laneId && m'.timeoutInterval == m.timeoutInterval
    ensures |m'.replies| == |m.replies| + 1
  {
    var isFront := IsFront(m, ev);
    if ev.count == ResetSentinel then AfterReset(m, isFront, Reading(Some(0)))
    else AfterSingle(m, isFront, Reading(Some(ev.count)))
  }

  /** The pending timer expires and runs stateTimeout for the position it captured. */
  function AfterFire(m: Machine): (m': Machine)
    requires m.armed
    ensures m'.laneId == m.laneId && m'.timeoutInterval == m.timeoutInterval && !m'.armed
    ensures |m'.replies| == |m.replies| + 1
  {
    AfterTimeout(m.(armed := false), m.timerFront)
  }

  /** cancelTimeout */
  function Cancelled(m: Machine): Machine {
    m.(armed := false)
  }

  /**
   * What the caller persists from a reply: the lane's count and state
   * (the callbacks of lib/UplinkService.js and of the engine's tests).
   */
  function Persist(info: LaneInfo, r: Reply): LaneInfo {
    info.(count := r.count, state := Some(StoredState(Some(r.front), Some(r.back))))
  }

  // ---------------------------------------------------------------------
  // What the transitions promise

  /** The inputs the algorithm sees when both sensors' latest readings are known. */
  function Delta(front: SensorState, back: SensorState): int {
    CountingAlgorithm.Process(Input(front), Input(back)).totalChange
  }

  /** The reset sentinel clears the reporting sensor, bypasses the algorithm and arms nothing. */
  lemma ResetPath(m: Machine, ev: EventReceived)
    requires ev.count == ResetSentinel
    ensures var isFront := IsFront(m, ev);
      var m' := AfterEvent(m, ev);
      var s := GetState(m, isFront);
      && GetState(m', isFront) == s.(inactive := Some(0), prevChange := Some(0), seen := false,
                                     previous := s.current, current := Reading(Some(0)))
      && GetState(m', !isFront) == GetState(m, !isFront)
      && m'.totalCount == m.totalCount && m'.totalChange == m.totalChange
      && m'.armed == m.armed && m'.timerFront == m.timerFront
      && m'.replies == m.replies + [Reply(m.laneId, m.totalCount, m.totalChange, m'.front, m'.back)]
  {
  }

  /**
   * First event of a cycle: the sensor is marked seen and rolled, the reply
   * repeats the unchanged count, and the timer is armed when the interval is positive.
   */
  lemma SinglePath(m: Machine, ev: EventReceived)
    requires ev.count != ResetSentinel
    requires !GetState(m, IsFront(m, ev)).seen && !GetState(m, !IsFront(m, ev)).seen
    ensures var isFront := IsFront(m, ev);
      var m' := AfterEvent(m, ev);
      var s := GetState(m, isFront);
      && GetState(m', isFront) == s.(seen := true, previous := s.current, current := Reading(Some(ev.count)))
      && GetState(m', !isFront) == GetState(m, !isFront)
      && m'.totalCount == m.totalCount && m'.totalChange == m.totalChange
      && m'.armed == (m.armed || m.timeoutInterval > 0.0)
      && (m.timeoutInterval > 0.0 ==> m'.timerFront == isFront)
      && m'.replies == m.replies + [Reply(m.laneId, m.totalCount, m.totalChange, m'.front, m'.back)]
  {
  }

  /**
   * The counterpart already reported: the event is rolled in, both readings
   * are reconciled at once, both sensors leave unseen and no timer is armed.
   */
  lemma BothPath(m: Machine, ev: EventReceived)
    requires ev.count != ResetSentinel
    requires !GetState(m, IsFront(m, ev)).seen && GetState(m, !IsFront(m, ev)).seen
    ensures var isFront := IsFront(m, ev);
      var m' := AfterEvent(m, ev);
      var s := GetState(m, isFront);
      var o := GetState(m, !isFront);
      var rolled := s.(seen := true, previous := s.current, current := Reading(Some(ev.count)));
      var change := if isFront then Delta(rolled, o) else Delta(o, rolled);
      && !m'.front.seen && !m'.back.seen
      && GetState(m', isFront).previous == s.current
      && GetState(m', isFront).current == Reading(Some(ev.count))
      && GetState(m', !isFront).previous == o.previous && GetState(m', !isFront).current == o.current
      && m'.totalChange == Some(change) && m'.totalCount == m.totalCount + change
      && m'.armed == m.armed && m'.timerFront == m.timerFront
      && m'.replies == m.replies + [Reply(m.laneId, m'.totalCount, Some(change), m'.front, m'.back)]
  {
  }

  /**
   * The same sensor reported twice: first the counterpart is resubmitted as
   * unchanged and reconciled, then the new event is rolled in, the sensor
   * stays seen and the timer is re-armed.
   */
  lemma RepeatPath(m: Machine, ev: EventReceived)
    requires ev.count != ResetSentinel
    requires GetState(m, IsFront(m, ev)).seen
    ensures var isFront := IsFront(m, ev);
      var m' := AfterEvent(m, ev);
      var s := GetState(m, isFront);
      var o := GetState(m, !isFront);
      var idle := o.(previous := o.current);
      var change := if isFront then Delta(s, idle) else Delta(idle, s);
      && GetState(m', !isFront).previous == o.current && GetState(m', !isFront).current == o.current
      && !GetState(m', !isFront).seen
      && GetState(m', isFront).seen
      && GetState(m', isFront).previous == s.current
      && GetState(m', isFront).current == Reading(Some(ev.count))
      && m'.totalChange == Some(change) && m'.totalCount == m.totalCount + change
      && m'.armed == (m.armed || m.timeoutInterval > 0.0)
      && (m.timeoutInterval > 0.0 ==> m'.timerFront == isFront)
      && m'.replies == m.replies + [Reply(m.laneId, m'.totalCount, Some(change), m'.front, m'.back)]
  {
  }

  /**
   * The timer fires: the silent counterpart is resubmitted as unchanged,
   * the cycle is reconciled and reported, and nothing is re-armed.
   */
  lemma TimeoutPath(m: Machine)
    requires m.armed
    ensures var isFront := m.timerFront;
      var m' := AfterFire(m);
      var s := GetState(m, isFront);
      var o := GetState(m, !isFront);
      var idle := o.(previous := o.current);
      var change := if isFront then Delta(s, idle) else Delta(idle, s);
      && !m'.armed
      && !m'.front.seen && !m'.back.seen
      && GetState(m', !isFront).previous == o.current && GetState(m', !isFront).current == o.current
      && GetState(m', isFront).previous == s.previous && GetState(m', isFront).current == s.current
      && m'.totalChange == Some(change) && m'.totalCount == m.totalCount + change
      && m'.replies == m.replies + [Reply(m.laneId, m'.totalCount, Some(change), m'.front, m'.back)]
  {
  }

  /**
   * A service that has no pending timer arms one exactly when the event is
   * not a reset, the interval is positive, and the event does not complete
   * a cycle begun by the counterpart.
   */
  lemma ArmsIff(m: Machine, ev: EventReceived)
    requires !m.armed
    ensures AfterEvent(m, ev).armed <==>
      ev.count != ResetSentinel && m.timeoutInterval > 0.0
      && (GetState(m, IsFront(m, ev)).seen || !GetState(m, !IsFront(m, ev)).seen)
  {
  }

  /** Cancelling is idempotent and changes nothing when no timer is pending. */
  lemma CancelIdempotent(m: Machine)
    ensures Cancelled(Cancelled(m)) == Cancelled(m)
    ensures !m.armed ==> Cancelled(m) == m
    ensures !Cancelled(m).armed
  {
  }

  // ---------------------------------------------------------------------
  // The lane count never decreases

  /** Stored counters lie in 0..127 and stored streaks are not negative. */
  predicate SensorInRange(s: SensorState) {
    (s.current.count.Some? ==> CountingAlgorithm.IsCounter(s.current.count.value))
    && (s.previous.count.Some? ==> CountingAlgorithm.IsCounter(s.previous.count.value))
    && (s.inactive.Some? ==> 0 <= s.inactive.value)
  }

  /** Every reply so far reported a count no larger than any later reply's or the current total. */
  predicate CountsMonotone(m: Machine) {
    && (forall i, j | 0 <= i <= j < |m.replies| :: m.replies[i].count <= m.replies[j].count)
    && (forall i | 0 <= i < |m.replies| :: m.replies[i].count <= m.totalCount)
  }

  predicate Sound(m: Machine) {
    SensorInRange(m.front) && SensorInRange(m.back) && CountsMonotone(m)
  }

  /** A well-formed event: a counter value or the reset sentinel. */
  predicate EventInRange(ev: EventReceived) {
    0 <= ev.count <= ResetSentinel
  }

  lemma RolledSound(m: Machine, isFront: bool, r: Reading)
    requires Sound(m)
    requires r.count.Some? ==> CountingAlgorithm.IsCounter(r.count.value)
    ensures Sound(Rolled(m, isFront, r)) && Rolled(m, isFront, r).totalCount == m.totalCount
  {
  }

  lemma CalculatedSound(m: Machine)
    requires Sound(m)
    ensures Sound(Calculated(m)) && Calculated(m).totalCount >= m.totalCount
  {
    CountingAlgorithm.ResultsInRange(Input(m.front), Input(m.back));
  }

  lemma RespondedSound(m: Machine)
    requires Sound(m)
    ensures Sound(Responded(m)) && Responded(m).totalCount == m.totalCount
  {
    var m' := Responded(m);
    forall i, j | 0 <= i <= j < |m'.replies|
      ensures m'.replies[i].count <= m'.replies[j].count
    {
      if j == |m.replies| {
        assert m'.replies[j].count == m.totalCount;
      }
    }
  }

  lemma ResetSound(m: Machine, isFront: bool)
    requires Sound(m)
    ensures var m' := AfterReset(m, isFront, Reading(Some(0)));
      Sound(m') && m'.totalCount == m.totalCount
  {
    var m1 := SetState(m, isFront, GetState(m, isFront).(inactive := Some(0), prevChange := Some(0), seen := false));
    RolledSound(m1, isFront, Reading(Some(0)));
    RespondedSound(Rolled(m1, isFront, Reading(Some(0))));
  }

  /** The first half of a repeat: the counterpart is resubmitted and the cycle reconciled. */
  lemma ResubmitSound(m: Machine, isFront: bool)
    requires Sound(m)
    ensures var m1 := Calculated(Rolled(m, !isFront, GetState(m, !isFront).current));
      Sound(m1) && m1.totalCount >= m.totalCount
  {
    RolledSound(m, !isFront, GetState(m, !isFront).current);
    CalculatedSound(Rolled(m, !isFront, GetState(m, !isFront).current));
  }

  /** The second half: roll the event in, mark it seen, reply and arm. */
  lemma RearmSound(m1: Machine, isFront: bool, r: Reading)
    requires Sound(m1) && r.count.Some? && CountingAlgorithm.IsCounter(r.count.value)
    ensures var m2 := Rolled(m1, isFront, r);
      var m' := TimerStarted(Responded(SetState(m2, isFront, GetState(m2, isFront).(seen := true))), isFront);
      Sound(m') && m'.totalCount == m1.totalCount
  {
    RolledSound(m1, isFront, r);
    var m2 := Rolled(m1, isFront, r);
    RespondedSound(SetState(m2, isFront, GetState(m2, isFront).(seen := true)));
  }

  lemma RepeatSound(m: Machine, isFront: bool, r: Reading)
    requires Sound(m) && r.count.Some? && CountingAlgorithm.IsCounter(r.count.value)
    ensures Sound(AfterRepeat(m, isFront, r)) && AfterRepeat(m, isFront, r).totalCount >= m.totalCount
  {
    ResubmitSound(m, isFront);
    RearmSound(Calculated(Rolled(m, !isFront, GetState(m, !isFront).current)), isFront, r);
  }

  lemma BothSound(m: Machine, isFront: bool, r: Reading)
    requires Sound(m) && r.count.Some? && CountingAlgorithm.IsCounter(r.count.value)
    ensures Sound(AfterBoth(m, isFront, r)) && AfterBoth(m, isFront, r).totalCount >= m.totalCount
  {
    RolledSound(m, isFront, r);
    CalculatedSound(Rolled(m, isFront, r));
    RespondedSound(Calculated(Rolled(m, isFront, r)));
  }

  lemma SingleSound(m: Machine, isFront: bool, r: Reading)
    requires Sound(m) && r.count.Some? && CountingAlgorithm.IsCounter(r.count.value)
    ensures Sound(AfterSingle(m, isFront, r)) && AfterSingle(m, isFront, r).totalCount >= m.totalCount
  {
    var s := GetState(m, isFront);
    if s.seen {
      RepeatSound(m, isFront, r);
    } else {
      var m1 := SetState(m, isFront, s.(seen := true));
      if GetState(m1, !isFront).seen {
        BothSound(m1, isFront, r);
      } else {
        RolledSound(m1, isFront, r);
        RespondedSound(Rolled(m1, isFront, r));
      }
    }
  }

  /**
   * Handling an event in range keeps the stored counters in range and never
   * lowers the lane count: every reply reports at least what every earlier
   * reply reported.
   */
  lemma EventKeepsCountMonotone(m: Machine, ev: EventReceived)
    requires Sound(m) && EventInRange(ev)
    ensures Sound(AfterEvent(m, ev)) && AfterEvent(m, ev).totalCount >= m.totalCount
  {
    if ev.count == ResetSentinel {
      ResetSound(m, IsFront(m, ev));
    } else {
      SingleSound(m, IsFront(m, ev), Reading(Some(ev.count)));
    }
  }

  /** The same for a timer expiry. */
  lemma FireKeepsCountMonotone(m: Machine)
    requires Sound(m) && m.armed
    ensures Sound(AfterFire(m)) && AfterFire(m).totalCount >= m.totalCount
  {
    var m0 := m.(armed := false);
    var other := GetState(m0, !m.timerFront);
    RolledSound(m0, !m.timerFront, other.current);
    CalculatedSound(Rolled(m0, !m.timerFront, other.current));
    RespondedSound(Calculated(Rolled(m0, !m.timerFront, other.current)));
  }

  /** A freshly built service is sound whenever the stored counters it adopts are in range. */
  lemma InitialSound(info: LaneInfo)
    requires StoredFront(info).Some? ==> SensorInRange(StoredFront(info).value)
    requires StoredBack(info).Some? ==> SensorInRange(StoredBack(info).value)
    ensures Sound(Initial(info))
  {
  }

  // ---------------------------------------------------------------------
  // The class

  /** Service for monitoring one lane's state. */
  class Service {
    const laneId: string
    const timeoutInterval: real
    var totalCount: int
    var totalChange: Option<int>
    var frontState: SensorState
    var backState: SensorState
    /** A debounce timer is pending. */
    var armed: bool
    /** The position the pending timer's closure captured. */
    var timerFront: bool
    /** The values passed to the completion callback, in order. */
    var replies: seq<Reply>

    function Snapshot(): Machine
      reads this
    {
      Machine(laneId, timeoutInterval, totalCount, totalChange, frontState, backState,
              armed, timerFront, replies)
    }

    constructor (info: LaneInfo)
      ensures Snapshot() == Initial(info)
    {
      timeoutInterval := if info.timeout.Some? then info.timeout.value else DefaultTimeout;
      laneId := info.id;
      totalCount := info.count;
      totalChange := None;
      armed, timerFront, replies := false, false, [];
      var front, back;
      if info.state.None? {
        front := InitialState(info.frontId);
        back := InitialState(info.backId);
      } else {
        if info.state.value.front.None? {
          front := InitialState(info.frontId);
        } else {
          front := info.state.value.front.value;
          if !StringCompare(front.id, info.frontId) {
            front := InitialState(info.frontId);
          }
        }
        if info.state.value.back.None? {
          back := InitialState(info.backId);
        } else {
          back := info.state.value.back.value;
          if !StringCompare(back.id, info.backId) {
            back := InitialState(info.backId);
          }
        }
      }
      frontState, backState := front, back;
    }

    /** Main event handler. */
    method Handle(ev: EventReceived)
      modifies this
      ensures Snapshot() == AfterEvent(old(Snapshot()), ev)
    {
      var isFront := StringCompare(ev.sensorId, frontState.id);
      if ev.count == ResetSentinel {
        StateReset(isFront, Reading(Some(0)));
        return;
      }
      StateSingle(isFront, Reading(Some(ev.count)));
    }

    /** Cancel a pending timer, if any. */
    method CancelTimeout()
      modifies this
      ensures Snapshot() == Cancelled(old(Snapshot()))
    {
      if armed {
        armed := false;
      }
    }

    /** The pending timer expires. */
    method Fire()
      requires armed
      modifies this
      ensures Snapshot() == AfterFire(old(Snapshot()))
    {
      armed := false;
      StateTimeout(timerFront);
    }

    function GetState(isFront: bool): SensorState
      reads this
    {
      if isFront then frontState else backState
    }

    method SetSensor(isFront: bool, s: SensorState)
      modifies this
      ensures Snapshot() == SetState(old(Snapshot()), isFront, s)
    {
      if isFront {
        frontState := s;
      } else {
        backState := s;
      }
    }

    method UpdateState(isFront: bool, r: Reading)
      modifies this
      ensures Snapshot() == Rolled(old(Snapshot()), isFront, r)
    {
      var state := GetState(isFront);
      state := state.(previous := state.current);
      state := state.(current := r);
      SetSensor(isFront, state);
    }

    method Calculate()
      modifies this
      ensures Snapshot() == Calculated(old(Snapshot()))
    {
      var front := Input(frontState);
      var back := Input(backState);
      var results := CountingAlgorithm.Process(front, back);
      totalChange := Some(results.totalChange);
      totalCount := totalCount + results.totalChange;
      frontState := frontState.(inactive := Some(results.sensor1Inactive));
      backState := backState.(inactive := Some(results.sensor2Inactive));
      frontState := frontState.(prevChange := Some(results.sensor1PrevChange));
      backState := backState.(prevChange := Some(results.sensor2PrevChange));
      frontState := frontState.(seen := false);
      backState := backState.(seen := false);
    }

    method SendResponse()
      modifies this
      ensures Snapshot() == Responded(old(Snapshot()))
    {
      replies := replies + [Reply(laneId, totalCount, totalChange, frontState, backState)];
    }

    method StateSingle(isFront: bool, r: Reading)
      modifies this
      ensures Snapshot() == AfterSingle(old(Snapshot()), isFront, r)
    {
      var state := GetState(isFront);
      if state.seen {
        StateRepeat(isFront, r);
        return;
      }
      SetSensor(isFront, state.(seen := true));
      if GetState(!isFront).seen {
        StateBoth(isFront, r);
        return;
      }
      UpdateState(isFront, r);
      SendResponse();
      StateStartTimeout(isFront);
    }

    method StateRepeat(isFront: bool, r: Reading)
      modifies this
      ensures Snapshot() == AfterRepeat(old(Snapshot()), isFront, r)
    {
      var otherState := GetState(!isFront);
      UpdateState(!isFront, otherState.current);
      Calculate();
      UpdateState(isFront, r);
      SetSensor(isFront, GetState(isFront).(seen := true));
      SendResponse();
      StateStartTimeout(isFront);
    }

    method StateBoth(isFront: bool, r: Reading)
      modifies this
      ensures Snapshot() == AfterBoth(old(Snapshot()), isFront, r)
    {
      UpdateState(isFront, r);
      Calculate();
      SendResponse();
    }

    method StateStartTimeout(isFront: bool)
      modifies this
      ensures Snapshot() == TimerStarted(old(Snapshot()), isFront)
    {
      if timeoutInterval > 0.0 {
        armed := true;
        timerFront := isFront;
      }
    }

    method StateTimeout(isFront: bool)
      modifies this
      ensures Snapshot() == AfterTimeout(old(Snapshot()), isFront)
    {
      var otherState := GetState(!isFront);
      UpdateState(!isFront, otherState.current);
      Calculate();
      SendResponse();
    }

    method StateReset(isFront: bool, r: Reading)
      modifies this
      ensures Snapshot() == AfterReset(old(Snapshot()), isFront, r)
    {
      var state := GetState(isFront);
      state := state.(inactive := Some(0), prevChange := Some(0), seen := false);
      SetSensor(isFront, state);
      UpdateState(isFront, r);
      SendResponse();
    }
  }
}
