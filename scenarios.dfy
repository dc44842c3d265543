/**
 * The end-to-end expectations of the engine's tests, run through the
 * registry. As in those tests, the caller persists every reply into the lane
 * record before the next event; waiting past the debounce window is the
 * explicit step `FireTimer`, and an event that arrives within the window
 * simply comes next.
 */
module CountingScenarios {
  import opened Wrappers
  import opened LaneService
  import opened CountingRegistry

  const FrontId: string := "0000000000000000"
  const BackId: string := "1111111111111111"
  const LaneId: string := "1"

  /** A fresh lane with a 20 ms debounce window and no stored state. */
  function Driveway(): LaneInfo {
    LaneInfo(LaneId, Some(0.02), 0, FrontId, BackId, None)
  }

  lemma IdsDiffer()
    ensures !StringCompare(BackId, FrontId) && !StringCompare(FrontId, BackId)
    ensures StringCompare(FrontId, FrontId) && StringCompare(BackId, BackId)
  {
    assert Lower(BackId)[0] == '1' && Lower(FrontId)[0] == '0';
  }

  /** A lane record holding the given count and sensor states. */
  function Stored(count: int, front: SensorState, back: SensorState): LaneInfo {
    Driveway().(count := count, state := Some(StoredState(Some(front), Some(back))))
  }

  function Front(seen: bool, previous: Option<int>, current: Option<int>, inactive: int, prevChange: int): SensorState {
    SensorState(FrontId, seen, Reading(previous), Reading(current), Some(inactive), Some(prevChange))
  }

  function Back(seen: bool, previous: Option<int>, current: Option<int>, inactive: int, prevChange: int): SensorState {
    SensorState(BackId, seen, Reading(previous), Reading(current), Some(inactive), Some(prevChange))
  }

  function Latest(m: Machine): Reply
    requires |m.replies| > 0
  {
    m.replies[|m.replies| - 1]
  }

  /** Let the registry handle one event of the lane, then persist the reply into the lane record. */
  method HandleAndPersist(vc: VehicleCounting, lane: LaneInfo, ev: EventReceived) returns (lane': LaneInfo)
    requires vc.Valid()
    modifies vc, vc.Cached(lane.id)
    ensures vc.Valid() && lane.id in vc.services && fresh(vc.services[lane.id])
    ensures vc.services[lane.id].Snapshot() == AfterEvent(Initial(lane), ev)
    ensures lane'.id == lane.id
    ensures lane' == Persist(lane, Latest(AfterEvent(Initial(lane), ev)))
  {
    vc.HandleEvent(lane, ev);
    var replies := vc.services[lane.id].replies;
    lane' := Persist(lane, replies[|replies| - 1]);
  }

  /** Let the lane's pending timer expire, then persist the reply into the lane record. */
  method FireAndPersist(vc: VehicleCounting, lane: LaneInfo) returns (lane': LaneInfo)
    requires vc.Valid() && lane.id in vc.services && vc.services[lane.id].armed
    modifies vc.services[lane.id]
    ensures vc.Valid() && lane'.id == lane.id
    ensures lane' == Persist(lane, Latest(AfterFire(old(vc.services[lane.id].Snapshot()))))
  {
    vc.FireTimer(lane.id);
    var replies := vc.services[lane.id].replies;
    lane' := Persist(lane, replies[|replies| - 1]);
  }

  // Each step of the scenarios, computed once.

  /** The service after front 1 on a fresh lane: seen, rolled, replied, timer armed for the front. */
  function AfterFrontOne(): Machine {
    var front := Front(true, None, Some(1), 0, 0);
    Machine(LaneId, 0.02, 0, None, front, InitialState(BackId), true, true,
            [Reply(LaneId, 0, None, front, InitialState(BackId))])
  }

  lemma FrontOne()
    ensures AfterEvent(Initial(Driveway()), EventReceived(FrontId, 1)) == AfterFrontOne()
    ensures Persist(Driveway(), Latest(AfterFrontOne())) == Stored(0, Front(true, None, Some(1), 0, 0), InitialState(BackId))
  {
    IdsDiffer();
  }

  lemma FrontOneTimeout()
    ensures var m := AfterFire(AfterFrontOne());
      |m.replies| > 0
      && Persist(Driveway(), Latest(m)) == Stored(1, Front(false, None, Some(1), 0, 1), Back(false, None, None, 1, 0))
  {
  }

  lemma FrontTwoAfterTimeout()
    ensures var m := AfterEvent(Initial(Stored(1, Front(false, None, Some(1), 0, 1), Back(false, None, None, 1, 0))),
                                EventReceived(FrontId, 2));
      |m.replies| > 0
      && Persist(Driveway(), Latest(m)) == Stored(1, Front(true, Some(1), Some(2), 0, 1), Back(false, None, None, 1, 0))
  {
    IdsDiffer();
  }

  lemma BackOneAfterFrontTwo()
    ensures var m := AfterEvent(Initial(Stored(1, Front(true, Some(1), Some(2), 0, 1), Back(false, None, None, 1, 0))),
                                EventReceived(BackId, 1));
      |m.replies| > 0
      && Persist(Driveway(), Latest(m)) == Stored(2, Front(false, Some(1), Some(2), 0, 1), Back(false, None, Some(1), 0, 0))
  {
    IdsDiffer();
  }

  lemma BackOneAfterFrontOne()
    ensures var m := AfterEvent(Initial(Stored(0, Front(true, None, Some(1), 0, 0), InitialState(BackId))),
                                EventReceived(BackId, 1));
      |m.replies| > 0 && Latest(m).count == 1
  {
    IdsDiffer();
  }

  lemma FrontTwoRepeat()
    ensures var m := AfterEvent(Initial(Stored(0, Front(true, None, Some(1), 0, 0), InitialState(BackId))),
                                EventReceived(FrontId, 2));
      |m.replies| > 0
      && Persist(Driveway(), Latest(m)) == Stored(1, Front(true, Some(1), Some(2), 0, 1), Back(false, None, None, 1, 0))
  {
    IdsDiffer();
  }

  lemma BackTwoAfterBoth()
    ensures var m := AfterEvent(Initial(Stored(2, Front(false, Some(1), Some(2), 0, 1), Back(false, None, Some(1), 0, 0))),
                                EventReceived(BackId, 2));
      m.armed && |m.replies| > 0
      && Persist(Driveway(), Latest(m)) == Stored(2, Front(false, Some(1), Some(2), 0, 1), Back(true, Some(1), Some(2), 0, 0))
      && |AfterFire(m).replies| > 0 && Latest(AfterFire(m)).count == 3
  {
    IdsDiffer();
  }

  lemma BothResetSteps()
    ensures var m := AfterEvent(Initial(Driveway()), EventReceived(FrontId, 128));
      !m.armed && |m.replies| > 0
      && Persist(Driveway(), Latest(m)) == Stored(0, Front(false, None, Some(0), 0, 0), InitialState(BackId))
    ensures var m := AfterEvent(Initial(Stored(0, Front(false, None, Some(0), 0, 0), InitialState(BackId))),
                                EventReceived(BackId, 128));
      !m.armed && |m.replies| > 0 && Latest(m).count == 0
  {
    IdsDiffer();
  }

  // The scenarios, built from openings of at most two steps each.

  /** A fresh registry that has handled front 1 of the driveway. */
  method OpenFrontOne() returns (vc: VehicleCounting, lane: LaneInfo)
    ensures fresh(vc) && vc.Valid() && LaneId in vc.services && fresh(vc.services[LaneId])
    ensures vc.services[LaneId].Snapshot() == AfterFrontOne() && vc.services[LaneId].armed
    ensures lane == Stored(0, Front(true, None, Some(1), 0, 0), InitialState(BackId))
  {
    vc := new VehicleCounting();
    lane := HandleAndPersist(vc, Driveway(), EventReceived(FrontId, 1));
    FrontOne();
  }

  /** Front 1, then the window elapses. */
  method OpenFrontOneTimeout() returns (vc: VehicleCounting, lane: LaneInfo)
    ensures fresh(vc) && vc.Valid() && LaneId in vc.services && fresh(vc.services[LaneId])
    ensures lane == Stored(1, Front(false, None, Some(1), 0, 1), Back(false, None, None, 1, 0))
  {
    vc, lane := OpenFrontOne();
    lane := FireAndPersist(vc, lane);
    FrontOneTimeout();
  }

  /** Front 1, then front 2 within the window. */
  method OpenFrontTwo() returns (vc: VehicleCounting, lane: LaneInfo)
    ensures fresh(vc) && vc.Valid() && LaneId in vc.services && fresh(vc.services[LaneId])
    ensures lane == Stored(1, Front(true, Some(1), Some(2), 0, 1), Back(false, None, None, 1, 0))
  {
    vc, lane := OpenFrontOne();
    lane := HandleAndPersist(vc, lane, EventReceived(FrontId, 2));
    FrontTwoRepeat();
  }

  /** Front 1, front 2, back 1 and back 2 within the window; the timer is pending. */
  method OpenBothTwice() returns (vc: VehicleCounting, lane: LaneInfo)
    ensures fresh(vc) && vc.Valid() && LaneId in vc.services && fresh(vc.services[LaneId])
    ensures var m := AfterEvent(Initial(Stored(2, Front(false, Some(1), Some(2), 0, 1), Back(false, None, Some(1), 0, 0))),
                                EventReceived(BackId, 2));
      vc.services[LaneId].Snapshot() == m && vc.services[LaneId].armed
    ensures lane == Stored(2, Front(false, Some(1), Some(2), 0, 1), Back(true, Some(1), Some(2), 0, 0))
  {
    vc, lane := OpenFrontTwo();
    lane := HandleAndPersist(vc, lane, EventReceived(BackId, 1));
    BackOneAfterFrontTwo();
    lane := HandleAndPersist(vc, lane, EventReceived(BackId, 2));
    BackTwoAfterBoth();
  }

  /** Front 1, then back 1 within the window: the lane count is 1. */
  method BothSeen() returns (count: int)
    ensures count == 1
  {
    var vc, lane := OpenFrontOne();
    lane := HandleAndPersist(vc, lane, EventReceived(BackId, 1));
    BackOneAfterFrontOne();
    count := lane.count;
  }

  /** A lone front 1, then the window elapses: the lane count is 1. */
  method LoneTimeout() returns (count: int)
    ensures count == 1
  {
    var vc, lane := OpenFrontOneTimeout();
    count := lane.count;
  }

  /** Front 1, the window elapses, front 2, back 1 within the window: the lane count is 2. */
  method TimeoutThenBoth() returns (count: int)
    ensures count == 2
  {
    var vc, lane := OpenFrontOneTimeout();
    lane := HandleAndPersist(vc, lane, EventReceived(FrontId, 2));
    FrontTwoAfterTimeout();
    lane := HandleAndPersist(vc, lane, EventReceived(BackId, 1));
    BackOneAfterFrontTwo();
    count := lane.count;
  }

  /** Front 1, front 2, back 1, back 2 within the window, then it elapses: the lane count is 3. */
  method RepeatBothTimeout() returns (count: int)
    ensures count == 3
  {
    var vc, lane := OpenBothTwice();
    lane := FireAndPersist(vc, lane);
    BackTwoAfterBoth();
    count := lane.count;
  }

  /** The front sensor reports the reset sentinel on a fresh lane. */
  method OpenFrontReset() returns (vc: VehicleCounting, lane: LaneInfo)
    ensures fresh(vc) && vc.Valid() && LaneId in vc.services && fresh(vc.services[LaneId])
    ensures lane == Stored(0, Front(false, None, Some(0), 0, 0), InitialState(BackId))
  {
    vc := new VehicleCounting();
    lane := HandleAndPersist(vc, Driveway(), EventReceived(FrontId, 128));
    BothResetSteps();
  }

  /** Both sensors report the reset sentinel: the lane count stays 0 and no timer is pending. */
  method BothReset() returns (count: int, pending: bool)
    ensures count == 0 && !pending
  {
    var vc, lane := OpenFrontReset();
    lane := HandleAndPersist(vc, lane, EventReceived(BackId, 128));
    BothResetSteps();
    count := lane.count;
    pending := vc.services[LaneId].armed;
  }
}
