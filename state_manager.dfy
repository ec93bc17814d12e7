/**
 * The state manager: a per-device table holding the last lifetime clean count
 * seen, used to tell whether the device has cleaned since the last check.
 * The table's JSON file is reduced to what loading it yields: the stored table,
 * or nothing when the file is missing or unreadable.
 */
module StateManagement {
  import opened Wrappers

  /**
   * One device's entry. Every field is optional because an entry read back from
   * the file may lack any of its keys.
   */
  datatype DeviceEntry = DeviceEntry(
    lastCleanCount: Option<int>,
    lastTotalArea: Option<real>,
    lastTotalTime: Option<int>,
    lastUpdated: Option<string>)

  /** The `{}` returned for a device with no entry. */
  const EmptyEntry := DeviceEntry(None, None, None, None)

  class StateManager {
    var state: map<string, DeviceEntry>

    /** `stored` is the table read from the file, or `None` when it is missing or unreadable. */
    constructor (stored: Option<map<string, DeviceEntry>>)
      ensures state == stored.GetOr(map[])
      ensures stored.None? ==> forall d :: GetLastCleanCount(d) == 0
    {
      state := if stored.Some? then stored.value else map[];
    }

    /** `get_device_state`: the device's entry, or the empty entry. */
    function GetDeviceState(deviceName: string): (entry: DeviceEntry)
      reads this
      ensures deviceName in state ==> entry == state[deviceName]
      ensures deviceName !in state ==> entry == EmptyEntry
    {
      Lookup(state, deviceName).GetOr(EmptyEntry)
    }

    /** `get_last_clean_count`: the stored count, 0 when there is no entry or no count in it. */
    function GetLastCleanCount(deviceName: string): (count: int)
      reads this
      ensures deviceName !in state ==> count == 0
      ensures deviceName in state && state[deviceName].lastCleanCount.None? ==> count == 0
      ensures deviceName in state && state[deviceName].lastCleanCount.Some? ==>
                count == state[deviceName].lastCleanCount.value
    {
      GetDeviceState(deviceName).lastCleanCount.GetOr(0)
    }

    /** `get_new_cleaning_count`: how far the live count is ahead of the stored one, never negative. */
    function GetNewCleaningCount(deviceName: string, currentCount: int): (n: nat)
      reads this
      ensures n == 0 <==> currentCount <= GetLastCleanCount(deviceName)
      ensures n > 0 ==> GetLastCleanCount(deviceName) + n == currentCount
    {
      var last := GetLastCleanCount(deviceName);
      if currentCount - last > 0 then currentCount - last else 0
    }

    /** `has_new_cleaning`: the live count is ahead of the stored one. */
    predicate HasNewCleaning(deviceName: string, currentCount: int)
      reads this
      ensures HasNewCleaning(deviceName, currentCount) <==> GetNewCleaningCount(deviceName, currentCount) > 0
    {
      currentCount > GetLastCleanCount(deviceName)
    }

    /**
     * `update_device_state`: replaces the device's whole entry (nothing is merged)
     * and stores the count given, even one lower than before. Saving the table to
     * its file is not part of this model.
     */
    method UpdateDeviceState(deviceName: string, cleanCount: int, totalArea: Option<real>,
                             totalTime: Option<int>, now: string)
      modifies this
      ensures state == old(state)[deviceName := DeviceEntry(Some(cleanCount), totalArea, totalTime, Some(now))]
      ensures GetLastCleanCount(deviceName) == cleanCount
      ensures !HasNewCleaning(deviceName, cleanCount)
      ensures forall c :: HasNewCleaning(deviceName, c) <==> c > cleanCount
      ensures forall d :: d != deviceName ==> GetDeviceState(d) == old(GetDeviceState(d))
    {
      state := state[deviceName := DeviceEntry(Some(cleanCount), totalArea, totalTime, Some(now))];
    }
  }

  /**
   * Novelty checks on one device: a device never seen reports 5 new cleanings
   * for a count of 5; after committing 5 it reports none for 5 and two for 7;
   * a count that went back to 3 reports none.
   */
  method NoveltyScenario() {
    var manager := new StateManager(None);
    assert manager.HasNewCleaning("Q8", 5) && manager.GetNewCleaningCount("Q8", 5) == 5;
    manager.UpdateDeviceState("Q8", 5, None, None, "2024-01-01T10:00:00");
    assert !manager.HasNewCleaning("Q8", 5);
    assert manager.HasNewCleaning("Q8", 7) && manager.GetNewCleaningCount("Q8", 7) == 2;
    assert !manager.HasNewCleaning("Q8", 3) && manager.GetNewCleaningCount("Q8", 3) == 0;
  }
}
