/**
 * `CPUSensors` of src/config/config_cls.py: the list of sensor names that
 * `cpu_sensor` may take, `Auto` followed by one name per temperature entry
 * that psutil reports with a current reading.
 */
module Sensors {
  import opened Text

  /** One entry of `psutil.sensors_temperatures()`: whether it has `current`, and its label. */
  datatype Entry = Entry(hasCurrent: bool, labelText: string)

  /** The entries psutil reports under one sensor name. */
  datatype Group = Group(name: string, entries: seq<Entry>)

  /**
   * What probing gives: no `sensors_temperatures` in psutil, a call that
   * raised, or the reported groups in the order of the dict.
   */
  datatype Probe = NoSensorApi | ProbeFailed | Temps(groups: seq<Group>)

  const AutoSensor: string := "Auto"

  /** The name of the entry numbered `num` (from 1) under `name`. */
  function EntryId(name: string, num: nat, e: Entry): string {
    name + ":" + (if e.labelText == "" then NatToStr(num) else e.labelText)
  }

  /** The names of the entries of a group from position `j` on; an entry without `current` is skipped but numbered. */
  function GroupIds(name: string, entries: seq<Entry>, j: nat): seq<string>
    requires j <= |entries|
    decreases |entries| - j
  {
    if j == |entries| then []
    else (if entries[j].hasCurrent then [EntryId(name, j + 1, entries[j])] else []) + GroupIds(name, entries, j + 1)
  }

  /** The names of all groups from position `g` on. */
  function GroupsIds(groups: seq<Group>, g: nat): seq<string>
    requires g <= |groups|
    decreases |groups| - g
  {
    if g == |groups| then [] else GroupIds(groups[g].name, groups[g].entries, 0) + GroupsIds(groups, g + 1)
  }

  /** The names `add_psutil_sensors` appends. */
  function SensorIds(p: Probe): seq<string> {
    if p.Temps? then GroupsIds(p.groups, 0) else []
  }

  /** The entries of a group from position `j` on that have a current reading. */
  function Readable(entries: seq<Entry>, j: nat): nat
    requires j <= |entries|
    decreases |entries| - j
  {
    if j == |entries| then 0 else (if entries[j].hasCurrent then 1 else 0) + Readable(entries, j + 1)
  }

  class CpuSensors {
    var sensorList: seq<string>

    /** `CPUSensors()`: the default list, then the probed names. */
    constructor(p: Probe)
      ensures sensorList == [AutoSensor] + SensorIds(p)
    {
      sensorList := [AutoSensor];
      new;
      AddPsutilSensors(p);
    }

    /** `add_psutil_sensors`: the two nested loops over groups and entries. */
    method AddPsutilSensors(p: Probe)
      modifies this
      ensures sensorList == old(sensorList) + SensorIds(p)
    {
      if !p.Temps? {
        return;
      }
      var groups := p.groups;
      var g := 0;
      while g < |groups|
        invariant 0 <= g <= |groups|
        invariant sensorList + GroupsIds(groups, g) == old(sensorList) + GroupsIds(groups, 0)
      {
        var name := groups[g].name;
        var entries := groups[g].entries;
        var j := 0;
        while j < |entries|
          invariant 0 <= j <= |entries|
          invariant sensorList + GroupIds(name, entries, j) + GroupsIds(groups, g + 1)
                    == old(sensorList) + GroupsIds(groups, 0)
        {
          if entries[j].hasCurrent {
            sensorList := sensorList + [EntryId(name, j + 1, entries[j])];
          }
          j := j + 1;
        }
        g := g + 1;
      }
    }

    /** `key in cpu_sensors`. */
    predicate Contains(key: string)
      reads this
    {
      key in sensorList
    }
  }

  // ---------------------------------------------------------------------
  // What the names are
  // ---------------------------------------------------------------------

  /** A group yields one name per entry with a current reading. */
  lemma {:induction false} GroupIdsCount(name: string, entries: seq<Entry>, j: nat)
    requires j <= |entries|
    ensures |GroupIds(name, entries, j)| == Readable(entries, j)
    decreases |entries| - j
  {
    if j < |entries| {
      GroupIdsCount(name, entries, j + 1);
    }
  }

  /** Every name of a group is the group's name, a colon, and a label or a number. */
  lemma {:induction false} GroupIdsArePrefixed(name: string, entries: seq<Entry>, j: nat)
    requires j <= |entries|
    ensures forall i :: 0 <= i < |GroupIds(name, entries, j)| ==>
              StartsWith(GroupIds(name, entries, j)[i], name + ":")
    decreases |entries| - j
  {
    if j < |entries| {
      GroupIdsArePrefixed(name, entries, j + 1);
      var head: seq<string> := if entries[j].hasCurrent then [EntryId(name, j + 1, entries[j])] else [];
      assert forall i :: 0 <= i < |head| ==> StartsWith(head[i], name + ":") by {
        if entries[j].hasCurrent {
          var id := EntryId(name, j + 1, entries[j]);
          assert id[..|name + ":"|] == name + ":";
        }
      }
    }
  }

  /**
   * Every entry with a current reading is named, with its position counted
   * from 1 among all entries of its group, skipped ones included; so an
   * unlabelled one is `name:<position>`.
   */
  lemma {:induction false} ReadableEntryNamed(name: string, entries: seq<Entry>, j: nat, k: nat)
    requires j <= k < |entries| && entries[k].hasCurrent
    ensures EntryId(name, k + 1, entries[k]) in GroupIds(name, entries, j)
    ensures entries[k].labelText == "" ==> name + ":" + NatToStr(k + 1) in GroupIds(name, entries, j)
    decreases k - j
  {
    if j < k {
      ReadableEntryNamed(name, entries, j + 1, k);
    }
  }

  /** And every name is that of an entry with a current reading. */
  lemma {:induction false} NamesAreReadableEntries(name: string, entries: seq<Entry>, j: nat)
    requires j <= |entries|
    ensures forall s :: s in GroupIds(name, entries, j) ==>
              exists k :: j <= k < |entries| && entries[k].hasCurrent && s == EntryId(name, k + 1, entries[k])
    decreases |entries| - j
  {
    if j < |entries| {
      NamesAreReadableEntries(name, entries, j + 1);
    }
  }

  /** A probe that gives nothing leaves only `Auto`. */
  lemma NothingProbed(p: Probe)
    requires !p.Temps? || |p.groups| == 0
    ensures [AutoSensor] + SensorIds(p) == [AutoSensor]
  {
  }
}
