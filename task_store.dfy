/**
 * The shared store the dispatcher works on: the queue of pending tasks, the
 * task log, the timeline entries and the catalog snapshots. The database
 * behind it (and the atomicity of activation across processes) is not
 * modelled: the store is an object holding the four collections.
 */
module TaskStore {
  import opened Wrappers
  import opened ServerComponent
  import opened TimelineStatus

  /** The payload of a task, as its handler reads it back. */
  datatype Payload =
    | NoPayload
    | ConsoleMessage(message: string)
    | GenerateForecast(lastForecastLag: int, nextForecastLag: int)
    | GeneratePdlReport(lastForecastLag: int, baseTime: int)
    | GenerateExpire(lastForecastLag: int)
    | IntakePdl(lat: real, lon: real, mag: real, time: int)
    | Unreadable                    // details that do not unmarshal as the handler's payload

  /**
   * A pending task. A task is active when its execution time is
   * EXEC_TIME_ACTIVE and waiting otherwise; `restarted` marks a task that was
   * found still active, left so by a dispatcher that failed while running it.
   */
  datatype Task = Task(
    key: nat,
    eventId: string,
    schedTime: int,
    submitTime: int,
    submitId: string,
    opcode: int,
    stage: int,
    payload: Payload,
    execTime: int,
    restarted: bool)

  datatype LogEntry = LogEntry(key: nat, eventId: string, logTime: int, rescode: int, remark: string)

  /** A timeline entry; `details` is None for an entry whose status cannot be read back (an error entry). */
  datatype TimelineEntry = TimelineEntry(key: nat, actionTime: int, eventId: string, actcode: ActCode, details: Option<Status>)

  /** The entry that records a status, written on behalf of the task under key. */
  function StatusEntry(key: nat, s: Status): (e: TimelineEntry)
    ensures e.details == Some(s) && e.key == key && e.eventId == s.eventId && e.actionTime == s.actionTime
  {
    TimelineEntry(key, s.actionTime, s.eventId, s.actcode, Some(s))
  }

  datatype CatalogSnapshot = CatalogSnapshot(key: nat, eventId: string, startTime: int, endTime: int, eqkCount: nat)

  /** What a submitter supplies for a new task. */
  datatype TaskSpec = TaskSpec(
    eventId: string,
    schedTime: int,
    submitTime: int,
    submitId: string,
    opcode: int,
    stage: int,
    payload: Payload)
  {
    /** The new task as filed under key: waiting, to run at its scheduled time. */
    function Waiting(key: nat): Task
    {
      Task(key, eventId, schedTime, submitTime, submitId, opcode, stage, payload, schedTime, false)
    }
  }

  predicate IsActive(t: Task)
  {
    t.execTime == EXEC_TIME_ACTIVE
  }

  /** The task t is in the execution-time range [lo, hi] of event eventId; 0 for lo or hi means no bound. */
  predicate InRange(t: Task, lo: int, hi: int, eventId: string)
  {
    (lo == 0 || t.execTime >= lo) && (hi == 0 || t.execTime <= hi) && t.eventId == eventId
  }

  /** Key k names a task that is ready at cutoff and comes first: earliest execution time, then smallest key. */
  predicate FirstReady(ts: map<nat, Task>, cutoff: int, k: nat)
  {
    k in ts && ts[k].execTime <= cutoff &&
    forall j :: j in ts && ts[j].execTime <= cutoff ==>
      ts[k].execTime < ts[j].execTime || (ts[k].execTime == ts[j].execTime && k <= j)
  }

  /** At most one task comes first, so activation is deterministic. */
  lemma FirstReadyUnique(ts: map<nat, Task>, cutoff: int, k1: nat, k2: nat)
    requires FirstReady(ts, cutoff, k1) && FirstReady(ts, cutoff, k2)
    ensures k1 == k2
  {
    assert ts[k1].execTime <= ts[k2].execTime && ts[k2].execTime <= ts[k1].execTime;
  }

  /** The queue after deleting every task in the range whose opcode is one of opcodes. */
  function Purged(ts: map<nat, Task>, lo: int, hi: int, eventId: string, opcodes: seq<int>): (r: map<nat, Task>)
    ensures forall k :: k in r <==> k in ts && !(InRange(ts[k], lo, hi, eventId) && ts[k].opcode in opcodes)
    ensures forall k :: k in r ==> r[k] == ts[k]
  {
    map k | k in ts && !(InRange(ts[k], lo, hi, eventId) && ts[k].opcode in opcodes) :: ts[k]
  }

  /** The queue after is the queue before, or it plus one new task under key. */
  predicate AtMostOneAdded(before: map<nat, Task>, after: map<nat, Task>, key: nat)
  {
    after == before || (key !in before && key in after && after == before[key := after[key]])
  }

  /** Every task that was active before is still there, unchanged: the running task is never touched. */
  predicate KeepsActive(before: map<nat, Task>, after: map<nat, Task>)
  {
    forall k :: k in before && IsActive(before[k]) ==> k in after && after[k] == before[k]
  }

  /** Adding one task under a new key keeps every task, the active ones included. */
  lemma AddedKeepsActive(before: map<nat, Task>, after: map<nat, Task>, key: nat)
    requires AtMostOneAdded(before, after, key)
    ensures KeepsActive(before, after)
  {
    if after != before {
      forall k | k in before && IsActive(before[k])
        ensures k in after && after[k] == before[k]
      {
        assert k != key;
      }
    }
  }

  /** Purging waiting tasks (a range starting past the active time) keeps the active ones. */
  lemma PurgedKeepsActive(ts: map<nat, Task>, lo: int, hi: int, eventId: string, opcodes: seq<int>)
    requires lo > EXEC_TIME_ACTIVE
    ensures KeepsActive(ts, Purged(ts, lo, hi, eventId, opcodes))
  {
  }

  /**
   * The entry an event's timeline is read from: among the event's entries,
   * the one with the latest action time, the later-written one on a tie.
   */
  function Recent(es: seq<TimelineEntry>, eventId: string): (r: Option<TimelineEntry>)
    ensures r.None? <==> forall i :: 0 <= i < |es| ==> es[i].eventId != eventId
    ensures r.Some? ==> r.value in es && r.value.eventId == eventId &&
                        forall i :: 0 <= i < |es| && es[i].eventId == eventId ==> es[i].actionTime <= r.value.actionTime
  {
    if es == [] then None
    else
      var prev := Recent(es[..|es| - 1], eventId);
      var last := es[|es| - 1];
      if last.eventId == eventId && (prev.None? || prev.value.actionTime <= last.actionTime) then Some(last)
      else prev
  }

  class Store {
    var tasks: map<nat, Task>
    var nextKey: nat
    var log: seq<LogEntry>
    var timeline: seq<TimelineEntry>
    var snapshots: map<nat, CatalogSnapshot>

    /** Every task is filed under its own key, and keys still to be handed out are unused. */
    predicate Valid()
      reads this
    {
      forall k :: k in tasks ==> tasks[k].key == k && k < nextKey
    }

    constructor ()
      ensures Valid()
      ensures tasks == map[] && log == [] && timeline == [] && snapshots == map[]
    {
      tasks := map[];
      nextKey := 0;
      log := [];
      timeline := [];
      snapshots := map[];
    }

    /** The keys that have a log entry. */
    function LogKeys(): set<nat>
      reads this
    {
      set e | e in log :: e.key
    }

    /** The keys that have a timeline entry. */
    function TimelineKeys(): set<nat>
      reads this
    {
      set e | e in timeline :: e.key
    }

    /** Adds a waiting task under a fresh key. */
    method SubmitTask(spec: TaskSpec) returns (key: nat)
      requires Valid()
      modifies this`tasks, this`nextKey
      ensures Valid()
      ensures key == old(nextKey) && key !in old(tasks)
      ensures tasks == old(tasks)[key := spec.Waiting(key)]
    {
      key := nextKey;
      tasks := tasks[key := spec.Waiting(key)];
      nextKey := nextKey + 1;
    }

    /** Removes a task from the queue. */
    method DeleteTask(key: nat)
      requires Valid()
      modifies this`tasks
      ensures Valid()
      ensures tasks == old(tasks) - {key}
    {
      tasks := tasks - {key};
    }

    /** Returns an active task to waiting, to run again at execTime with the given stage. */
    method StageTask(key: nat, execTime: int, stage: int)
      requires Valid()
      modifies this`tasks
      ensures Valid()
      ensures key in old(tasks) ==> tasks == old(tasks)[key := old(tasks)[key].(execTime := execTime, stage := stage, restarted := false)]
      ensures key !in old(tasks) ==> tasks == old(tasks)
    {
      if key in tasks {
        tasks := tasks[key := tasks[key].(execTime := execTime, stage := stage, restarted := false)];
      }
    }

    /**
     * Selects the first task ready at cutoff and makes it active. A task that
     * was already active (its dispatcher failed) comes first and is marked
     * restarted.
     */
    method ActivateFirstReady(cutoff: int) returns (r: Option<Task>)
      requires Valid()
      modifies this`tasks
      ensures Valid()
      ensures r.None? <==> forall k :: k in old(tasks) ==> old(tasks)[k].execTime > cutoff
      ensures r.None? ==> tasks == old(tasks)
      ensures r.Some? ==>
                FirstReady(old(tasks), cutoff, r.value.key) &&
                r.value == old(tasks)[r.value.key].(execTime := EXEC_TIME_ACTIVE,
                                                   restarted := old(tasks)[r.value.key].execTime == EXEC_TIME_ACTIVE) &&
                tasks == old(tasks)[r.value.key := r.value]
    {
      var best: Option<nat> := None;
      var rest := tasks.Keys;
      while rest != {}
        invariant rest <= tasks.Keys
        invariant best.Some? ==> best.value in tasks && best.value !in rest && tasks[best.value].execTime <= cutoff
        invariant best.Some? ==>
                    forall j :: j in tasks && j !in rest && tasks[j].execTime <= cutoff ==>
                      tasks[best.value].execTime < tasks[j].execTime ||
                      (tasks[best.value].execTime == tasks[j].execTime && best.value <= j)
        invariant best.None? ==> forall j :: j in tasks && j !in rest ==> tasks[j].execTime > cutoff
        decreases rest
      {
        var k :| k in rest;
        var t := tasks[k];
        if t.execTime <= cutoff {
          if best.None? || t.execTime < tasks[best.value].execTime ||
             (t.execTime == tasks[best.value].execTime && k < best.value) {
            best := Some(k);
          }
        }
        rest := rest - {k};
      }
      if best.None? {
        r := None;
      } else {
        var t := tasks[best.value];
        var activated := t.(execTime := EXEC_TIME_ACTIVE, restarted := t.execTime == EXEC_TIME_ACTIVE);
        tasks := tasks[best.value := activated];
        r := Some(activated);
      }
    }

    /** The keys of the tasks in the execution-time range [lo, hi] of an event, each once. */
    method TaskRange(lo: int, hi: int, eventId: string) returns (ks: seq<nat>)
      ensures forall k :: k in ks <==> k in tasks && InRange(tasks[k], lo, hi, eventId)
      ensures forall i, j :: 0 <= i < j < |ks| ==> ks[i] != ks[j]
    {
      ks := [];
      var rest := tasks.Keys;
      while rest != {}
        invariant rest <= tasks.Keys
        invariant forall k :: k in ks <==> k in tasks && k !in rest && InRange(tasks[k], lo, hi, eventId)
        invariant forall i, j :: 0 <= i < j < |ks| ==> ks[i] != ks[j]
        decreases rest
      {
        var k :| k in rest;
        if InRange(tasks[k], lo, hi, eventId) {
          ks := ks + [k];
        }
        rest := rest - {k};
      }
    }

    /** Writes a log entry for a task. */
    method SubmitLogEntry(t: Task, logTime: int, rescode: int, remark: string)
      modifies this`log
      ensures log == old(log) + [LogEntry(t.key, t.eventId, logTime, rescode, remark)]
    {
      log := log + [LogEntry(t.key, t.eventId, logTime, rescode, remark)];
    }

    /** Appends a timeline entry. */
    method SubmitTimelineEntry(e: TimelineEntry)
      modifies this`timeline
      ensures timeline == old(timeline) + [e]
    {
      timeline := timeline + [e];
    }

    method SubmitCatalogSnapshot(s: CatalogSnapshot)
      modifies this`snapshots
      ensures snapshots == old(snapshots)[s.key := s]
    {
      snapshots := snapshots[s.key := s];
    }

    method DeleteCatalogSnapshot(key: nat)
      modifies this`snapshots
      ensures snapshots == old(snapshots) - {key}
    {
      snapshots := snapshots - {key};
    }
  }
}
