/**
 The worker side's task store, as the two workers use it: a map from task id
 to task record that `update_task` overwrites in place. The store itself comes
 from the A2A library and is not part of this model; what it does here is the
 behaviour the workers rely on: `update_task` replaces the state, replaces the
 artifacts when artifacts are given, leaves every other field alone, and fails
 with a lookup error, changing nothing, for an id it does not hold.
 */
module Storage {
  import opened Schema

  /** One stored task: its state, its artifacts if any were ever written, and
      the messages exchanged so far. */
  datatype TaskRecord = TaskRecord(state: TaskState, artifacts: Option<seq<Artifact>>, history: seq<Message>)

  /** One `update_task` call that found its task: the id, the state written and
      the artifacts, when some were passed. */
  datatype Write = Write(id: string, state: TaskState, artifacts: Option<seq<Artifact>>)

  /** The record a write leaves behind. */
  function Updated(t: TaskRecord, state: TaskState, artifacts: Option<seq<Artifact>>): (u: TaskRecord)
    ensures u.state == state && u.history == t.history
    ensures u.artifacts == if artifacts.Some? then artifacts else t.artifacts
  {
    TaskRecord(state, if artifacts.Some? then artifacts else t.artifacts, t.history)
  }

  /** The store after one write; a write to an id the store does not hold
      changes nothing. */
  function ApplyOne(tasks: map<string, TaskRecord>, w: Write): (m: map<string, TaskRecord>)
    ensures m.Keys == tasks.Keys
    ensures w.id in tasks ==> m[w.id] == Updated(tasks[w.id], w.state, w.artifacts)
    ensures forall id :: id in tasks && id != w.id ==> m[id] == tasks[id]
  {
    if w.id in tasks then tasks[w.id := Updated(tasks[w.id], w.state, w.artifacts)] else tasks
  }

  /** The store after a sequence of writes, applied in order. */
  function Apply(tasks: map<string, TaskRecord>, writes: seq<Write>): (m: map<string, TaskRecord>)
    ensures m.Keys == tasks.Keys
    decreases |writes|
  {
    if writes == [] then tasks else Apply(ApplyOne(tasks, writes[0]), writes[1..])
  }

  /** One more write on top of a sequence of writes. */
  lemma {:induction false} ApplyAppend(tasks: map<string, TaskRecord>, writes: seq<Write>, w: Write)
    ensures Apply(tasks, writes + [w]) == ApplyOne(Apply(tasks, writes), w)
    decreases |writes|
  {
    if writes == [] {
      assert [w][1..] == [];
    } else {
      assert (writes + [w])[1..] == writes[1..] + [w];
      ApplyAppend(ApplyOne(tasks, writes[0]), writes[1..], w);
    }
  }

  /** Two writes, one after the other. */
  lemma ApplyTwo(tasks: map<string, TaskRecord>, ws: seq<Write>)
    requires |ws| == 2
    ensures Apply(tasks, ws) == ApplyOne(ApplyOne(tasks, ws[0]), ws[1])
  {
    var mid := ApplyOne(tasks, ws[0]);
    assert ws[1..] == [ws[1]];
    assert [ws[1]][1..] == [];
    assert Apply(tasks, ws) == Apply(mid, [ws[1]]);
    assert Apply(mid, [ws[1]]) == Apply(ApplyOne(mid, ws[1]), []);
  }

  /** Two writes logged one after the other are the pair logged at once. */
  lemma LogTwo(log: seq<Write>, ws: seq<Write>)
    requires |ws| == 2
    ensures log + [ws[0]] + [ws[1]] == log + ws
  {
    assert ws == [ws[0]] + [ws[1]];
  }

  /** Writes to other tasks leave a task's record as it was. */
  lemma {:induction false} ApplyOthers(tasks: map<string, TaskRecord>, writes: seq<Write>, id: string)
    requires id in tasks && forall j :: 0 <= j < |writes| ==> writes[j].id != id
    ensures Apply(tasks, writes)[id] == tasks[id]
    decreases |writes|
  {
    if writes != [] {
      ApplyOthers(ApplyOne(tasks, writes[0]), writes[1..], id);
    }
  }

  /** Of two writes to a task, the second decides its state, whatever it is;
      the artifacts are those of the last write that carried some, else the
      task's own. */
  lemma {:induction false} LastWriteToTaskWins(tasks: map<string, TaskRecord>, id: string, a: Write, b: Write)
    requires id in tasks && a.id == id && b.id == id
    ensures Apply(tasks, [a, b])
            == tasks[id := TaskRecord(b.state,
                                      if b.artifacts.Some? then b.artifacts
                                      else if a.artifacts.Some? then a.artifacts
                                      else tasks[id].artifacts,
                                      tasks[id].history)]
  {
    var once := ApplyOne(tasks, a);
    ApplyTwo(tasks, [a, b]);
    assert once == tasks[id := Updated(tasks[id], a.state, a.artifacts)];
  }

  class TaskStore {
    /** The stored tasks, by id. */
    var tasks: map<string, TaskRecord>
    /** Every write that found its task, oldest first: a record of the
        store's history kept for specification only. */
    ghost var writes: seq<Write>
    /** The tasks the store was created with. */
    ghost const initial: map<string, TaskRecord>

    /** The stored tasks are the initial ones with every write applied in
        order. */
    ghost predicate Valid()
      reads this
    {
      tasks == Apply(initial, writes)
    }

    /** A store holding the given tasks and no writes yet. */
    constructor(initial: map<string, TaskRecord>)
      ensures Valid()
      ensures this.initial == initial && tasks == initial && writes == []
    {
      this.initial := initial;
      tasks := initial;
      writes := [];
    }

    /** `update_task(task_id, state=..., artifacts=...)`: overwrite the state,
        and the artifacts when given, of a task the store holds; `found` is
        false, and nothing changes, for any other id (the store's lookup
        raises). */
    method UpdateTask(id: string, state: TaskState, artifacts: Option<seq<Artifact>>) returns (found: bool)
      requires Valid()
      modifies this
      ensures Valid()
      ensures found <==> id in old(tasks)
      ensures found ==> tasks == old(tasks)[id := Updated(old(tasks)[id], state, artifacts)]
      ensures found ==> writes == old(writes) + [Write(id, state, artifacts)]
      ensures !found ==> tasks == old(tasks) && writes == old(writes)
    {
      found := id in tasks;
      if found {
        ApplyAppend(initial, writes, Write(id, state, artifacts));
        tasks := tasks[id := Updated(tasks[id], state, artifacts)];
        writes := writes + [Write(id, state, artifacts)];
      }
    }
  }
}
