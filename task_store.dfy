/** The in-memory task store: a dictionary from task id to task record, written by
    `_set_task` and `_update_task` and read by `_get_task`. */
module TaskStore {
  import opened Values

  /** The store's contents: task id to task record. */
  type Tasks = map<string, Record>

  /** `_tasks[task_id] = payload`: inserts or replaces one record. */
  function Put(tasks: Tasks, id: string, payload: Record): (r: Tasks)
    ensures r.Keys == tasks.Keys + {id}
    ensures Lookup(r, id) == Some(payload)
    ensures forall other :: other != id ==> Lookup(r, other) == Lookup(tasks, other)
  {
    tasks[id := payload]
  }

  /** `_tasks[task_id].update(fields)` when the id is present, nothing otherwise. */
  function Merge(tasks: Tasks, id: string, fields: Record): (r: Tasks)
    ensures r.Keys == tasks.Keys
    ensures id !in tasks ==> r == tasks
    ensures id in tasks ==> r[id].Keys == tasks[id].Keys + fields.Keys
    ensures id in tasks ==> forall k :: k in fields ==> r[id][k] == fields[k]
    ensures id in tasks ==> forall k :: k in tasks[id] && k !in fields ==> r[id][k] == tasks[id][k]
    ensures forall other :: other in tasks && other != id ==> r[other] == tasks[other]
  {
    if id in tasks then tasks[id := tasks[id] + fields] else tasks
  }

  /** `_tasks.get(task_id)`: the record stored under the id, if any. */
  function Lookup(tasks: Tasks, id: string): (r: Option<Record>)
    ensures r.Some? <==> id in tasks
    ensures r.Some? ==> r.value == tasks[id]
  {
    if id in tasks then Some(tasks[id]) else None
  }

  /** Two merges into the same record are one merge of both field sets, the later winning. */
  lemma MergeTwice(tasks: Tasks, id: string, first: Record, second: Record)
    ensures Merge(Merge(tasks, id, first), id, second) == Merge(tasks, id, first + second)
  {
    if id in tasks {
      assert tasks[id] + first + second == tasks[id] + (first + second);
    }
  }

  /** Merging into a record just put is putting the merged record. */
  lemma PutThenMerge(tasks: Tasks, id: string, payload: Record, fields: Record)
    ensures Merge(Put(tasks, id, payload), id, fields) == Put(tasks, id, payload + fields)
  {
  }

  /** One call that writes to the store. */
  datatype Op = SetTask(id: string, payload: Record) | UpdateTask(id: string, fields: Record)

  /** The store after a sequence of calls, oldest first. */
  function Apply(tasks: Tasks, ops: seq<Op>): Tasks
    decreases |ops|
  {
    if ops == [] then tasks
    else
      var next := match ops[0]
        case SetTask(id, payload) => Put(tasks, id, payload)
        case UpdateTask(id, fields) => Merge(tasks, id, fields);
      Apply(next, ops[1..])
  }

  /** Some call of `ops` is a `_set_task` of `id`. */
  ghost predicate SetsId(ops: seq<Op>, id: string)
  {
    exists i :: 0 <= i < |ops| && ops[i].SetTask? && ops[i].id == id
  }

  /** No call removes a task. */
  lemma {:induction false} ApplyKeepsIds(tasks: Tasks, ops: seq<Op>)
    ensures tasks.Keys <= Apply(tasks, ops).Keys
    decreases |ops|
  {
    if ops != [] {
      var next := match ops[0]
        case SetTask(id, payload) => Put(tasks, id, payload)
        case UpdateTask(id, fields) => Merge(tasks, id, fields);
      ApplyKeepsIds(next, ops[1..]);
    }
  }

  /** Starting from a store without `id`, `_get_task(id)` finds nothing after a sequence
      of calls exactly when none of them was a `_set_task` of `id`: an update never
      creates a task. */
  lemma {:induction false} AbsentUntilSet(tasks: Tasks, ops: seq<Op>, id: string)
    requires id !in tasks
    ensures Lookup(Apply(tasks, ops), id) == None <==> !SetsId(ops, id)
    decreases |ops|
  {
    if ops != [] {
      var next := match ops[0]
        case SetTask(i, payload) => Put(tasks, i, payload)
        case UpdateTask(i, fields) => Merge(tasks, i, fields);
      assert Apply(tasks, ops) == Apply(next, ops[1..]);
      if ops[0].SetTask? && ops[0].id == id {
        ApplyKeepsIds(next, ops[1..]);
        assert SetsId(ops, id) by { assert ops[0].SetTask? && ops[0].id == id; }
      } else {
        assert id !in next;
        AbsentUntilSet(next, ops[1..], id);
        if SetsId(ops, id) {
          var i :| 0 <= i < |ops| && ops[i].SetTask? && ops[i].id == id;
          assert ops[1..][i - 1] == ops[i];
        }
        if SetsId(ops[1..], id) {
          var i :| 0 <= i < |ops[1..]| && ops[1..][i].SetTask? && ops[1..][i].id == id;
          assert ops[i + 1] == ops[1..][i];
        }
      }
    }
  }

  /** One effective write to the store: the id written and the record it then holds. */
  datatype Write = Write(id: string, record: Record)

  class Store {
    /** `_tasks`. */
    var tasks: Tasks
    /** Every effective write so far, oldest first, with the record it left. */
    ghost var writes: seq<Write>

    constructor ()
      ensures tasks == map[] && writes == []
    {
      tasks := map[];
      writes := [];
    }

    /** `_set_task`. */
    method Set(id: string, payload: Record)
      modifies this
      ensures tasks == Put(old(tasks), id, payload)
      ensures writes == old(writes) + [Write(id, payload)]
    {
      tasks := tasks[id := payload];
      writes := writes + [Write(id, payload)];
    }

    /** `_update_task`: a no-op on an absent id. */
    method Update(id: string, fields: Record)
      modifies this
      ensures tasks == Merge(old(tasks), id, fields)
      ensures id in old(tasks) ==> writes == old(writes) + [Write(id, tasks[id])]
      ensures id !in old(tasks) ==> writes == old(writes)
    {
      if id in tasks {
        tasks := tasks[id := tasks[id] + fields];
        writes := writes + [Write(id, tasks[id])];
      }
    }

    /** `_get_task`. */
    method Get(id: string) returns (r: Option<Record>)
      ensures r == Lookup(tasks, id)
    {
      r := if id in tasks then Some(tasks[id]) else None;
    }
  }
}
