/** The royalty optimizer's action list: toggling a task through the store
    and adopting the returned record, and Refresh Plan, which appends a task
    locally only. The new task's id (a clock reading) is a parameter. */
module Optimizer {
  import opened Wrappers
  import opened Types
  import opened Tables
  import MockDb

  const RefreshDescription := "Register 'Broken Strings' with MLC"

  /** One `toggleTask(id)`: the store toggles, and if it returns a record the
      local entries with that id are replaced by it. The pair is the new
      local list and the new store table. */
  function ToggleStep(local: seq<Task>, store: seq<Task>, id: string): (r: (seq<Task>, seq<Task>))
    ensures r.1 == MockDb.ToggleTasks(store, id)
    ensures |r.0| == |local|
    ensures forall i :: 0 <= i < |local| && local[i].id != id ==> r.0[i] == local[i]
    ensures MockDb.TaskWithId(store, id).None? ==> r == (local, store)
    ensures MockDb.TaskWithId(store, id).Some? ==> forall i :: 0 <= i < |local| && local[i].id == id ==>
              r.0[i] == MockDb.Flip(MockDb.TaskWithId(store, id).value)
  {
    var store' := MockDb.ToggleTasks(store, id);
    MockDb.ToggleTasksReturned(store, id);
    if MockDb.TaskWithId(store, id).None? then
      MockDb.ToggleTasksUnknownId(store, id);
      (local, store')
    else
      (ReplaceWhere(local, MockDb.TaskHasId(id), MockDb.TaskWithId(store', id).value), store')
  }

  /** The local entries with `id` hold the store's record for `id`. */
  predicate InSync(local: seq<Task>, store: seq<Task>, id: string) {
    forall i :: 0 <= i < |local| && local[i].id == id ==> MockDb.TaskWithId(store, id) == Some(local[i])
  }

  /** Toggling a stored task twice restores both the store and the local list. */
  lemma ToggleStepTwice(local: seq<Task>, store: seq<Task>, id: string)
    requires InSync(local, store, id)
    ensures var (l1, s1) := ToggleStep(local, store, id);
            ToggleStep(l1, s1, id) == (local, store)
  {
    var (l1, s1) := ToggleStep(local, store, id);
    MockDb.ToggleTasksTwice(store, id);
    match MockDb.TaskWithId(store, id)
    case None =>
    case Some(t) =>
      MockDb.ToggleTasksReturned(store, id);
      MockDb.ToggleTasksReturned(s1, id);
      var p := MockDb.TaskHasId(id);
      ReplaceWhereTwice(local, p, MockDb.Flip(t), t);
      ReplaceWhereSame(local, p, t);
  }

  /** A task that Refresh Plan added, whose id the store does not know, can
      never be toggled: the store returns nothing and both lists stay as they are. */
  lemma RefreshedTaskNeverToggles(local: seq<Task>, store: seq<Task>, newId: string)
    requires forall i :: 0 <= i < |store| ==> store[i].id != newId
    ensures var l := local + [Task(newId, RefreshDescription, false)];
            ToggleStep(l, store, newId) == (l, store)
  {
    MockDb.ToggleTasksUnknownId(store, newId);
  }

  /** The state the optimizer page holds. */
  class OptimizerPage {
    var tasks: seq<Task>

    constructor ()
      ensures tasks == []
    {
      tasks := [];
    }

    method Load(db: MockDb.Store)
      modifies this
      ensures tasks == db.tasks
    {
      tasks := db.TasksGetAll();
    }

    /** `toggleTask`. */
    method ToggleTask(db: MockDb.Store, id: string)
      modifies this, db`tasks
      ensures (tasks, db.tasks) == ToggleStep(old(tasks), old(db.tasks), id)
    {
      var updated := db.TasksToggle(id);
      if updated.Some? {
        tasks := ReplaceWhere(tasks, MockDb.TaskHasId(id), updated.value);
      }
    }

    /** Refresh Plan: one new, not completed task at the end; the store is untouched. */
    method RefreshPlan(newId: string)
      modifies this
      ensures tasks == old(tasks) + [Task(newId, RefreshDescription, false)]
    {
      tasks := tasks + [Task(newId, RefreshDescription, false)];
    }
  }
}
