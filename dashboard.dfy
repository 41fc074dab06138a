/**
 * The task board page: the client's copy of the task list, the pure list
 * updates it applies (optimistically or after the server answers), the three
 * status columns derived from it, and the handlers that drive them. Each
 * handler is one atomic step; the server's answer is an input.
 */
module Dashboard {
  import opened Wrappers
  import opened JsValues
  import opened JsArrays
  import opened TaskModel
  import TaskForm

  /** The column ids, which are also the statuses a drop writes. */
  const TO_DO := "To Do"
  const IN_PROGRESS := "In Progress"
  const DONE := "Done"

  const LOAD_FAILED := "Failed to load tasks. Please check your connection and try again."
  const MOVE_FAILED := "Failed to update task status. Please try again."
  const ADD_FAILED := "Failed to add task. Please try again."
  const UPDATE_FAILED := "Failed to update task. Please try again."
  const DELETE_FAILED := "Failed to delete task. There might be an issue with the server. Please check the backend logs."

  /** A task whose status is exactly one of the three column ids. */
  predicate OnBoard(t: Task) {
    t.status == Some(TO_DO) || t.status == Some(IN_PROGRESS) || t.status == Some(DONE)
  }

  /** No two tasks of the list share an id. */
  predicate DistinctIds(ts: seq<Task>) {
    forall i, j :: 0 <= i < j < |ts| ==> ts[i].id != ts[j].id
  }

  /** `tasks.find(t => t._id === id)`. */
  function FindById(ts: seq<Task>, id: Id): (r: Option<Task>)
    ensures r.None? <==> forall i :: 0 <= i < |ts| ==> ts[i].id != id
    ensures r.Some? ==> r.value in ts && r.value.id == id
  {
    Find(ts, (t: Task) => t.id == id)
  }

  /**
   * The optimistic move: every task with this id gets the new status; the
   * list keeps its length and order and every other task is untouched.
   */
  function WithStatus(ts: seq<Task>, id: Id, status: string): (r: seq<Task>)
    ensures |r| == |ts|
    ensures forall i :: 0 <= i < |ts| && ts[i].id != id ==> r[i] == ts[i]
    ensures forall i :: 0 <= i < |ts| && ts[i].id == id ==> r[i] == ts[i].(status := Some(status))
  {
    Mapped(ts, (t: Task) => if t.id == id then t.(status := Some(status)) else t)
  }

  /**
   * Reconciling an edit: every task with this id is replaced by the server's
   * copy, at the same position; the rest are untouched.
   */
  function ReplacedById(ts: seq<Task>, id: Id, updated: Task): (r: seq<Task>)
    ensures |r| == |ts|
    ensures forall i :: 0 <= i < |ts| && ts[i].id != id ==> r[i] == ts[i]
    ensures forall i :: 0 <= i < |ts| && ts[i].id == id ==> r[i] == updated
  {
    Mapped(ts, (t: Task) => if t.id == id then updated else t)
  }

  /**
   * The optimistic delete: every task with this id is gone, every other task
   * is kept, in its original relative order.
   */
  function Without(ts: seq<Task>, id: Id): (r: seq<Task>)
    ensures forall i :: 0 <= i < |r| ==> r[i].id != id
    ensures forall i :: 0 <= i < |ts| && ts[i].id != id ==> ts[i] in r
    ensures IsSubsequence(r, ts)
  {
    Filtered(ts, (t: Task) => t.id != id)
  }

  /**
   * The optimistic delete keeps every copy of every other task: as a
   * multiset, the list loses exactly the tasks with this id.
   */
  lemma WithoutKeepsEveryCopy(ts: seq<Task>, id: Id, t: Task)
    ensures multiset(Without(ts, id))[t] == if t.id == id then 0 else multiset(ts)[t]
  {
    FilteredKeepsEveryCopy(ts, (t: Task) => t.id != id, t);
  }

  /**
   * `tasks.filter(t => t.status === status)`: the tasks shown in one column,
   * exactly those with that status, in list order.
   */
  function Column(ts: seq<Task>, status: string): (r: seq<Task>)
    ensures forall i :: 0 <= i < |r| ==> r[i].status == Some(status)
    ensures forall i :: 0 <= i < |ts| && ts[i].status == Some(status) ==> ts[i] in r
  {
    Filtered(ts, (t: Task) => t.status == Some(status))
  }

  /** The tasks shown in no column. */
  function OffBoard(ts: seq<Task>): seq<Task> {
    Filtered(ts, (t: Task) => !OnBoard(t))
  }

  datatype Columns = Columns(todo: seq<Task>, inProgress: seq<Task>, done: seq<Task>)

  /**
   * The three column views. Each is an order-preserving subsequence of the
   * list holding exactly the tasks with that status, so no task is in two
   * columns and a task with any other status (or none) is in no column.
   */
  function ColumnsOf(ts: seq<Task>): (c: Columns)
    ensures IsSubsequence(c.todo, ts) && IsSubsequence(c.inProgress, ts) && IsSubsequence(c.done, ts)
    ensures forall i :: 0 <= i < |ts| ==> (ts[i] in c.todo <==> ts[i].status == Some(TO_DO))
    ensures forall i :: 0 <= i < |ts| ==> (ts[i] in c.inProgress <==> ts[i].status == Some(IN_PROGRESS))
    ensures forall i :: 0 <= i < |ts| ==> (ts[i] in c.done <==> ts[i].status == Some(DONE))
    ensures forall i, j :: 0 <= i < |c.todo| && 0 <= j < |c.inProgress| ==> c.todo[i] != c.inProgress[j]
    ensures forall i, j :: 0 <= i < |c.todo| && 0 <= j < |c.done| ==> c.todo[i] != c.done[j]
    ensures forall i, j :: 0 <= i < |c.inProgress| && 0 <= j < |c.done| ==> c.inProgress[i] != c.done[j]
    ensures forall i :: 0 <= i < |ts| && !OnBoard(ts[i]) ==>
      ts[i] !in c.todo && ts[i] !in c.inProgress && ts[i] !in c.done
  {
    Columns(Column(ts, TO_DO), Column(ts, IN_PROGRESS), Column(ts, DONE))
  }

  /**
   * The columns and the off-board rest split the list: together they hold
   * every task exactly as often as the list does.
   */
  lemma ColumnsPartition(ts: seq<Task>)
    ensures multiset(Column(ts, TO_DO)) + multiset(Column(ts, IN_PROGRESS)) + multiset(Column(ts, DONE))
            + multiset(OffBoard(ts)) == multiset(ts)
  {
    forall x: Task
      ensures multiset(Column(ts, TO_DO))[x] + multiset(Column(ts, IN_PROGRESS))[x] + multiset(Column(ts, DONE))[x]
              + multiset(OffBoard(ts))[x] == multiset(ts)[x]
    {
      FilteredKeepsEveryCopy(ts, (t: Task) => t.status == Some(TO_DO), x);
      FilteredKeepsEveryCopy(ts, (t: Task) => t.status == Some(IN_PROGRESS), x);
      FilteredKeepsEveryCopy(ts, (t: Task) => t.status == Some(DONE), x);
      FilteredKeepsEveryCopy(ts, (t: Task) => !OnBoard(t), x);
    }
  }

  /** When every status is a column id, no task is off the board. */
  lemma NothingOffBoard(ts: seq<Task>)
    requires forall i :: 0 <= i < |ts| ==> OnBoard(ts[i])
    ensures OffBoard(ts) == []
  {
  }

  /** When every status is a column id, the three columns together show the whole list. */
  lemma ColumnsCoverBoard(ts: seq<Task>)
    requires forall i :: 0 <= i < |ts| ==> OnBoard(ts[i])
    ensures |Column(ts, TO_DO)| + |Column(ts, IN_PROGRESS)| + |Column(ts, DONE)| == |ts|
  {
    var a, b, c := Column(ts, TO_DO), Column(ts, IN_PROGRESS), Column(ts, DONE);
    ColumnsPartition(ts);
    NothingOffBoard(ts);
    assert multiset(a) + multiset(b) + multiset(c) == multiset(ts);
    assert |multiset(a)| == |a| && |multiset(b)| == |b| && |multiset(c)| == |c|;
  }

  /**
   * After a move of a listed task to a column, that task shows in the target
   * column and no task with its id shows in either of the other two.
   */
  lemma MovedTaskShowsInTarget(ts: seq<Task>, k: nat, target: string)
    requires k < |ts|
    requires target == TO_DO || target == IN_PROGRESS || target == DONE
    ensures var r := WithStatus(ts, ts[k].id, target);
      && (exists i :: 0 <= i < |Column(r, target)| && Column(r, target)[i].id == ts[k].id)
      && forall other :: other in [TO_DO, IN_PROGRESS, DONE] && other != target ==>
           forall i :: 0 <= i < |Column(r, other)| ==> Column(r, other)[i].id != ts[k].id
  {
    var r := WithStatus(ts, ts[k].id, target);
    assert r[k].status == Some(target);
    assert r[k] in Column(r, target);
  }

  /** Part of a list whose ids are distinct has distinct ids too. */
  lemma {:induction false} SubsequenceDistinctIds(a: seq<Task>, b: seq<Task>)
    requires IsSubsequence(a, b) && DistinctIds(b)
    ensures DistinctIds(a)
    decreases |b|
  {
    if a != [] && b != [] {
      assert DistinctIds(b[1..]) by {
        assert forall i :: 0 <= i < |b[1..]| ==> b[1..][i] == b[i + 1];
      }
      if a[0] == b[0] {
        SubsequenceDistinctIds(a[1..], b[1..]);
        SubsequenceMembers(a[1..], b[1..]);
        forall i, j | 0 <= i < j < |a| ensures a[i].id != a[j].id {
          assert a[j] == a[1..][j - 1];
          if i == 0 {
            var k :| 0 <= k < |b[1..]| && b[1..][k] == a[j];
            assert b[k + 1] == a[j];
          } else {
            assert a[i] == a[1..][i - 1];
          }
        }
      } else {
        SubsequenceDistinctIds(a, b[1..]);
      }
    }
  }

  /**
   * With distinct ids, the moved task shows exactly once in the target
   * column: one entry there has its id and no other entry does.
   */
  lemma MovedTaskShowsOnceInTarget(ts: seq<Task>, k: nat, target: string)
    requires k < |ts| && DistinctIds(ts)
    requires target == TO_DO || target == IN_PROGRESS || target == DONE
    ensures var col := Column(WithStatus(ts, ts[k].id, target), target);
      exists i :: 0 <= i < |col| && col[i].id == ts[k].id &&
        forall j :: 0 <= j < |col| && j != i ==> col[j].id != ts[k].id
  {
    var r := WithStatus(ts, ts[k].id, target);
    MovedTaskShowsInTarget(ts, k, target);
    assert DistinctIds(r);
    SubsequenceDistinctIds(Column(r, target), r);
  }

  /**
   * The status values the task form offers by default match no column id, so
   * a task saved with one of them disappears from the board.
   */
  lemma FormStatusesOffBoard(ts: seq<Task>)
    ensures forall o :: o in TaskForm.DEFAULT_STATUS_OPTIONS ==> o != TO_DO && o != IN_PROGRESS && o != DONE
    ensures forall i :: 0 <= i < |ts| && ts[i].status.Some? && ts[i].status.value in TaskForm.DEFAULT_STATUS_OPTIONS ==>
      var c := ColumnsOf(ts); ts[i] !in c.todo && ts[i] !in c.inProgress && ts[i] !in c.done
  {
  }

  /**
   * Where a drag ended: the element under the pointer and, when that element
   * sits in a sortable list, the list's id.
   */
  datatype DropTarget = DropTarget(id: string, containerId: Field)

  /** A PATCH /api/tasks/:id/move request. */
  datatype MoveRequest = MoveRequest(id: Id, status: string)

  /** The column a drop lands in: `over.containerId || over.id`. */
  function DropColumn(over: DropTarget): (column: string)
    ensures Truthy(over.containerId) ==> column == over.containerId.value
    ensures !Truthy(over.containerId) ==> column == over.id
  {
    OrElse(over.containerId, over.id)
  }

  /** The board page's state. */
  class Board {
    var tasks: seq<Task>
    var loading: bool
    var error: Option<string>
    var showTaskForm: bool
    var editingTask: Option<Task>
    var activeId: Option<Id>

    constructor ()
      ensures tasks == [] && loading && error == None
      ensures !showTaskForm && editingTask == None && activeId == None
    {
      tasks := [];
      loading := true;
      error := None;
      showTaskForm := false;
      editingTask := None;
      activeId := None;
    }

    /** The fetch run once on mount: the list, or the load error; loading ends either way. */
    method LoadOnMount(fetched: Option<seq<Task>>)
      modifies this
      ensures fetched.Some? ==> tasks == fetched.value && error == old(error)
      ensures fetched.None? ==> tasks == old(tasks) && error == Some(LOAD_FAILED)
      ensures !loading
      ensures showTaskForm == old(showTaskForm) && editingTask == old(editingTask) && activeId == old(activeId)
    {
      if fetched.Some? {
        tasks := fetched.value;
      } else {
        error := Some(LOAD_FAILED);
      }
      loading := false;
    }

    method HandleDragStart(id: Id)
      modifies this
      ensures activeId == Some(id)
      ensures tasks == old(tasks) && error == old(error) && loading == old(loading)
      ensures showTaskForm == old(showTaskForm) && editingTask == old(editingTask)
    {
      activeId := Some(id);
    }

    /**
     * A drag of task `taskId` out of list `source` ended over `over`; the
     * move request, if one is sent, succeeds iff `moveSucceeds`. A drop
     * outside any target, or into the same list, sends nothing and leaves the
     * list alone; so does a drop of an id the list does not hold. Otherwise
     * the task's status becomes the target column at once, the request is
     * sent, and a failed request restores the list captured before the drag
     * ended and sets the error. The dragged id is cleared except on the two
     * early returns.
     */
    method HandleDragEnd(taskId: Id, source: Field, over: Option<DropTarget>, moveSucceeds: bool)
      returns (request: Option<MoveRequest>)
      modifies this
      ensures loading == old(loading) && showTaskForm == old(showTaskForm) && editingTask == old(editingTask)
      ensures over.None? ==>
        request == None && tasks == old(tasks) && error == old(error) && activeId == old(activeId)
      ensures over.Some? && source == Some(DropColumn(over.value)) ==>
        request == None && tasks == old(tasks) && error == old(error) && activeId == None
      ensures over.Some? && source != Some(DropColumn(over.value)) && FindById(old(tasks), taskId).None? ==>
        request == None && tasks == old(tasks) && error == old(error) && activeId == old(activeId)
      ensures over.Some? && source != Some(DropColumn(over.value)) && FindById(old(tasks), taskId).Some? ==>
        var target := DropColumn(over.value);
        && request == Some(MoveRequest(taskId, target))
        && activeId == None
        && (moveSucceeds ==> tasks == WithStatus(old(tasks), taskId, target) && error == old(error))
        && (!moveSucceeds ==> tasks == old(tasks) && error == Some(MOVE_FAILED))
    {
      request := None;
      if over.None? {
        return;
      }
      var target := DropColumn(over.value);
      if source == Some(target) {
        activeId := None;
        return;
      }
      var found := FindById(tasks, taskId);
      if found.None? {
        return;
      }
      var snapshot := tasks;
      tasks := WithStatus(snapshot, taskId, target);
      request := Some(MoveRequest(taskId, target));
      if !moveSucceeds {
        tasks := snapshot;
        error := Some(MOVE_FAILED);
      }
      activeId := None;
    }

    /** Creating a task: on success the server's task is appended and the form closes. */
    method AddTask(created: Option<Task>)
      modifies this
      ensures created.Some? ==>
        tasks == old(tasks) + [created.value] && !showTaskForm && error == old(error)
      ensures created.None? ==>
        tasks == old(tasks) && showTaskForm == old(showTaskForm) && error == Some(ADD_FAILED)
      ensures loading == old(loading) && editingTask == old(editingTask) && activeId == old(activeId)
    {
      if created.Some? {
        tasks := tasks + [created.value];
        showTaskForm := false;
      } else {
        error := Some(ADD_FAILED);
      }
    }

    /**
     * Editing task `id`: on success every task with that id is replaced by
     * the server's copy and the form closes; on failure only the error is set.
     */
    method UpdateTask(id: Id, updated: Option<Task>)
      modifies this
      ensures updated.Some? ==>
        tasks == ReplacedById(old(tasks), id, updated.value) && editingTask == None && !showTaskForm &&
        error == old(error)
      ensures updated.None? ==>
        tasks == old(tasks) && editingTask == old(editingTask) && showTaskForm == old(showTaskForm) &&
        error == Some(UPDATE_FAILED)
      ensures loading == old(loading) && activeId == old(activeId)
    {
      if updated.Some? {
        tasks := ReplacedById(tasks, id, updated.value);
        editingTask := None;
        showTaskForm := false;
      } else {
        error := Some(UPDATE_FAILED);
      }
    }

    /**
     * Deleting task `id`: the task leaves the list at once. If the request
     * fails, the list is refetched (it stays as it is when the refetch fails
     * too) and the error is set.
     */
    method DeleteTask(id: Id, deleteSucceeds: bool, refetched: Option<seq<Task>>)
      modifies this
      ensures deleteSucceeds ==> tasks == Without(old(tasks), id) && error == old(error)
      ensures !deleteSucceeds ==>
        tasks == (if refetched.Some? then refetched.value else Without(old(tasks), id)) &&
        error == Some(DELETE_FAILED)
      ensures loading == old(loading) && showTaskForm == old(showTaskForm)
      ensures editingTask == old(editingTask) && activeId == old(activeId)
    {
      tasks := Without(tasks, id);
      if !deleteSucceeds {
        FetchTasks(refetched);
        error := Some(DELETE_FAILED);
      }
    }

    /** The refresh used after a failed delete: a failed refresh changes nothing. */
    method FetchTasks(fetched: Option<seq<Task>>)
      modifies this
      ensures tasks == (if fetched.Some? then fetched.value else old(tasks))
      ensures error == old(error) && loading == old(loading) && showTaskForm == old(showTaskForm)
      ensures editingTask == old(editingTask) && activeId == old(activeId)
    {
      if fetched.Some? {
        tasks := fetched.value;
      }
    }

    /** Opening the form on an existing task. */
    method HandleEditTask(task: Task)
      modifies this
      ensures editingTask == Some(task) && showTaskForm
      ensures tasks == old(tasks) && error == old(error) && loading == old(loading) && activeId == old(activeId)
    {
      editingTask := Some(task);
      showTaskForm := true;
    }
  }
}
