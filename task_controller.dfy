/**
 * The backend task handlers (create, list, update, move, delete). The
 * document collection is a map from id to task held by a `TaskStore`; each
 * handler is one atomic step that returns the HTTP reply it would send.
 * Whether the store throws is an input (`StoreFault`).
 */
module TaskController {
  import opened Wrappers
  import opened JsValues
  import opened TaskModel

  /** The JSON request body of a create, update or move request. */
  datatype TaskBody = TaskBody(title: Field, description: Field, assignedTo: Field, status: Field)

  /**
   * What the store does on this request: nothing goes wrong, or its lookup
   * (`find`, `findById`) throws, or its write (`create`, `save`, `deleteOne`)
   * throws, each with the error's message.
   */
  datatype StoreFault = NoFault | ReadFails(message: string) | WriteFails(message: string)

  datatype ReplyBody = OneTask(task: Task) | TaskList(tasks: seq<Task>) | Message(text: string)

  /** An HTTP status code and its JSON body. */
  datatype Reply = Reply(code: int, body: ReplyBody)

  const NOT_FOUND := "Task not found"
  const DELETED := "Task deleted successfully"

  /** The reply to a request whose store call threw with `message`. */
  function ServerError(message: string): Reply {
    Reply(500, Message(message))
  }

  /**
   * The task after an update request: each of title, description, assignedTo
   * and status is `body.field || task.field`.
   */
  function Merged(t: Task, body: TaskBody): (r: Task)
    ensures r.id == t.id && r.createdBy == t.createdBy
    ensures r.title in {t.title, body.title} && r.description in {t.description, body.description}
    ensures r.assignedTo in {t.assignedTo, body.assignedTo} && r.status in {t.status, body.status}
  {
    t.(title := Or(body.title, t.title),
       description := Or(body.description, t.description),
       assignedTo := Or(body.assignedTo, t.assignedTo),
       status := Or(body.status, t.status))
  }

  /** A body none of whose fields is truthy: missing values and empty strings only. */
  predicate NothingToSet(body: TaskBody) {
    !Truthy(body.title) && !Truthy(body.description) && !Truthy(body.assignedTo) && !Truthy(body.status)
  }

  /** An update whose body sets nothing leaves the task exactly as it was. */
  lemma MergeNothingIsIdentity(t: Task, body: TaskBody)
    requires NothingToSet(body)
    ensures Merged(t, body) == t
  {
  }

  /**
   * An update replaces a field by the body's value exactly when that value is
   * a non-empty string, and never touches the id or the creator.
   */
  lemma MergeFieldwise(t: Task, body: TaskBody)
    ensures Merged(t, body).id == t.id && Merged(t, body).createdBy == t.createdBy
    ensures Merged(t, body).title == (if Truthy(body.title) then body.title else t.title)
    ensures Merged(t, body).description == (if Truthy(body.description) then body.description else t.description)
    ensures Merged(t, body).assignedTo == (if Truthy(body.assignedTo) then body.assignedTo else t.assignedTo)
    ensures Merged(t, body).status == (if Truthy(body.status) then body.status else t.status)
  {
  }

  /** An update can never clear a field: a truthy field stays truthy. */
  lemma MergeNeverClears(t: Task, body: TaskBody)
    ensures Truthy(t.title) ==> Truthy(Merged(t, body).title)
    ensures Truthy(t.description) ==> Truthy(Merged(t, body).description)
    ensures Truthy(t.assignedTo) ==> Truthy(Merged(t, body).assignedTo)
    ensures Truthy(t.status) ==> Truthy(Merged(t, body).status)
  {
  }

  /** Sending the same update twice has the effect of sending it once. */
  lemma MergeIdempotent(t: Task, body: TaskBody)
    ensures Merged(Merged(t, body), body) == Merged(t, body)
  {
  }

  /** The task collection and the five request handlers over it. */
  class TaskStore {
    var tasks: map<Id, Task>

    /** Every stored task carries the id it is stored under. */
    ghost predicate Valid()
      reads this
    {
      forall id :: id in tasks ==> tasks[id].id == id
    }

    constructor ()
      ensures Valid() && tasks == map[]
    {
      tasks := map[];
    }

    /**
     * POST /api/tasks. The new task gets title, description and assignedTo
     * from the body, the authenticated user as creator, the fresh id the
     * store generates and whatever status the store's schema gives a new
     * document; the body's status is not copied.
     */
    method CreateTask(body: TaskBody, userId: Id, newId: Id, schemaStatus: Field, fault: StoreFault)
      returns (reply: Reply)
      requires Valid() && newId !in tasks
      modifies this
      ensures Valid()
      ensures fault.WriteFails? ==> reply == ServerError(fault.message) && tasks == old(tasks)
      ensures !fault.WriteFails? ==>
        var t := Task(newId, body.title, body.description, body.assignedTo, schemaStatus, userId);
        reply == Reply(201, OneTask(t)) && tasks == old(tasks)[newId := t]
    {
      if fault.WriteFails? {
        return ServerError(fault.message);
      }
      var t := Task(newId, body.title, body.description, body.assignedTo, schemaStatus, userId);
      tasks := tasks[newId := t];
      reply := Reply(201, OneTask(t));
    }

    /**
     * GET /api/tasks: every stored task, unfiltered, each exactly once, in the
     * store's native enumeration order `order`.
     */
    method GetTasks(order: seq<Id>, fault: StoreFault) returns (reply: Reply)
      requires Valid()
      requires forall id :: id in tasks <==> id in order
      requires forall i, j :: 0 <= i < j < |order| ==> order[i] != order[j]
      ensures fault.ReadFails? ==> reply == ServerError(fault.message)
      ensures !fault.ReadFails? ==> reply.code == 200 && reply.body.TaskList? && |reply.body.tasks| == |order|
      ensures !fault.ReadFails? ==> forall i :: 0 <= i < |order| ==> reply.body.tasks[i].id == order[i]
      ensures !fault.ReadFails? ==>
        (forall t :: t in reply.body.tasks <==> t in tasks.Values) &&
        (forall i, j :: 0 <= i < j < |reply.body.tasks| ==> reply.body.tasks[i].id != reply.body.tasks[j].id)
    {
      if fault.ReadFails? {
        return ServerError(fault.message);
      }
      var m := tasks;
      var list := seq(|order|, i requires 0 <= i < |order| => m[order[i]]);
      forall i | 0 <= i < |list| ensures list[i] in m.Values && list[i].id == order[i] {
        assert m[order[i]] in m.Values;
      }
      forall t | t in m.Values ensures t in list {
        var id :| id in m && m[id] == t;
        var i :| 0 <= i < |order| && order[i] == id;
        assert list[i] == t;
      }
      reply := Reply(200, TaskList(list));
    }

    /**
     * PUT /api/tasks/:id. An unknown id is answered 404 and nothing changes;
     * otherwise the merged task is saved and returned.
     */
    method UpdateTask(id: Id, body: TaskBody, fault: StoreFault) returns (reply: Reply)
      requires Valid()
      modifies this
      ensures Valid()
      ensures fault.ReadFails? ==> reply == ServerError(fault.message) && tasks == old(tasks)
      ensures !fault.ReadFails? && id !in old(tasks) ==>
        reply == Reply(404, Message(NOT_FOUND)) && tasks == old(tasks)
      ensures fault.WriteFails? && id in old(tasks) ==>
        reply == ServerError(fault.message) && tasks == old(tasks)
      ensures fault.NoFault? && id in old(tasks) ==>
        var t := Merged(old(tasks)[id], body);
        reply == Reply(200, OneTask(t)) && tasks == old(tasks)[id := t]
    {
      if fault.ReadFails? {
        return ServerError(fault.message);
      }
      if id !in tasks {
        return Reply(404, Message(NOT_FOUND));
      }
      var t := Merged(tasks[id], body);
      if fault.WriteFails? {
        return ServerError(fault.message);
      }
      tasks := tasks[id := t];
      reply := Reply(200, OneTask(t));
    }

    /**
     * DELETE /api/tasks/:id. An unknown id is answered 404; otherwise the
     * task is removed and the others are left alone.
     */
    method DeleteTask(id: Id, fault: StoreFault) returns (reply: Reply)
      requires Valid()
      modifies this
      ensures Valid()
      ensures fault.ReadFails? ==> reply == ServerError(fault.message) && tasks == old(tasks)
      ensures !fault.ReadFails? && id !in old(tasks) ==>
        reply == Reply(404, Message(NOT_FOUND)) && tasks == old(tasks)
      ensures fault.WriteFails? && id in old(tasks) ==>
        reply == ServerError(fault.message) && tasks == old(tasks)
      ensures fault.NoFault? && id in old(tasks) ==>
        reply == Reply(200, Message(DELETED)) && tasks == old(tasks) - {id}
    {
      if fault.ReadFails? {
        return ServerError(fault.message);
      }
      if id !in tasks {
        return Reply(404, Message(NOT_FOUND));
      }
      if fault.WriteFails? {
        return ServerError(fault.message);
      }
      tasks := tasks - {id};
      reply := Reply(200, Message(DELETED));
    }

    /**
     * PATCH /api/tasks/:id/move. An unknown id is answered 404; otherwise the
     * status becomes the body's value, whatever it is (even missing or
     * outside the three board columns), and no other field changes.
     */
    method MoveTask(id: Id, status: Field, fault: StoreFault) returns (reply: Reply)
      requires Valid()
      modifies this
      ensures Valid()
      ensures fault.ReadFails? ==> reply == ServerError(fault.message) && tasks == old(tasks)
      ensures !fault.ReadFails? && id !in old(tasks) ==>
        reply == Reply(404, Message(NOT_FOUND)) && tasks == old(tasks)
      ensures fault.WriteFails? && id in old(tasks) ==>
        reply == ServerError(fault.message) && tasks == old(tasks)
      ensures fault.NoFault? && id in old(tasks) ==>
        var t := old(tasks)[id].(status := status);
        reply == Reply(200, OneTask(t)) && tasks == old(tasks)[id := t]
    {
      if fault.ReadFails? {
        return ServerError(fault.message);
      }
      if id !in tasks {
        return Reply(404, Message(NOT_FOUND));
      }
      var t := tasks[id].(status := status);
      if fault.WriteFails? {
        return ServerError(fault.message);
      }
      tasks := tasks[id := t];
      reply := Reply(200, OneTask(t));
    }
  }

  /** Deleting the same id twice: the second request finds nothing and is answered 404. */
  method DeleteTwice(store: TaskStore, id: Id) returns (first: Reply, second: Reply)
    requires store.Valid() && id in store.tasks
    modifies store
    ensures first == Reply(200, Message(DELETED)) && second == Reply(404, Message(NOT_FOUND))
    ensures store.tasks == old(store.tasks) - {id}
  {
    first := store.DeleteTask(id, NoFault);
    second := store.DeleteTask(id, NoFault);
  }
}
