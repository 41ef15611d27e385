/** The mock REST handlers of src/mocks/handlers.js: an in-memory task table
    kept as a JSON array under the localStorage key `tasks`. Each handler reads
    the stored list, changes it and writes it back. The clock reading `now` is
    an input; the artificial response delay is not modelled. */
module MockHandlers {
  import opened Js
  import opened Seqs

  /** The `tasks` entry of localStorage, as `JSON.parse(getItem('tasks') || '[]')`
      sees it: `Missing` covers a null or empty entry (read as `[]`),
      `Garbled` a text that does not parse. */
  datatype Stored = Missing | Garbled | List(tasks: seq<Record>)

  /** A response body: a list of records or one record. */
  datatype Body = Records(items: seq<Record>) | Object(fields: Record)

  datatype Response = Response(status: int, body: Body)

  function ErrorBody(message: string): Body {
    Object(map["error" := Str(message)])
  }

  /** The list a handler works on; `None` when parsing it throws. */
  function Parsed(stored: Stored): (r: Option<seq<Record>>)
    ensures stored.Missing? ==> r == Some([])
    ensures stored.Garbled? <==> r.None?
  {
    match stored
    case Missing => Some([])
    case Garbled => None
    case List(tasks) => Some(tasks)
  }

  /** `const { id } = req.params` compared with `t.id === id`. */
  function IdIs(id: string): Record -> bool {
    t => Get(t, "id") == Str(id)
  }

  function IdIsNot(id: string): Record -> bool {
    t => Get(t, "id") != Str(id)
  }

  /** The record POST creates: server defaults for `id`, `createdAt` and
      `completed`, each overridden by the request body when it supplies one. */
  function NewRecord(body: Record, now: int): (r: Record)
    ensures Get(r, "id") == (if "id" in body then body["id"] else Str(Decimal(now)))
    ensures Get(r, "createdAt") == (if "createdAt" in body then body["createdAt"] else DateText(now))
    ensures Get(r, "completed") == (if "completed" in body then body["completed"] else Bool(false))
    ensures forall k :: k in body ==> Get(r, k) == body[k]
    ensures r.Keys == body.Keys + {"id", "createdAt", "completed"}
  {
    map["id" := Str(Decimal(now)), "createdAt" := DateText(now), "completed" := Bool(false)] + body
  }

  /** The record PUT stores: the old record, overwritten by the updates, with
      the server's `updatedAt` winning over any the client sent. */
  function Merged(current: Record, updates: Record, now: int): (r: Record)
    ensures Get(r, "updatedAt") == DateText(now)
    ensures forall k :: k != "updatedAt" ==> Get(r, k) == (if k in updates then updates[k] else Get(current, k))
  {
    current + updates + map["updatedAt" := DateText(now)]
  }

  /** The handlers, over the stored table. */
  class MockApi {
    var stored: Stored

    constructor (stored: Stored)
      ensures this.stored == stored
    {
      this.stored := stored;
    }

    /** `GET /api/tasks`: the stored list with status 200 (`[]` when there is
      none), or 500 when it does not parse. */
    method GetTasks() returns (response: Response)
      ensures stored.Garbled? ==> response == Response(500, ErrorBody("Failed to fetch tasks"))
      ensures stored.Missing? ==> response == Response(200, Records([]))
      ensures stored.List? ==> response == Response(200, Records(stored.tasks))
    {
      match Parsed(stored) {
        case None =>
          return Response(500, ErrorBody("Failed to fetch tasks"));
        case Some(tasks) =>
          return Response(200, Records(tasks));
      }
    }

    /** `POST /api/tasks`: appends exactly one new record and returns it with
      status 201. `body == None` is a request body that does not parse. */
    method CreateTask(body: Option<Record>, now: int) returns (response: Response)
      modifies this
      ensures body.None? || old(stored).Garbled? ==>
        response == Response(400, ErrorBody("Invalid task data")) && stored == old(stored)
      ensures body.Some? && !old(stored).Garbled? ==>
        stored == List(Parsed(old(stored)).value + [NewRecord(body.value, now)]) &&
        response == Response(201, Object(NewRecord(body.value, now)))
    {
      if body.None? {
        return Response(400, ErrorBody("Invalid task data"));
      }
      var newTask := NewRecord(body.value, now);
      match Parsed(stored) {
        case None =>
          return Response(400, ErrorBody("Invalid task data"));
        case Some(tasks) =>
          var updated := tasks + [newTask];
          stored := List(updated);
          return Response(201, Object(newTask));
      }
    }

    /** `PUT /api/tasks/:id`: merges the updates into the first record with that
      id and returns it; 404 with storage untouched when no record has it. */
    method UpdateTask(id: string, body: Option<Record>, now: int) returns (response: Response)
      modifies this
      ensures body.None? || old(stored).Garbled? ==>
        response == Response(400, ErrorBody("Invalid update data")) && stored == old(stored)
      ensures body.Some? && !old(stored).Garbled? && FindIndex(Parsed(old(stored)).value, IdIs(id)) == -1 ==>
        response == Response(404, ErrorBody("Task not found")) && stored == old(stored)
      ensures body.Some? && !old(stored).Garbled? && FindIndex(Parsed(old(stored)).value, IdIs(id)) != -1 ==>
        var tasks := Parsed(old(stored)).value;
        var i := FindIndex(tasks, IdIs(id));
        stored == List(tasks[i := Merged(tasks[i], body.value, now)]) &&
        response == Response(200, Object(Merged(tasks[i], body.value, now)))
    {
      if body.None? {
        return Response(400, ErrorBody("Invalid update data"));
      }
      match Parsed(stored) {
        case None =>
          return Response(400, ErrorBody("Invalid update data"));
        case Some(tasks) =>
          var taskIndex := FindIndex(tasks, IdIs(id));
          if taskIndex == -1 {
            return Response(404, ErrorBody("Task not found"));
          }
          var merged := Merged(tasks[taskIndex], body.value, now);
          var updated := tasks[taskIndex := merged];
          stored := List(updated);
          return Response(200, Object(updated[taskIndex]));
      }
    }

    /** `DELETE /api/tasks/:id`: drops every record with that id and answers
      200 `{success: true, id}`, whether or not one matched. */
    method DeleteTask(id: string) returns (response: Response)
      modifies this
      ensures old(stored).Garbled? ==>
        response == Response(500, ErrorBody("Failed to delete task")) && stored == old(stored)
      ensures !old(stored).Garbled? ==>
        stored == List(Filter(Parsed(old(stored)).value, IdIsNot(id))) &&
        response == Response(200, Object(map["success" := Bool(true), "id" := Str(id)]))
    {
      match Parsed(stored) {
        case None =>
          return Response(500, ErrorBody("Failed to delete task"));
        case Some(tasks) =>
          var filtered := Filter(tasks, IdIsNot(id));
          stored := List(filtered);
          return Response(200, Object(map["success" := Bool(true), "id" := Str(id)]));
      }
    }
  }

  /** PUT changes one record and nothing else: the length is kept and every
      other record is the same. */
  lemma {:induction false} UpdateTouchesOneRecord(tasks: seq<Record>, id: string, updates: Record, now: int)
    requires FindIndex(tasks, IdIs(id)) != -1
    ensures var i := FindIndex(tasks, IdIs(id));
      var after := tasks[i := Merged(tasks[i], updates, now)];
      |after| == |tasks| &&
      (forall j :: 0 <= j < |tasks| && j != i ==> after[j] == tasks[j]) &&
      Get(after[i], "id") == (if "id" in updates then updates["id"] else Str(id))
  {
    var i := FindIndex(tasks, IdIs(id));
    assert IdIs(id)(tasks[i]);
  }

  /** DELETE keeps the other records in order: on a list split anywhere, it
      deletes from each part separately; and it removes every record with the id. */
  lemma {:induction false} DeleteKeepsOthers(a: seq<Record>, b: seq<Record>, id: string)
    ensures Filter(a + b, IdIsNot(id)) == Filter(a, IdIsNot(id)) + Filter(b, IdIsNot(id))
    ensures forall j :: 0 <= j < |Filter(a + b, IdIsNot(id))| ==> Get(Filter(a + b, IdIsNot(id))[j], "id") != Str(id)
  {
    FilterAppend(a, b, IdIsNot(id));
  }
}
