/**
 * Looking a task up in the replies of Celery's remote inspection
 * (celery_singleton/inspect_celery.py).  A reply maps each worker that
 * answered to its payload, in the order the answers came; it is None when no
 * worker answered.  Payloads are JSON values; the searches index and iterate
 * them the way Python does, and report the exception Python would raise.
 */
module InspectCelery {
  import opened Wrappers
  import opened Py
  import opened KeyOrder
  import opened Json

  /** The fields the lookup copies from a matching task record. */
  datatype CeleryTask = CeleryTask(id: Json, name: Json, args: Json, kwargs: Json)

  /** The reply of one inspection call. */
  type Reply = Option<seq<Entry<Json>>>

  /** What one search returns: a task, None, or the exception it raised. */
  type Search = Result<Option<CeleryTask>, PyError>

  /** Python truth value of a JSON value. */
  predicate Truthy(j: Json)
  {
    match j
    case Null => false
    case Bool(b) => b
    case Int(i) => i != 0
    case Str(s) => s != ""
    case Array(items) => items != []
    case Object(es) => es != []
  }

  /** `value[key]`: only a dict holding the key can be indexed by a str. */
  function Subscript(j: Json, key: string): (r: Result<Json, PyError>)
    ensures r.Success? ==> j.Object? && Lookup(j.entries, key) == Some(r.value)
    ensures j.Object? && Lookup(j.entries, key).None? ==> r == Failure(KeyError(key))
    ensures !j.Object? ==> r == Failure(TypeError)
  {
    match j
    case Object(es) =>
      (match Lookup(es, key)
       case Some(v) => Success(v)
       case None => Failure(KeyError(key)))
    case _ => Failure(TypeError)
  }

  /** `for x in value`: a list yields its items, a dict its keys, a str its
      characters; anything else cannot be iterated. */
  function Iterate(j: Json): (r: Result<seq<Json>, PyError>)
    ensures j.Array? ==> r == Success(j.items)
    ensures j.Object? ==>
      (r.Success? && |r.value| == |j.entries| &&
       forall i :: 0 <= i < |j.entries| ==> r.value[i] == Str(j.entries[i].key))
    ensures j.Str? ==>
      (r.Success? && |r.value| == |j.s| &&
       forall i :: 0 <= i < |j.s| ==> r.value[i] == Str([j.s[i]]))
    ensures r.Failure? <==> j.Null? || j.Bool? || j.Int?
  {
    match j
    case Array(items) => Success(items)
    case Object(es) => Success(seq(|es|, i requires 0 <= i < |es| => Str(es[i].key)))
    case Str(s) => Success(seq(|s|, i requires 0 <= i < |s| => Str([s[i]])))
    case _ => Failure(TypeError)
  }

  /** The task record of a list entry: the entry itself, or for the
      scheduled reply its `'request'`. */
  function Record(entry: Json, nested: bool): Result<Json, PyError>
  {
    if nested then Subscript(entry, "request") else Success(entry)
  }

  /** `CeleryTask(task['id'], task['name'], task['args'], task['kwargs'])`:
      the four fields are read in that order, and the first that cannot be
      read raises. */
  function MakeTask(record: Json): (r: Result<CeleryTask, PyError>)
    ensures r.Success? <==>
      Subscript(record, "id").Success? && Subscript(record, "name").Success? &&
      Subscript(record, "args").Success? && Subscript(record, "kwargs").Success?
    ensures r.Success? ==>
      r.value == CeleryTask(Subscript(record, "id").value, Subscript(record, "name").value,
                            Subscript(record, "args").value, Subscript(record, "kwargs").value)
  {
    match Subscript(record, "id")
    case Failure(e) => Failure(e)
    case Success(id) =>
      match Subscript(record, "name")
      case Failure(e) => Failure(e)
      case Success(name) =>
        match Subscript(record, "args")
        case Failure(e) => Failure(e)
        case Success(args) =>
          match Subscript(record, "kwargs")
          case Failure(e) => Failure(e)
          case Success(kwargs) => Success(CeleryTask(id, name, args, kwargs))
  }

  /** The fields are read in the order `'id'`, `'name'`, `'args'`,
      `'kwargs'`: the first one missing decides the error raised. */
  lemma MakeTaskFailsAtFirstMissing(record: Json)
    ensures Subscript(record, "id").Failure? ==> MakeTask(record) == Failure(Subscript(record, "id").error)
    ensures (Subscript(record, "id").Success? && Subscript(record, "name").Failure?) ==>
      MakeTask(record) == Failure(Subscript(record, "name").error)
    ensures (Subscript(record, "id").Success? && Subscript(record, "name").Success? &&
             Subscript(record, "args").Failure?) ==>
      MakeTask(record) == Failure(Subscript(record, "args").error)
    ensures (Subscript(record, "id").Success? && Subscript(record, "name").Success? &&
             Subscript(record, "args").Success? && Subscript(record, "kwargs").Failure?) ==>
      MakeTask(record) == Failure(Subscript(record, "kwargs").error)
  {
  }

  /** One step of the inner loop: compare the entry's id with the one sought
      and, on a match, copy the task's fields. */
  function Check(id: string, entry: Json, nested: bool): (r: Search)
    ensures r.Success? && r.value.Some? ==>
      Record(entry, nested).Success? && Subscript(Record(entry, nested).value, "id") == Success(Str(id)) &&
      Success(r.value.value) == MakeTask(Record(entry, nested).value)
    ensures r == Success(None) <==>
      Record(entry, nested).Success? && Subscript(Record(entry, nested).value, "id").Success? &&
      Subscript(Record(entry, nested).value, "id").value != Str(id)
  {
    match Record(entry, nested)
    case Failure(e) => Failure(e)
    case Success(record) =>
      match Subscript(record, "id")
      case Failure(e) => Failure(e)
      case Success(tid) =>
        if tid != Str(id) then Success(None)
        else
          match MakeTask(record)
          case Failure(e) => Failure(e)
          case Success(t) => Success(Some(t))
  }

  /** The inner loop over one worker's list: the first entry that matches or
      raises decides, and None when none does. */
  function SearchList(id: string, entries: seq<Json>, nested: bool): (r: Search)
    ensures (forall k :: 0 <= k < |entries| ==> Check(id, entries[k], nested) == Success(None)) ==> r == Success(None)
    ensures r != Success(None) ==>
      exists k :: 0 <= k < |entries| && r == Check(id, entries[k], nested) &&
        forall j :: 0 <= j < k ==> Check(id, entries[j], nested) == Success(None)
  {
    if entries == [] then Success(None)
    else
      var r := Check(id, entries[0], nested);
      if r != Success(None) then r
      else
        var rest := SearchList(id, entries[1..], nested);
        assert forall k :: 0 <= k < |entries| - 1 ==> entries[1..][k] == entries[k + 1];
        rest
  }

  /** One step of the outer loop: iterate the worker's payload and search it. */
  function WorkerSearch(id: string, worker: Entry<Json>, nested: bool): Search
  {
    match Iterate(worker.value)
    case Failure(e) => Failure(e)
    case Success(entries) => SearchList(id, entries, nested)
  }

  /** The outer loop over the workers, in reply order. */
  function SearchWorkers(id: string, workers: seq<Entry<Json>>, nested: bool): (r: Search)
    ensures (forall w :: 0 <= w < |workers| ==> WorkerSearch(id, workers[w], nested) == Success(None)) ==> r == Success(None)
    ensures r != Success(None) ==>
      exists w :: 0 <= w < |workers| && r == WorkerSearch(id, workers[w], nested) &&
        forall v :: 0 <= v < w ==> WorkerSearch(id, workers[v], nested) == Success(None)
  {
    if workers == [] then Success(None)
    else
      var r := WorkerSearch(id, workers[0], nested);
      if r != Success(None) then r
      else
        var rest := SearchWorkers(id, workers[1..], nested);
        assert forall w :: 0 <= w < |workers| - 1 ==> workers[1..][w] == workers[w + 1];
        rest
  }

  /** `_get_task`: `.items()` of a missing reply raises. */
  function GetTask(id: string, reply: Reply): (r: Search)
    ensures reply.None? ==> r == Failure(AttributeError)
    ensures r.Success? && r.value.Some? ==>
      exists record :: Subscript(record, "id") == Success(Str(id)) && MakeTask(record) == Success(r.value.value)
    ensures r.Success? && r.value.Some? ==> r.value.value.id == Str(id)
  {
    if reply.None? then Failure(AttributeError) else SearchWorkers(id, reply.value, false)
  }

  /** `_get_scheduled_task`: the same search on each entry's `'request'`. */
  function GetScheduledTask(id: string, reply: Reply): (r: Search)
    ensures reply.None? ==> r == Failure(AttributeError)
    ensures r.Success? && r.value.Some? ==>
      exists entry :: Subscript(entry, "request").Success? &&
        Subscript(Subscript(entry, "request").value, "id") == Success(Str(id)) &&
        MakeTask(Subscript(entry, "request").value) == Success(r.value.value)
    ensures r.Success? && r.value.Some? ==> r.value.value.id == Str(id)
  {
    if reply.None? then Failure(AttributeError) else SearchWorkers(id, reply.value, true)
  }

  /** `get_task_by_id`: active tasks first, then reserved, then scheduled;
      any exception ends the lookup with None. */
  function GetTaskById(id: string, active: Reply, reserved: Reply, scheduled: Reply): (r: Option<CeleryTask>)
    ensures r.Some? ==> r.value.id == Str(id)
  {
    match GetTask(id, active)
    case Failure(_) => None
    case Success(Some(t)) => Some(t)
    case Success(None) =>
      match GetTask(id, reserved)
      case Failure(_) => None
      case Success(Some(t)) => Some(t)
      case Success(None) =>
        match GetScheduledTask(id, scheduled)
        case Success(Some(t)) => Some(t)
        case _ => None
  }

  /** In the scheduled reply an entry is judged by its `'request'`: it
      matches exactly when its request would match as an active entry. */
  lemma ScheduledMatchesRequest(id: string, entry: Json)
    requires Subscript(entry, "request").Success?
    ensures Check(id, entry, true) == Check(id, Subscript(entry, "request").value, false)
  {
  }

  /** An entry without a `'request'` ends the scheduled search with the
      error, even when its own id matches. */
  lemma ScheduledWithoutRequestRaises(id: string, entry: Json)
    requires Subscript(entry, "request").Failure?
    ensures Check(id, entry, true).Failure?
  {
  }

  // ----- the searches, flattened -----

  /** All task entries of a reply in worker order, then list order; defined
      when every payload can be iterated. */
  function AllEntries(workers: seq<Entry<Json>>): Result<seq<Json>, PyError>
  {
    if workers == [] then Success([])
    else
      match Iterate(workers[0].value)
      case Failure(e) => Failure(e)
      case Success(first) =>
        match AllEntries(workers[1..])
        case Failure(e) => Failure(e)
        case Success(rest) => Success(first + rest)
  }

  lemma {:induction false} SearchListAppend(id: string, a: seq<Json>, b: seq<Json>, nested: bool)
    ensures SearchList(id, a + b, nested) ==
      (if SearchList(id, a, nested) != Success(None) then SearchList(id, a, nested) else SearchList(id, b, nested))
  {
    if a == [] {
      assert a + b == b;
    } else {
      assert (a + b)[0] == a[0] && (a + b)[1..] == a[1..] + b;
      var c := Check(id, a[0], nested);
      if c == Success(None) {
        assert SearchList(id, a + b, nested) == SearchList(id, a[1..] + b, nested);
        assert SearchList(id, a, nested) == SearchList(id, a[1..], nested);
        SearchListAppend(id, a[1..], b, nested);
      } else {
        assert SearchList(id, a + b, nested) == c;
      }
    }
  }

  /** Searching worker by worker is searching the concatenation of all their
      lists: the order is worker order, then list order. */
  lemma {:induction false} SearchWorkersFlattens(id: string, workers: seq<Entry<Json>>, nested: bool)
    requires AllEntries(workers).Success?
    ensures SearchWorkers(id, workers, nested) == SearchList(id, AllEntries(workers).value, nested)
  {
    if workers != [] {
      SearchWorkersFlattens(id, workers[1..], nested);
      SearchListAppend(id, Iterate(workers[0].value).value, AllEntries(workers[1..]).value, nested);
    }
  }

  /** A task found in the active reply is returned without looking at the
      other replies; one found only in the reserved reply wins over the
      scheduled reply. */
  lemma GetTaskByIdOrder(id: string, active: Reply, reserved: Reply, scheduled: Reply, t: CeleryTask)
    ensures GetTask(id, active) == Success(Some(t)) ==> GetTaskById(id, active, reserved, scheduled) == Some(t)
    ensures GetTask(id, active) == Success(None) && GetTask(id, reserved) == Success(Some(t)) ==>
              GetTaskById(id, active, reserved, scheduled) == Some(t)
    ensures GetTask(id, active) == Success(None) && GetTask(id, reserved) == Success(None) ==>
              GetTaskById(id, active, reserved, scheduled) == (if GetScheduledTask(id, scheduled).Success? then GetScheduledTask(id, scheduled).value else None)
  {
  }

  /** An exception in any of the three searches, a missing reply among
      them, ends the lookup with None and hides any match in a later reply. */
  lemma FailureEndsLookup(id: string, active: Reply, reserved: Reply, scheduled: Reply)
    ensures GetTask(id, active).Failure? ==> GetTaskById(id, active, reserved, scheduled) == None
    ensures active.None? ==> GetTaskById(id, active, reserved, scheduled) == None
    ensures (GetTask(id, active) == Success(None) && GetTask(id, reserved).Failure?) ==>
              GetTaskById(id, active, reserved, scheduled) == None
    ensures (GetTask(id, active) == Success(None) && reserved.None?) ==>
              GetTaskById(id, active, reserved, scheduled) == None
    ensures (GetTask(id, active) == Success(None) && GetTask(id, reserved) == Success(None) &&
             GetScheduledTask(id, scheduled).Failure?) ==>
              GetTaskById(id, active, reserved, scheduled) == None
    ensures (GetTask(id, active) == Success(None) && GetTask(id, reserved) == Success(None) && scheduled.None?) ==>
              GetTaskById(id, active, reserved, scheduled) == None
  {
  }

  /** A search of a list whose records all carry ids other than the one
      sought finds nothing. */
  lemma {:induction false} NoMatchNone(id: string, entries: seq<Json>)
    requires forall k :: 0 <= k < |entries| ==>
      (entries[k].Object? && Lookup(entries[k].entries, "id").Some? &&
       Lookup(entries[k].entries, "id").value != Str(id))
    ensures SearchList(id, entries, false) == Success(None)
  {
    forall k | 0 <= k < |entries| ensures Check(id, entries[k], false) == Success(None) {
    }
  }

  // ----- ping -----

  /** The scan of the ping replies: the first reply whose `'ok'` is true
      gives True; a reply that cannot be indexed by `'ok'` stops the scan
      with False. */
  function PingScan(replies: seq<Entry<Json>>): (r: bool)
    ensures r ==> exists k :: 0 <= k < |replies| && Answered(replies[k])
  {
    if replies == [] then false
    else
      match Subscript(replies[0].value, "ok")
      case Failure(_) => false
      case Success(ok) =>
        if Truthy(ok) then true
        else
          var tail := replies[1..];
          assert forall k :: 0 <= k < |tail| ==> tail[k] == replies[k + 1];
          PingScan(tail)
  }

  /** `are_worker_active`: an empty or missing ping reply means no worker. */
  function AreWorkersActive(ping: Reply): (r: bool)
    ensures r <==> (ping.Some? &&
                    exists k :: 0 <= k < |ping.value| && Answered(ping.value[k]) &&
                      forall j :: 0 <= j < k ==> Declined(ping.value[j]))
  {
    if ping.None? || ping.value == [] then false
    else
      PingScanFindsOk(ping.value);
      PingScan(ping.value)
  }

  /** The reply's `'ok'` field can be read and is true. */
  predicate Answered(reply: Entry<Json>)
  {
    Subscript(reply.value, "ok").Success? && Truthy(Subscript(reply.value, "ok").value)
  }

  /** The reply's `'ok'` field can be read and is false. */
  predicate Declined(reply: Entry<Json>)
  {
    Subscript(reply.value, "ok").Success? && !Truthy(Subscript(reply.value, "ok").value)
  }

  /** Some worker is active exactly when a reply with a true `'ok'` comes
      before any reply lacking `'ok'`. */
  lemma PingScanFindsOk(replies: seq<Entry<Json>>)
    ensures PingScan(replies) <==>
      exists k :: 0 <= k < |replies| && Answered(replies[k]) && forall j :: 0 <= j < k ==> Declined(replies[j])
  {
    PingScanOnlyIfOk(replies);
    PingScanIfOk(replies);
  }

  lemma {:induction false} PingScanOnlyIfOk(replies: seq<Entry<Json>>)
    ensures PingScan(replies) ==>
      exists k :: 0 <= k < |replies| && Answered(replies[k]) && forall j :: 0 <= j < k ==> Declined(replies[j])
  {
    if replies != [] && PingScan(replies) && !Answered(replies[0]) {
      var tail := replies[1..];
      PingScanOnlyIfOk(tail);
      assert forall j :: 0 <= j < |tail| ==> tail[j] == replies[j + 1];
      var k :| 0 <= k < |tail| && Answered(tail[k]) && forall j :: 0 <= j < k ==> Declined(tail[j]);
      assert Answered(replies[k + 1]);
      assert forall j :: 0 <= j < k + 1 ==> Declined(replies[j]);
    }
  }

  lemma {:induction false} PingScanIfOk(replies: seq<Entry<Json>>)
    ensures (exists k :: 0 <= k < |replies| && Answered(replies[k]) && forall j :: 0 <= j < k ==> Declined(replies[j])) ==>
      PingScan(replies)
  {
    if replies != [] && !PingScan(replies) {
      var tail := replies[1..];
      PingScanIfOk(tail);
      assert forall j :: 0 <= j < |tail| ==> tail[j] == replies[j + 1];
      forall k | 0 <= k < |replies| && Answered(replies[k])
        ensures exists j :: 0 <= j < k && !Declined(replies[j])
      {
        if Declined(replies[0]) {
          assert Answered(tail[k - 1]);
          var j :| 0 <= j < k - 1 && !Declined(tail[j]);
          assert !Declined(replies[j + 1]);
        } else {
          assert !Declined(replies[0]);
        }
      }
    }
  }

  /** A missing or empty ping reply means no worker is active. */
  lemma NoPingNoWorkers(ping: Reply)
    requires ping.None? || ping.value == []
    ensures !AreWorkersActive(ping)
  {
  }
}
