/** The in-memory task store: three dictionaries keyed by task id that hold a
    task's status, its transcribed text and its summarised text. Every
    operation overwrites all three entries of one id and reads nothing, so no
    operation looks at the status it replaces. */
module TaskStore {
  import opened Common

  /** The status a task reports; `Value` is the string the API returns. */
  datatype TaskStatus = Processing | Completed | Failed {
    function Value(): string
    {
      match this
      case Processing => "processing"
      case Completed => "completed"
      case Failed => "failed"
    }
  }

  /** The prefix a failed task's texts carry. */
  const ErrorPrefix: string := "エラー: "

  /** The contents of the three dictionaries. */
  datatype Tasks = Tasks(
    status: map<string, TaskStatus>,
    transcribed: map<string, Option<string>>,
    summarized: map<string, Option<string>>)

  const NoTasks: Tasks := Tasks(map[], map[], map[])

  /** One call on the store. */
  datatype StoreCall =
    | Initialize(taskId: string)
    | Complete(taskId: string, transcribed: string, summarized: string)
    | Fail(taskId: string, message: string)

  function Lookup<V>(m: map<string, V>, id: string): Option<V>
  {
    if id in m then Some(m[id]) else None
  }

  /** The three entries of `id` are the same in `a` and in `b`. */
  predicate SameEntry(a: Tasks, b: Tasks, id: string)
  {
    && Lookup(a.status, id) == Lookup(b.status, id)
    && Lookup(a.transcribed, id) == Lookup(b.transcribed, id)
    && Lookup(a.summarized, id) == Lookup(b.summarized, id)
  }

  /** The three dictionaries have the same keys. */
  predicate KeysAligned(t: Tasks)
  {
    t.status.Keys == t.transcribed.Keys && t.status.Keys == t.summarized.Keys
  }

  /** The status and texts one call writes for its id, whatever was there before. */
  function Written(c: StoreCall): (TaskStatus, Option<string>, Option<string>)
  {
    match c
    case Initialize(_) => (Processing, None, None)
    case Complete(_, tx, sm) => (Completed, Some(tx), Some(sm))
    case Fail(_, m) => (Failed, Some(ErrorPrefix + m), Some(ErrorPrefix + m))
  }

  /** The store after one call. */
  function Apply(t: Tasks, c: StoreCall): (r: Tasks)
    ensures c.taskId in r.status && c.taskId in r.transcribed && c.taskId in r.summarized
    ensures c.Initialize? ==>
      r.status[c.taskId] == Processing && r.transcribed[c.taskId] == None && r.summarized[c.taskId] == None
    ensures c.Complete? ==>
      && r.status[c.taskId] == Completed
      && r.transcribed[c.taskId] == Some(c.transcribed)
      && r.summarized[c.taskId] == Some(c.summarized)
    ensures c.Fail? ==>
      && r.status[c.taskId] == Failed
      && r.transcribed[c.taskId] == Some(ErrorPrefix + c.message)
      && r.summarized[c.taskId] == Some(ErrorPrefix + c.message)
    ensures forall id :: id != c.taskId ==> SameEntry(t, r, id)
    ensures r.status.Keys == t.status.Keys + {c.taskId}
    ensures KeysAligned(t) ==> KeysAligned(r)
  {
    var (st, tx, sm) := Written(c);
    Tasks(t.status[c.taskId := st], t.transcribed[c.taskId := tx], t.summarized[c.taskId := sm])
  }

  /** The store after a sequence of calls, applied in order. */
  function ApplyAll(t: Tasks, calls: seq<StoreCall>): Tasks
    decreases |calls|
  {
    if calls == [] then t else ApplyAll(Apply(t, calls[0]), calls[1..])
  }

  /** The ids a sequence of calls writes. */
  function Ids(calls: seq<StoreCall>): set<string>
  {
    set i | 0 <= i < |calls| :: calls[i].taskId
  }

  /** The last call for `id`, if any. */
  function LastFor(calls: seq<StoreCall>, id: string): (r: Option<StoreCall>)
    ensures r.Some? ==> r.value in calls && r.value.taskId == id
    ensures r.None? <==> id !in Ids(calls)
    decreases |calls|
  {
    if calls == [] then None
    else if calls[|calls| - 1].taskId == id then Some(calls[|calls| - 1])
    else
      var r := LastFor(calls[..|calls| - 1], id);
      assert Ids(calls) == Ids(calls[..|calls| - 1]) + {calls[|calls| - 1].taskId};
      r
  }

  lemma {:induction false} ApplyAllAppend(t: Tasks, a: seq<StoreCall>, b: seq<StoreCall>)
    ensures ApplyAll(t, a + b) == ApplyAll(ApplyAll(t, a), b)
    decreases |a|
  {
    if a == [] {
      assert a + b == b;
    } else {
      assert (a + b)[0] == a[0] && (a + b)[1..] == a[1..] + b;
      ApplyAllAppend(Apply(t, a[0]), a[1..], b);
    }
  }

  /** Starting from aligned dictionaries (the empty store is), every sequence of
      calls leaves them aligned, and the keys are the old ones plus the ids written. */
  lemma {:induction false} ApplyAllKeepsKeysAligned(t: Tasks, calls: seq<StoreCall>)
    requires KeysAligned(t)
    ensures KeysAligned(ApplyAll(t, calls))
    ensures ApplyAll(t, calls).status.Keys == t.status.Keys + Ids(calls)
    decreases |calls|
  {
    if calls != [] {
      ApplyAllKeepsKeysAligned(Apply(t, calls[0]), calls[1..]);
      assert Ids(calls) == {calls[0].taskId} + Ids(calls[1..]) by {
        forall i | 0 <= i < |calls[1..]| ensures calls[1..][i] == calls[i + 1] { }
      }
    }
  }

  /** The entries of `id` are those the last call for `id` wrote; an id no call
      names keeps its entries. No call's effect depends on the status before it. */
  lemma {:induction false} LastWriteWins(t: Tasks, calls: seq<StoreCall>, id: string)
    ensures LastFor(calls, id).None? ==> SameEntry(t, ApplyAll(t, calls), id)
    ensures LastFor(calls, id).Some? ==>
      var (st, tx, sm) := Written(LastFor(calls, id).value);
      var r := ApplyAll(t, calls);
      && id in r.status && id in r.transcribed && id in r.summarized
      && r.status[id] == st && r.transcribed[id] == tx && r.summarized[id] == sm
    decreases |calls|
  {
    if calls != [] {
      var n := |calls| - 1;
      var init := calls[..n];
      assert calls == init + [calls[n]];
      ApplyAllAppend(t, init, [calls[n]]);
      var mid := ApplyAll(t, init);
      assert ApplyAll(t, calls) == Apply(mid, calls[n]);
      if calls[n].taskId != id {
        LastWriteWins(t, init, id);
      }
    }
  }

  /** `complete_task` then `fail_task` on one id leaves it FAILED: no call
      checks the current status, so a terminal status is overwritten. */
  lemma {:induction false} FailOverwritesCompleted(t: Tasks, id: string, tx: string, sm: string, m: string)
    ensures var r := ApplyAll(t, [Complete(id, tx, sm), Fail(id, m)]);
      && Lookup(r.status, id) == Some(Failed)
      && Lookup(r.transcribed, id) == Some(Some(ErrorPrefix + m))
      && Lookup(r.summarized, id) == Some(Some(ErrorPrefix + m))
  {
    var calls := [Complete(id, tx, sm), Fail(id, m)];
    assert calls[..1] == [Complete(id, tx, sm)];
    LastWriteWins(t, calls, id);
  }

  /** `initialize_task` on an id that already finished puts it back to PROCESSING. */
  lemma {:induction false} InitializeReopensTerminal(t: Tasks, c: StoreCall)
    requires c.Complete? || c.Fail?
    ensures var r := ApplyAll(t, [c, Initialize(c.taskId)]);
      Lookup(r.status, c.taskId) == Some(Processing) && Lookup(r.transcribed, c.taskId) == Some(None)
  {
    var calls := [c, Initialize(c.taskId)];
    assert calls[..1] == [c];
    LastWriteWins(t, calls, c.taskId);
  }

  /** The store service: the three dictionaries, updated in place. */
  class TaskManagingService {
    var status: map<string, TaskStatus>
    var transcribedText: map<string, Option<string>>
    var summarizedText: map<string, Option<string>>

    function Model(): Tasks
      reads this
    {
      Tasks(status, transcribedText, summarizedText)
    }

    /** The dictionaries share their keys (true from construction on). */
    ghost predicate Valid()
      reads this
    {
      KeysAligned(Model())
    }

    constructor ()
      ensures Valid() && Model() == NoTasks
    {
      status, transcribedText, summarizedText := map[], map[], map[];
    }

    method InitializeTask(taskId: string)
      requires Valid()
      modifies this
      ensures Valid() && Model() == Apply(old(Model()), Initialize(taskId))
    {
      status := status[taskId := Processing];
      transcribedText := transcribedText[taskId := None];
      summarizedText := summarizedText[taskId := None];
    }

    method CompleteTask(taskId: string, transcribed: string, summarized: string)
      requires Valid()
      modifies this
      ensures Valid() && Model() == Apply(old(Model()), Complete(taskId, transcribed, summarized))
    {
      status := status[taskId := Completed];
      transcribedText := transcribedText[taskId := Some(transcribed)];
      summarizedText := summarizedText[taskId := Some(summarized)];
    }

    method FailTask(taskId: string, errorMessage: string)
      requires Valid()
      modifies this
      ensures Valid() && Model() == Apply(old(Model()), Fail(taskId, errorMessage))
    {
      status := status[taskId := Failed];
      var errorText := ErrorPrefix + errorMessage;
      transcribedText := transcribedText[taskId := Some(errorText)];
      summarizedText := summarizedText[taskId := Some(errorText)];
    }

    /** Applies one call; the orchestrators drive the store through this. */
    method Perform(c: StoreCall)
      requires Valid()
      modifies this
      ensures Valid() && Model() == Apply(old(Model()), c)
    {
      match c
      case Initialize(id) => InitializeTask(id);
      case Complete(id, tx, sm) => CompleteTask(id, tx, sm);
      case Fail(id, m) => FailTask(id, m);
    }
  }
}
