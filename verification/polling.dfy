/**
 * One iteration of the long-polling loop (`bot` in wp_bot/bot.py): fetch a
 * batch with the current offset, move the offset past the batch, and hand
 * the updates to the conversation step in order when the answer is ok.
 */
module Polling {
  import opened Wrappers
  import opened Services
  import opened Conversation

  /**
   * How `getUpdates` ended: a socket timeout, any other exception, or an
   * answer with its `ok` flag and its `result` (an absent result reads as empty).
   */
  datatype Fetch = TimedOut | Failed | Fetched(ok: bool, batch: seq<Update>)

  /** The highest update id of a non-empty batch. */
  function MaxUpdateId(batch: seq<Update>): (m: int)
    requires batch != []
    ensures forall u <- batch :: u.updateId <= m
    ensures exists u <- batch :: u.updateId == m
  {
    if |batch| == 1 then batch[0].updateId
    else
      var rest := MaxUpdateId(batch[1..]);
      assert forall u <- batch :: u == batch[0] || u in batch[1..];
      if batch[0].updateId >= rest then batch[0].updateId else rest
  }

  /**
   * The offset after a batch: one past the highest id in a non-empty batch,
   * unchanged for an empty one.
   */
  function NextCursor(cursor: Option<int>, batch: seq<Update>): (r: Option<int>)
    ensures batch == [] ==> r == cursor
    ensures batch != [] ==> r.Some? && (forall u <- batch :: u.updateId < r.value) &&
                            (exists u <- batch :: u.updateId == r.value - 1)
  {
    if batch == [] then cursor else Some(MaxUpdateId(batch) + 1)
  }

  datatype BatchResult = BatchResult(actions: seq<Action>, contexts: map<int, Context>, stopped: bool)

  /**
   * The updates of a batch through `step`, in order, each with its own
   * remote answers; the first one that raises stops the batch, and the
   * updates after it are not looked at.
   */
  function InOrder(step: (map<int, Context>, Update, Remote) -> StoreResult,
                   contexts: map<int, Context>, batch: seq<Update>, remotes: seq<Remote>): BatchResult
    requires |remotes| == |batch|
    decreases |batch|
  {
    if batch == [] then BatchResult([], contexts, false)
    else
      var n := |batch| - 1;
      var done := InOrder(step, contexts, batch[..n], remotes[..n]);
      if done.stopped then done
      else
        var s := step(done.contexts, batch[n], remotes[n]);
        BatchResult(done.actions + s.actions, s.contexts, s.raised)
  }

  /** The updates of a batch through `callback`, in order, up to the first one that raises (which also ends the loop). */
  function RunBatch(contexts: map<int, Context>, batch: seq<Update>, remotes: seq<Remote>): BatchResult
    requires |remotes| == |batch|
  {
    InOrder(StoreStep, contexts, batch, remotes)
  }

  datatype IterationResult = IterationResult(cursor: Option<int>, actions: seq<Action>, contexts: map<int, Context>, stopped: bool)

  /**
   * One turn of the `while True` loop. A timeout retries with the same offset;
   * any other exception leaves the loop; an answer moves the offset past its
   * batch before `ok` is looked at, and only an ok answer is processed.
   */
  function Iteration(cursor: Option<int>, contexts: map<int, Context>, fetch: Fetch, remotes: seq<Remote>): IterationResult
    requires fetch.Fetched? ==> |remotes| == |fetch.batch|
  {
    match fetch
    case TimedOut => IterationResult(cursor, [GetUpdates(cursor)], contexts, false)
    case Failed => IterationResult(cursor, [GetUpdates(cursor)], contexts, true)
    case Fetched(ok, batch) =>
      if ok then
        var b := RunBatch(contexts, batch, remotes);
        IterationResult(NextCursor(cursor, batch), [GetUpdates(cursor)] + b.actions, b.contexts, b.stopped)
      else
        IterationResult(NextCursor(cursor, batch), [GetUpdates(cursor)], contexts, false)
  }

  /** The loop's state: the `update_id` offset, and the store the callbacks use. */
  class Poller {
    var cursor: Option<int>
    const store: ContextStore

    constructor (store: ContextStore)
      ensures this.store == store && cursor == None
    {
      this.store := store;
      cursor := None;
    }

    /** One iteration of `bot`; `stopped` means an exception left the loop. */
    method Iterate(fetch: Fetch, remotes: seq<Remote>) returns (actions: seq<Action>, stopped: bool)
      requires fetch.Fetched? ==> |remotes| == |fetch.batch|
      modifies this, store
      ensures var it := Iteration(old(cursor), old(store.contexts), fetch, remotes);
                cursor == it.cursor && actions == it.actions && store.contexts == it.contexts && stopped == it.stopped
    {
      var offset := cursor;
      actions := [GetUpdates(offset)];
      match fetch {
        case TimedOut =>
          return actions, false;
        case Failed =>
          return actions, true;
        case Fetched(ok, batch) =>
          if batch != [] {
            cursor := Some(MaxUpdateId(batch) + 1);
          }
          if !ok {
            return actions, false;
          }
          var done;
          done, stopped := ProcessBatch(batch, remotes);
          actions := actions + done;
      }
    }

    /** The updates of an ok answer through `callback`, in batch order; an exception ends the loop. */
    method ProcessBatch(batch: seq<Update>, remotes: seq<Remote>) returns (done: seq<Action>, stopped: bool)
      requires |remotes| == |batch|
      modifies store
      ensures var b := RunBatch(old(store.contexts), batch, remotes);
                done == b.actions && store.contexts == b.contexts && stopped == b.stopped
    {
      done := [];
      var i := 0;
      while i < |batch|
        invariant 0 <= i <= |batch|
        invariant RunBatch(old(store.contexts), batch[..i], remotes[..i]) == BatchResult(done, store.contexts, false)
      {
        var acts, raised := store.Callback(batch[i], remotes[i]);
        assert batch[..i + 1][..i] == batch[..i] && remotes[..i + 1][..i] == remotes[..i];
        done := done + acts;
        if raised {
          StoppedStays(StoreStep, old(store.contexts), batch, remotes, i + 1);
          return done, true;
        }
        i := i + 1;
      }
      assert batch[..i] == batch && remotes[..i] == remotes;
      return done, false;
    }
  }

  /** Once an update of the batch has raised, the updates after it change nothing. */
  lemma {:induction false} StoppedStays(step: (map<int, Context>, Update, Remote) -> StoreResult,
                                        contexts: map<int, Context>, batch: seq<Update>, remotes: seq<Remote>, k: nat)
    requires |remotes| == |batch| && k <= |batch|
    requires InOrder(step, contexts, batch[..k], remotes[..k]).stopped
    ensures InOrder(step, contexts, batch, remotes) == InOrder(step, contexts, batch[..k], remotes[..k])
    decreases |batch| - k
  {
    if k < |batch| {
      var n := |batch| - 1;
      assert batch[..n][..k] == batch[..k] && remotes[..n][..k] == remotes[..k];
      StoppedStays(step, contexts, batch[..n], remotes[..n], k);
    } else {
      assert batch[..k] == batch && remotes[..k] == remotes;
    }
  }

  /** The offset after a batch with the ids 5, 7 and 9 is 10. */
  lemma CursorExample(m5: Option<Message>, m7: Option<Message>, m9: Option<Message>)
    ensures NextCursor(None, [Update(5, m5), Update(7, m7), Update(9, m9)]) == Some(10)
  {
    var batch := [Update(5, m5), Update(7, m7), Update(9, m9)];
    assert batch[1..] == [Update(7, m7), Update(9, m9)];
    assert batch[1..][1..] == [Update(9, m9)];
  }

  /** An answer that is not ok is not processed, but still moves the offset past its batch. */
  lemma NotOkStillAdvances(cursor: Option<int>, contexts: map<int, Context>, batch: seq<Update>, remotes: seq<Remote>)
    requires |remotes| == |batch|
    ensures var it := Iteration(cursor, contexts, Fetched(false, batch), remotes);
              it.contexts == contexts && it.actions == [GetUpdates(cursor)] && !it.stopped &&
              (batch != [] ==> it.cursor.Some? && forall u <- batch :: u.updateId < it.cursor.value)
  {
  }

  /** A timeout changes nothing: the next request uses the same offset. */
  lemma TimeoutRetries(cursor: Option<int>, contexts: map<int, Context>, remotes: seq<Remote>)
    ensures Iteration(cursor, contexts, TimedOut, remotes) == IterationResult(cursor, [GetUpdates(cursor)], contexts, false)
  {
  }

  /** Only the senders of the updates of a batch can have their contexts changed. */
  lemma {:induction false} BatchTouchesOnlySenders(contexts: map<int, Context>, batch: seq<Update>, remotes: seq<Remote>, user: int)
    requires |remotes| == |batch|
    requires forall u <- batch :: u.message.None? || u.message.value.userId != user
    ensures var r := RunBatch(contexts, batch, remotes);
              (user in r.contexts <==> user in contexts) && (user in contexts ==> r.contexts[user] == contexts[user])
    decreases |batch|
  {
    if batch != [] {
      var n := |batch| - 1;
      assert forall u <- batch[..n] :: u in batch;
      BatchTouchesOnlySenders(contexts, batch[..n], remotes[..n], user);
      assert batch[n] in batch;
      assert RunBatch(contexts, batch, remotes) == InOrder(StoreStep, contexts, batch, remotes);
    }
  }

  /** Every context a batch saves is reachable when every stored one was. */
  lemma {:induction false} BatchPreservesWellFormed(contexts: map<int, Context>, batch: seq<Update>, remotes: seq<Remote>)
    requires |remotes| == |batch| && StoreWellFormed(contexts)
    ensures StoreWellFormed(RunBatch(contexts, batch, remotes).contexts)
    decreases |batch|
  {
    if batch != [] {
      var n := |batch| - 1;
      BatchPreservesWellFormed(contexts, batch[..n], remotes[..n]);
      var done := RunBatch(contexts, batch[..n], remotes[..n]);
      StoreStepPreservesWellFormed(done.contexts, batch[n], remotes[n]);
    }
  }

  /** An iteration keeps every stored context reachable. */
  lemma IterationPreservesWellFormed(cursor: Option<int>, contexts: map<int, Context>, fetch: Fetch, remotes: seq<Remote>)
    requires fetch.Fetched? ==> |remotes| == |fetch.batch|
    requires StoreWellFormed(contexts)
    ensures StoreWellFormed(Iteration(cursor, contexts, fetch, remotes).contexts)
  {
    if fetch.Fetched? && fetch.ok {
      BatchPreservesWellFormed(contexts, fetch.batch, remotes);
    }
  }
}
