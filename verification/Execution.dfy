/** The paper executor: at most one order per signal, filled against a book snapshot. */
module Execution {
  import opened Domain
  import opened DecimalHelpers
  import opened PaperFiller

  datatype PaperOrder = PaperOrder(
    orderId: Id,
    intentId: Id,
    userId: Id,
    marketId: string,
    tokenId: string,
    side: Side,
    size: real,
    limitPrice: real)

  datatype ExecutionResult = ExecutionResult(order: PaperOrder, fill: Option<Fill>)

  /** The best opposite price exists and is reached, and size and depth hold a micro-share. */
  predicate Marketable(i: Intent, book: BookSnapshot) {
    var (best, depth) := Opposite(i.side, book);
    best.Some? && Crosses(i.side, i.limitPrice, best.value) && 0.000001 <= Min(i.size, depth)
  }

  /** Order and fill for an intent that was not seen before, once its book has arrived. */
  function Execute(intent: Intent, book: Option<BookSnapshot>, orderId: Id, fillId: Id): ExecutionResult {
    var order := PaperOrder(orderId, intent.intentId, intent.userId, intent.marketId, intent.tokenId,
                            intent.side, intent.size, intent.limitPrice);
    var fill :=
      if book.None? then None
      else
        match SimulateFill(intent.side, intent.size, intent.limitPrice, book.value)
        case None => None
        case Some(r) =>
          Some(Fill(fillId, order.orderId, intent.intentId, intent.userId, intent.marketId, intent.tokenId,
                    intent.side, r.filledSize, r.fillPrice, r.fee));
    ExecutionResult(order, fill)
  }

  /** What executing an intent against a book comes to: the order that the intent asks for and, exactly
      when the book is marketable, a fill of that order at the quantized best opposite price, of the
      largest whole number of micro-shares that neither size nor depth exceeds, with its fee. */
  ghost predicate Executes(
    x: ExecutionResult, i: Intent, book: Option<BookSnapshot>, orderId: Id, fillId: Id)
  {
    && x.order == PaperOrder(orderId, i.intentId, i.userId, i.marketId, i.tokenId, i.side, i.size, i.limitPrice)
    && (x.fill.Some? <==> book.Some? && Marketable(i, book.value))
    && (x.fill.Some? ==>
          var f, (best, depth) := x.fill.value, Opposite(i.side, book.value);
          && f.fillId == fillId && f.orderId == orderId && f.intentId == i.intentId && f.userId == i.userId
          && f.marketId == i.marketId && f.tokenId == i.tokenId && f.side == i.side
          && IsSizeTick(f.size) && f.size <= Min(i.size, depth) < f.size + 0.000001
          && f.price == QuantizePrice(best.value)
          && f.fee == Fee(f.size, f.price, 0.02))
  }

  lemma ExecuteExecutes(i: Intent, book: Option<BookSnapshot>, orderId: Id, fillId: Id)
    ensures Executes(Execute(i, book, orderId, fillId), i, book, orderId, fillId)
  {
    hide QuantizePrice, QuantizeSize, Fee, SimulateFill, IsSizeTick, IsPriceTick;
    if book.Some? {
      FillIsExact(i.side, i.size, i.limitPrice, book.value);
      MicroShareIsTick();
      FillsExactlyWhenMarketable(i.side, i.size, i.limitPrice, book.value, PAPER_FEE_PCT, 0.000001);
    }
  }

  lemma MicroShareIsTick()
    ensures IsSizeTick(0.000001)
  {
  }

  class PaperExecutionEngine {
    var seenSignalIds: set<Id>

    constructor ()
      ensures seenSignalIds == {}
    {
      seenSignalIds := {};
    }

    /** The part of `submit` before it awaits the book. */
    method Admit(intent: Intent) returns (isNew: bool)
      modifies this
      ensures isNew <==> intent.signalId !in old(seenSignalIds)
      ensures seenSignalIds == old(seenSignalIds) + {intent.signalId}
    {
      if intent.signalId in seenSignalIds {
        return false;
      }
      seenSignalIds := seenSignalIds + {intent.signalId};
      isNew := true;
    }

    /** `submit` without interruption: the book provider answers `book`. */
    method Submit(intent: Intent, book: Option<BookSnapshot>, orderId: Id, fillId: Id)
      returns (r: Option<ExecutionResult>)
      modifies this
      ensures r == if intent.signalId in old(seenSignalIds) then None
                   else Some(Execute(intent, book, orderId, fillId))
      ensures r.Some? ==> Executes(r.value, intent, book, orderId, fillId)
      ensures seenSignalIds == old(seenSignalIds) + {intent.signalId}
    {
      var isNew := Admit(intent);
      if !isNew {
        return None;
      }
      r := Some(Execute(intent, book, orderId, fillId));
      ExecuteExecutes(intent, book, orderId, fillId);
    }
  }

  // ----- Many submissions waiting for their books ------------------------------------------------

  datatype Executed = Executed(intent: Intent, result: ExecutionResult)

  /** The ids seen, the submissions suspended at the book provider, and the orders placed. */
  datatype Desk = Desk(seen: set<Id>, waiting: map<nat, Intent>, executed: seq<Executed>)

  datatype Action =
    | Submit(task: nat, intent: Intent)
    | Answer(task: nat, book: Option<BookSnapshot>, orderId: Id, fillId: Id)

  const IDLE := Desk({}, map[], [])

  function Step(d: Desk, a: Action): Desk {
    match a
    case Submit(task, intent) =>
      if task in d.waiting || intent.signalId in d.seen then d
      else Desk(d.seen + {intent.signalId}, d.waiting[task := intent], d.executed)
    case Answer(task, book, orderId, fillId) =>
      if task !in d.waiting then d
      else
        var intent := d.waiting[task];
        Desk(d.seen, d.waiting - {task}, d.executed + [Executed(intent, Execute(intent, book, orderId, fillId))])
  }

  function Exec(d: Desk, acts: seq<Action>): Desk {
    if acts == [] then d else Step(Exec(d, acts[..|acts| - 1]), acts[|acts| - 1])
  }

  /** A new signal of a free task starts to wait; nothing else about the desk changes. */
  lemma SubmitWaits(d: Desk, task: nat, intent: Intent)
    ensures var e := Step(d, Submit(task, intent));
            && (e != d <==> task !in d.waiting && intent.signalId !in d.seen)
            && (e != d ==> e.seen == d.seen + {intent.signalId} && e.waiting == d.waiting[task := intent])
            && e.executed == d.executed
  {
    assert intent.signalId in d.seen + {intent.signalId};
  }

  /** An answer ends the wait and records one execution: of the waiting intent, on the answered book. */
  lemma AnswerRecordsTheExecution(d: Desk, task: nat, book: Option<BookSnapshot>, orderId: Id, fillId: Id)
    requires task in d.waiting
    ensures var e := Step(d, Answer(task, book, orderId, fillId));
            && e.seen == d.seen && e.waiting == d.waiting - {task}
            && |e.executed| == |d.executed| + 1 && e.executed[..|d.executed|] == d.executed
            && e.executed[|d.executed|].intent == d.waiting[task]
            && Executes(e.executed[|d.executed|].result, d.waiting[task], book, orderId, fillId)
  {
    hide Executes;
    ExecuteExecutes(d.waiting[task], book, orderId, fillId);
  }

  ghost predicate IsWaiting(d: Desk, id: Id) {
    exists t :: t in d.waiting && d.waiting[t].signalId == id
  }

  ghost predicate HasOrder(d: Desk, id: Id) {
    exists i :: 0 <= i < |d.executed| && d.executed[i].intent.signalId == id
  }

  /** An order with what executing its intent comes to on some book. */
  ghost predicate Faithful(e: Executed) {
    exists book, orderId, fillId :: Executes(e.result, e.intent, book, orderId, fillId)
  }

  /** Every signal seen is waiting or has its order, never both, and neither twice; and each order is
      the one its own intent asks for. */
  ghost predicate AtMostOnce(d: Desk) {
    && (forall t, u :: t in d.waiting && u in d.waiting && t != u ==> d.waiting[t].signalId != d.waiting[u].signalId)
    && (forall i, j :: 0 <= i < j < |d.executed| ==> d.executed[i].intent.signalId != d.executed[j].intent.signalId)
    && (forall id :: id in d.seen <==> IsWaiting(d, id) || HasOrder(d, id))
    && (forall id :: !(IsWaiting(d, id) && HasOrder(d, id)))
    && (forall i :: 0 <= i < |d.executed| ==> Faithful(d.executed[i]))
  }

  lemma SubmitKeepsAtMostOnce(d: Desk, task: nat, intent: Intent)
    requires AtMostOnce(d) && task !in d.waiting && intent.signalId !in d.seen
    ensures AtMostOnce(Step(d, Submit(task, intent)))
  {
    var e := Step(d, Submit(task, intent));
    forall id: Id
      ensures HasOrder(e, id) <==> HasOrder(d, id)
      ensures IsWaiting(e, id) <==> IsWaiting(d, id) || id == intent.signalId
    {
      if IsWaiting(d, id) {
        var t :| t in d.waiting && d.waiting[t].signalId == id;
        assert t in e.waiting && e.waiting[t] == d.waiting[t];
      }
      assert task in e.waiting && e.waiting[task] == intent;
    }
    forall t | t in d.waiting
      ensures d.waiting[t].signalId != intent.signalId
    {
      assert IsWaiting(d, d.waiting[t].signalId);
    }
  }

  lemma AnswerKeepsAtMostOnce(d: Desk, task: nat, book: Option<BookSnapshot>, orderId: Id, fillId: Id)
    requires AtMostOnce(d) && task in d.waiting
    ensures AtMostOnce(Step(d, Answer(task, book, orderId, fillId)))
  {
    hide SimulateFill, Executes;
    var e := Step(d, Answer(task, book, orderId, fillId));
    AnswerRecordsTheExecution(d, task, book, orderId, fillId);
    var done := d.waiting[task].signalId;
    assert IsWaiting(d, done);
    forall id: Id
      ensures HasOrder(e, id) <==> HasOrder(d, id) || id == done
      ensures IsWaiting(e, id) <==> IsWaiting(d, id) && id != done
    {
      if HasOrder(d, id) {
        var i :| 0 <= i < |d.executed| && d.executed[i].intent.signalId == id;
        assert e.executed[i] == d.executed[i];
      }
      assert e.executed[|d.executed|].intent.signalId == done;
      if IsWaiting(d, id) && id != done {
        var t :| t in d.waiting && d.waiting[t].signalId == id;
        assert t in e.waiting && e.waiting[t] == d.waiting[t];
      }
    }
    forall i | 0 <= i < |d.executed|
      ensures d.executed[i].intent.signalId != done
    {
      assert HasOrder(d, d.executed[i].intent.signalId);
    }
  }

  /** However submissions and book answers interleave, each signal id has at most one order. */
  lemma {:induction false} SignalsExecuteAtMostOnce(acts: seq<Action>)
    ensures AtMostOnce(Exec(IDLE, acts))
  {
    if acts != [] {
      hide AtMostOnce;
      var init, a := acts[..|acts| - 1], acts[|acts| - 1];
      var d := Exec(IDLE, init);
      SignalsExecuteAtMostOnce(init);
      match a
      case Submit(task, intent) =>
        if task !in d.waiting && intent.signalId !in d.seen {
          SubmitKeepsAtMostOnce(d, task, intent);
        }
      case Answer(task, book, orderId, fillId) =>
        if task in d.waiting {
          AnswerKeepsAtMostOnce(d, task, book, orderId, fillId);
        }
    }
  }
}
