/** A serial stream of intents through the executor and into the ledger. */
module IntentStream {
  import opened Domain
  import opened PaperFiller
  import opened PositionMath
  import opened Ledgers
  import opened Execution

  datatype Account = Account(ledger: Ledger, seen: set<Id>)

  /** Submit one intent and reconcile its fill, if there is one. */
  function Process(a: Account, intent: Intent, book: Option<BookSnapshot>, orderId: Id, fillId: Id): Account {
    if intent.signalId in a.seen then a
    else
      var fill := Execute(intent, book, orderId, fillId).fill;
      Account(if fill.None? then a.ledger else ApplyFill(a.ledger, fill.value), a.seen + {intent.signalId})
  }

  type BookProvider = (string, string) -> Option<BookSnapshot>

  /** The stream, with a book that depends only on market and token; fresh ids count upward. */
  function ProcessAll(a: Account, intents: seq<Intent>, books: BookProvider): Account {
    if intents == [] then a
    else
      var n := |intents| - 1;
      var i := intents[n];
      Process(ProcessAll(a, intents[..n], books), i, books(i.marketId, i.tokenId), n, n)
  }

  ghost predicate Occurs(intents: seq<Intent>, id: Id) {
    exists i :: 0 <= i < |intents| && intents[i].signalId == id
  }

  /** The intents whose signal id did not come earlier in the stream. */
  ghost function FirstOccurrences(intents: seq<Intent>): seq<Intent> {
    if intents == [] then []
    else
      var init, last := intents[..|intents| - 1], intents[|intents| - 1];
      FirstOccurrences(init) + (if Occurs(init, last.signalId) then [] else [last])
  }

  lemma {:induction false} SeenAfterStream(a: Account, intents: seq<Intent>, books: BookProvider, id: Id)
    ensures id in ProcessAll(a, intents, books).seen <==> id in a.seen || Occurs(intents, id)
  {
    if intents != [] {
      hide Execute, ApplyFill;
      var init := intents[..|intents| - 1];
      SeenAfterStream(a, init, books, id);
      if Occurs(init, id) {
        var i :| 0 <= i < |init| && init[i].signalId == id;
        assert intents[i].signalId == id;
      }
      if Occurs(intents, id) && intents[|intents| - 1].signalId != id {
        var i :| 0 <= i < |intents| && intents[i].signalId == id;
        assert init[i].signalId == id;
      }
    }
  }

  /** The ledger never sees order and fill ids. */
  lemma IdsDoNotMatter(
    a: Account, intent: Intent, book: Option<BookSnapshot>,
    orderId: Id, fillId: Id, orderId': Id, fillId': Id)
    ensures Process(a, intent, book, orderId, fillId) == Process(a, intent, book, orderId', fillId')
  {
    hide SimulateFill, Absorb, ApplyFillToBalance;
  }

  lemma ProcessAppend(a: Account, intents: seq<Intent>, i: Intent, books: BookProvider)
    ensures ProcessAll(a, intents + [i], books) ==
            Process(ProcessAll(a, intents, books), i, books(i.marketId, i.tokenId), |intents|, |intents|)
  {
    hide Process;
    assert (intents + [i])[..|intents + [i]| - 1] == intents;
  }

  /** Duplicated signals change nothing: the account equals the one that the first occurrences alone
      produce, whatever was seen before. */
  lemma {:induction false} DuplicatesChangeNothing(a: Account, intents: seq<Intent>, books: BookProvider)
    ensures ProcessAll(a, intents, books) == ProcessAll(a, FirstOccurrences(intents), books)
  {
    if intents != [] {
      hide Execute, ApplyFill;
      var n := |intents| - 1;
      var init, last := intents[..n], intents[n];
      var firsts := FirstOccurrences(init);
      DuplicatesChangeNothing(a, init, books);
      SeenAfterStream(a, init, books, last.signalId);
      if Occurs(init, last.signalId) {
        assert firsts + [] == firsts;
      } else {
        ProcessAppend(a, firsts, last, books);
        IdsDoNotMatter(ProcessAll(a, init, books), last, books(last.marketId, last.tokenId), n, n, |firsts|, |firsts|);
      }
    }
  }
}
