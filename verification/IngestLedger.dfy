/** The ingest ledger of the retrieval runner: one uninterrupted pass over the batches, and what it writes down. */
module IngestLedger {
  import opened Sequences

  /** What is written to the result file: batches in order, the documents in them, and which of them failed. */
  datatype Ledger = Ledger(perBatchDocs: seq<nat>, documentsWritten: nat, itemsProcessed: nat, failed: seq<nat>)

  const FRESH := Ledger([], 0, 0, [])
  const MAX_ATTEMPTS := 3

  /** The answer to one `remember` call: an error or nothing at all counts as no items. */
  datatype Answer = Answer(error: bool, items: nat)

  predicate Accepted(a: Answer) {
    !a.error && a.items > 0
  }

  function Flatten<T>(parts: seq<seq<T>>): seq<T> {
    if parts == [] then [] else Flatten(parts[..|parts| - 1]) + parts[|parts| - 1]
  }

  function Lengths<T>(parts: seq<seq<T>>): (r: seq<nat>)
    ensures |r| == |parts|
  {
    seq(|parts|, i requires 0 <= i < |parts| => |parts[i]|)
  }

  lemma {:induction false} FlattenLength<T>(parts: seq<seq<T>>)
    ensures |Flatten(parts)| == Sum(Lengths(parts))
  {
    if parts != [] {
      FlattenLength(parts[..|parts| - 1]);
      assert Lengths(parts)[..|parts| - 1] == Lengths(parts[..|parts| - 1]);
    }
  }

  lemma {:induction false} FlattenConcat<T>(a: seq<seq<T>>, b: seq<seq<T>>)
    ensures Flatten(a + b) == Flatten(a) + Flatten(b)
    ensures forall part: seq<T> :: Flatten([part]) == part
  {
    if b == [] {
      assert a + b == a;
    } else {
      assert (a + b)[..|a + b| - 1] == a + b[..|b| - 1];
      FlattenConcat(a, b[..|b| - 1]);
    }
    forall part: seq<T> ensures Flatten([part]) == part {
      assert [part][..0] == [];
    }
  }

  /** Cut the documents into batches: nothing lost or reordered, no batch empty, only the last one short. */
  method ChunkTexts<T>(texts: seq<T>, size: nat) returns (out: seq<seq<T>>)
    requires size > 0
    ensures Flatten(out) == texts
    ensures forall i :: 0 <= i < |out| ==> 0 < |out[i]| <= size && (i < |out| - 1 ==> |out[i]| == size)
    ensures Sum(Lengths(out)) == |texts|
  {
    out := [];
    var i := 0;
    while i < |texts|
      invariant Flatten(out) == texts[..if i < |texts| then i else |texts|]
      invariant forall j :: 0 <= j < |out| ==> 0 < |out[j]| <= size && (j < |out| - 1 ==> |out[j]| == size)
      invariant i < |texts| && out != [] ==> |out[|out| - 1]| == size
    {
      var end := if i + size < |texts| then i + size else |texts|;
      assert texts[..end] == texts[..i] + texts[i..end];
      assert (out + [texts[i..end]])[..|out|] == out;
      out := out + [texts[i..end]];
      i := i + size;
    }
    assert texts[..|texts|] == texts;
    FlattenLength(out);
  }

  /** Batch `b`, holding `docs` documents, is written down whether or not it was accepted. */
  function Recorded(l: Ledger, b: nat, docs: nat, a: Answer): Ledger {
    Ledger(l.perBatchDocs + [docs], l.documentsWritten + docs, l.itemsProcessed + a.items,
           if Accepted(a) then l.failed else l.failed + [b])
  }

  /** The answer that ends the retries of batch `i`: the first accepted one, or the third. */
  function LastAnswer(server: (nat, nat) -> Answer, i: nat, attempt: nat): Answer
    requires 1 <= attempt <= MAX_ATTEMPTS
    decreases MAX_ATTEMPTS - attempt
  {
    if Accepted(server(i, attempt)) || attempt == MAX_ATTEMPTS then server(i, attempt)
    else LastAnswer(server, i, attempt + 1)
  }

  /** The ledger after the batches from `next` to `end` were sent. */
  function RecordRest(l: Ledger, sizes: seq<nat>, server: (nat, nat) -> Answer, next: nat, end: nat): Ledger
    requires next <= end <= |sizes|
  {
    if next == end then l
    else Recorded(RecordRest(l, sizes, server, next, end - 1), end - 1, sizes[end - 1], LastAnswer(server, end - 1, 1))
  }

  lemma RecordNone(l: Ledger, sizes: seq<nat>, server: (nat, nat) -> Answer, next: nat)
    requires next <= |sizes|
    ensures RecordRest(l, sizes, server, next, next) == l
  {
  }

  lemma RecordNext(l: Ledger, sizes: seq<nat>, server: (nat, nat) -> Answer, next: nat, end: nat)
    requires next <= end < |sizes|
    ensures RecordRest(l, sizes, server, next, end + 1)
         == Recorded(RecordRest(l, sizes, server, next, end), end, sizes[end], LastAnswer(server, end, 1))
  {
  }

  /** The batch a run begins with: the one after the recorded ones, if there are documents and batches left. */
  function FirstBatch(l: Ledger, sizes: seq<nat>): (start: nat)
    ensures start <= |sizes|
  {
    if l.documentsWritten == 0 then 0 else if |l.perBatchDocs| < |sizes| then |l.perBatchDocs| else |sizes|
  }

  /**
   * The ledger after an ingest, or none when it is refused: a listed dataset is gone on with only under --resume and
   * with something recorded, and skipped when everything is.
   */
  function Ingested(
      l: Ledger, sizes: seq<nat>, server: (nat, nat) -> Answer, listed: bool, resume: bool): Option<Ledger>
  {
    if listed && !(resume && l.documentsWritten > 0) then None
    else if listed && l.documentsWritten >= Sum(sizes) then Some(l)
    else Some(RecordRest(l, sizes, server, FirstBatch(l, sizes), |sizes|))
  }

  class RawIngest {
    var perBatchDocs: seq<nat>
    var documentsWritten: nat
    var itemsProcessed: nat
    var failed: seq<nat>

    constructor (l: Ledger)
      ensures View() == l
    {
      perBatchDocs, documentsWritten, itemsProcessed, failed :=
        l.perBatchDocs, l.documentsWritten, l.itemsProcessed, l.failed;
    }

    function View(): Ledger
      reads this
    {
      Ledger(perBatchDocs, documentsWritten, itemsProcessed, failed)
    }

    /** The guard on an existing dataset, and then the batch loop. */
    method Start(
        sizes: seq<nat>, total: nat, server: (nat, nat) -> Answer, listed: bool, resume: bool) returns (ok: bool)
      requires total == Sum(sizes)
      modifies this
      ensures ok == Ingested(old(View()), sizes, server, listed, resume).Some?
      ensures View() == if ok then Ingested(old(View()), sizes, server, listed, resume).value else old(View())
    {
      if listed {
        if resume && documentsWritten > 0 {
          if documentsWritten >= total {
            return true;
          }
        } else {
          return false;
        }
      }
      Ingest(sizes, server);
      return true;
    }

    /** The batch loop: up to three attempts a batch, then the batch is recorded whether or not it was accepted. */
    method Ingest(sizes: seq<nat>, server: (nat, nat) -> Answer)
      modifies this
      ensures View() == RecordRest(old(View()), sizes, server, FirstBatch(old(View()), sizes), |sizes|)
    {
      hide RecordRest, Flatten, Sum;
      var i := 0;
      if documentsWritten > 0 {
        i := |perBatchDocs|;
      }
      ghost var start := FirstBatch(View(), sizes);
      RecordNone(View(), sizes, server, start);
      while i < |sizes|
        invariant i <= |sizes| ==> start <= i && View() == RecordRest(old(View()), sizes, server, start, i)
        invariant i > |sizes| ==> start == |sizes| && View() == old(View())
      {
        var attempt := 1;
        var answer := server(i, attempt);
        while !Accepted(answer) && attempt < MAX_ATTEMPTS
          invariant 1 <= attempt <= MAX_ATTEMPTS && answer == server(i, attempt)
          invariant LastAnswer(server, i, attempt) == LastAnswer(server, i, 1)
          decreases MAX_ATTEMPTS - attempt
        {
          attempt := attempt + 1;
          answer := server(i, attempt);
        }
        if !Accepted(answer) {
          failed := failed + [i];
        }
        perBatchDocs := perBatchDocs + [sizes[i]];
        documentsWritten := documentsWritten + sizes[i];
        itemsProcessed := itemsProcessed + answer.items;
        RecordNext(old(View()), sizes, server, start, i);
        i := i + 1;
      }
    }
  }

  /**
   * A start is refused exactly when the dataset exists and the run does not resume with something recorded; it sends
   * nothing when everything is recorded of an existing dataset, and the rest otherwise.
   */
  lemma {:induction false} StartsExactly(
      l: Ledger, sizes: seq<nat>, server: (nat, nat) -> Answer, listed: bool, resume: bool)
    ensures Ingested(l, sizes, server, listed, resume) == None <==> listed && (!resume || l.documentsWritten == 0)
    ensures listed && resume && 0 < l.documentsWritten && Sum(sizes) <= l.documentsWritten ==>
              Ingested(l, sizes, server, listed, resume) == Some(l)
    ensures !listed || (resume && 0 < l.documentsWritten < Sum(sizes)) ==>
              Ingested(l, sizes, server, listed, resume)
              == Some(RecordRest(l, sizes, server, FirstBatch(l, sizes), |sizes|))
  {
  }

  lemma {:induction false} RecordRestTotals(
      l: Ledger, sizes: seq<nat>, server: (nat, nat) -> Answer, next: nat, end: nat)
    requires next <= end <= |sizes|
    ensures var r := RecordRest(l, sizes, server, next, end);
            && r.perBatchDocs == l.perBatchDocs + sizes[next..end]
            && r.documentsWritten + Sum(sizes[..next]) == l.documentsWritten + Sum(sizes[..end])
  {
    hide Sum, LastAnswer, Accepted;
    if next == end {
      assert l.perBatchDocs + sizes[next..end] == l.perBatchDocs;
    } else {
      RecordRestTotals(l, sizes, server, next, end - 1);
      PrefixSum(sizes, end);
      assert sizes[next..end] == sizes[next..end - 1] + [sizes[end - 1]];
    }
  }

  /** The documents of the first `k` batches, or all of them when there are fewer batches. */
  function DocsOfFirst(sizes: seq<nat>, k: nat): nat {
    Sum(sizes[..if k < |sizes| then k else |sizes|])
  }

  /** The loop goes on with batch `k` of the new cut, `k` batches having been recorded with the old one. */
  lemma {:induction false} LoopUnderOtherBatchSize(
      was: seq<nat>, now: seq<nat>, k: nat, l: Ledger, server: (nat, nat) -> Answer)
    requires Sum(was) == Sum(now) && k <= |was| && l.perBatchDocs == was[..k] && l.documentsWritten == Sum(was[..k]) > 0
    ensures RecordRest(l, now, server, FirstBatch(l, now), |now|).documentsWritten == Sum(now)
            <==> DocsOfFirst(was, k) == DocsOfFirst(now, k)
  {
    RecordRestTotals(l, now, server, FirstBatch(l, now), |now|);
    assert now[..|now|] == now;
  }

  /**
   * Resuming under another batch size with some documents recorded is never refused. It ends with every document
   * counted exactly once if and only if all of them were recorded and the dataset is listed, when nothing is sent, or
   * the recorded batches hold the same number of documents under both cuts. Both can be checked before resuming.
   */
  lemma {:induction false} ResumeUnderOtherBatchSize(
      was: seq<nat>, now: seq<nat>, k: nat, l: Ledger, listed: bool, server: (nat, nat) -> Answer)
    requires Sum(was) == Sum(now) && k <= |was| && l.perBatchDocs == was[..k] && l.documentsWritten == Sum(was[..k]) > 0
    ensures var r := Ingested(l, now, server, listed, true);
            && r.Some?
            && (r.value.documentsWritten == Sum(now)
                <==> (listed && Sum(was[..k]) == Sum(now)) || DocsOfFirst(was, k) == DocsOfFirst(now, k))
  {
    LoopUnderOtherBatchSize(was, now, k, l, server);
    PartSum(was, k);
  }

  /** The first batches hold at most as many documents as all. */
  lemma {:induction false} PartSum(s: seq<nat>, k: nat)
    requires k <= |s|
    ensures Sum(s[..k]) <= Sum(s)
    decreases |s| - k
  {
    if k == |s| {
      assert s[..k] == s;
    } else {
      PrefixSum(s, k + 1);
      PartSum(s, k + 1);
    }
  }

  /** All ten documents recorded by fives: a cut by two is skipped on a listed dataset, and counts sixteen otherwise. */
  lemma CompleteUnderOtherBatchSize(l: Ledger, server: (nat, nat) -> Answer)
    requires l.perBatchDocs == [5, 5] && l.documentsWritten == 10
    ensures Ingested(l, [2, 2, 2, 2, 2], server, true, true) == Some(l)
    ensures var r := Ingested(l, [2, 2, 2, 2, 2], server, false, true); r.Some? && r.value.documentsWritten == 16
  {
    TwosSum();
    RecordRestTotals(l, [2, 2, 2, 2, 2], server, 2, 5);
  }

  lemma TwosSum()
    ensures var now: seq<nat> := [2, 2, 2, 2, 2];
            Sum(now) == Sum(now[..5]) == 10 && Sum(now[..1]) == 2 && Sum(now[..2]) == 4
  {
    var now: seq<nat> := [2, 2, 2, 2, 2];
    PrefixSum(now, 5);
    PrefixSum(now, 4);
    PrefixSum(now, 3);
    PrefixSum(now, 2);
    PrefixSum(now, 1);
    assert now[..5] == now;
  }

  /** Ten documents cut by five, one batch recorded, then resumed with a cut by two: thirteen documents are counted. */
  lemma OtherBatchSizeMiscounts(server: (nat, nat) -> Answer)
    ensures RecordRest(Ledger([5], 5, 1, []), [2, 2, 2, 2, 2], server, 1, 5).documentsWritten == 13
  {
    TwosSum();
    RecordRestTotals(Ledger([5], 5, 1, []), [2, 2, 2, 2, 2], server, 1, 5);
  }

  /** The documents in those batches from `next` to `end` that were accepted. */
  function AcceptedDocs(sizes: seq<nat>, server: (nat, nat) -> Answer, next: nat, end: nat): nat
    requires next <= end <= |sizes|
  {
    if next == end then 0
    else
      AcceptedDocs(sizes, server, next, end - 1)
      + if Accepted(LastAnswer(server, end - 1, 1)) then sizes[end - 1] else 0
  }

  /** One of the up to three answers on batch `i`, from the given attempt on, is no error and processed some items. */
  ghost predicate AcceptedInTime(server: (nat, nat) -> Answer, i: nat, attempt: nat) {
    exists a :: attempt <= a <= 3 && !server(i, a).error && server(i, a).items > 0
  }

  lemma {:induction false} RetriesFindAcceptance(server: (nat, nat) -> Answer, i: nat, attempt: nat)
    requires 1 <= attempt <= MAX_ATTEMPTS
    ensures Accepted(LastAnswer(server, i, attempt)) <==> AcceptedInTime(server, i, attempt)
    decreases MAX_ATTEMPTS - attempt
  {
    if !Accepted(server(i, attempt)) && attempt < MAX_ATTEMPTS {
      RetriesFindAcceptance(server, i, attempt + 1);
    }
  }

  /**
   * `documentsWritten` also counts a batch whose three attempts all failed. Going on from any ledger, of whose
   * documents `accepted` were accepted, the figure is the number of accepted documents exactly when it was so before
   * and the server accepts every batch still to be sent within three attempts.
   */
  lemma {:induction false} WrittenMeansAcceptedExactly(
      l: Ledger, accepted: nat, sizes: seq<nat>, server: (nat, nat) -> Answer, next: nat, end: nat)
    requires next <= end <= |sizes| && accepted <= l.documentsWritten && forall i :: 0 <= i < |sizes| ==> sizes[i] > 0
    ensures var written := RecordRest(l, sizes, server, next, end).documentsWritten;
            var total := accepted + AcceptedDocs(sizes, server, next, end);
            && total <= written
            && (written == total <==>
                accepted == l.documentsWritten && forall i :: next <= i < end ==> AcceptedInTime(server, i, 1))
  {
    if next < end {
      WrittenMeansAcceptedExactly(l, accepted, sizes, server, next, end - 1);
      RetriesFindAcceptance(server, end - 1, 1);
    }
  }

  /**
   * The error list after the batches from `next` to `end`: what was there before, then, in order and each once, the
   * batches none of whose up to three answers was accepted.
   */
  lemma {:induction false} FailedExactly(
      l: Ledger, sizes: seq<nat>, server: (nat, nat) -> Answer, next: nat, end: nat)
    requires next <= end <= |sizes|
    ensures var failed := RecordRest(l, sizes, server, next, end).failed;
            && |l.failed| <= |failed| && failed[..|l.failed|] == l.failed
            && (forall p, q :: |l.failed| <= p < q < |failed| ==> failed[p] < failed[q])
            && forall b: nat :: b in failed[|l.failed|..] <==> next <= b < end && !AcceptedInTime(server, b, 1)
  {
    if next < end {
      hide LastAnswer, AcceptedInTime;
      FailedExactly(l, sizes, server, next, end - 1);
      RetriesFindAcceptance(server, end - 1, 1);
      var before := RecordRest(l, sizes, server, next, end - 1).failed;
      var failed := RecordRest(l, sizes, server, next, end).failed;
      if failed != before {
        assert failed[|l.failed|..] == before[|l.failed|..] + [end - 1];
        assert forall p :: |l.failed| <= p < |before| ==> before[|l.failed|..][p - |l.failed|] == before[p];
        assert forall p :: |l.failed| <= p < |before| ==> before[p] in before[|l.failed|..];
      }
    }
  }

  /** A server that accepts nothing: the run still reports every document as written. */
  lemma NothingAcceptedEverythingWritten()
    ensures var refuse := (i: nat, attempt: nat) => Answer(true, 0);
            && RecordRest(FRESH, [25], refuse, 0, 1).documentsWritten == 25
            && AcceptedDocs([25], refuse, 0, 1) == 0
  {
    var refuse := (i: nat, attempt: nat) => Answer(true, 0);
    RecordRestTotals(FRESH, [25], refuse, 0, 1);
    assert AcceptedDocs([25], refuse, 0, 0) == 0;
  }
}
