/**
 Where every job is: the bookkeeping of the single slot, on statuses alone.

 Conservation (each submitted id is in exactly one of queue, hand and processed, in submission order) and
 the agreement of places with statuses are kept by the few moves a job can make.
 */
module Ledger {
  import opened Prelude
  import opened Jobs

  datatype Ledger = Ledger(
    status: map<JobId, Status>, cancelled: set<JobId>, queue: seq<JobId>, hand: seq<JobId>,
    running: bool, submitted: seq<JobId>, processed: seq<JobId>)
  {
    /** hand is the worker's job, if any; running is whether its engine call is awaited. */
    ghost predicate Valid() {
      && submitted == processed + hand + queue
      && NoDuplicates(submitted)
      && |hand| <= 1
      && (running ==> |hand| == 1)
      && (forall id :: id in submitted <==> id in status)
      && (forall id :: id in cancelled <==> id in status && status[id].Cancelled?)
      && (forall id <- processed :: id in status && status[id].Terminal())
      && (forall id <- queue :: id in status && (status[id].Queued? || status[id].Cancelled?))
      && (forall id <- hand ::
            id in status && (status[id].Cancelled? || status[id] == (if running then Running else Queued)))
    }

    function Move(id: JobId, to: Status): Ledger {
      this.(status := status[id := to])
    }

    function Submit(id: JobId): Ledger {
      Move(id, Queued).(queue := queue + [id], submitted := submitted + [id])
    }

    function Cancel(id: JobId): Ledger {
      Move(id, Cancelled).(cancelled := cancelled + {id})
    }

    function Pop(): Ledger
      requires queue != []
    {
      this.(queue := queue[1..], hand := [queue[0]], running := false)
    }

    function Drop(): Ledger {
      this.(hand := [], processed := processed + hand, running := false)
    }
  }

  lemma Apart(l: Ledger, id: JobId)
    requires l.Valid() && id in l.hand
    ensures l.hand == [id] && id !in l.queue && id !in l.processed
  {
    assert l.submitted[|l.processed|] == id;
    forall k | 0 <= k < |l.queue|
      ensures l.queue[k] != id
    {
      assert l.submitted[|l.processed| + 1 + k] == l.queue[k];
    }
    forall k | 0 <= k < |l.processed|
      ensures l.processed[k] != id
    {
      assert l.submitted[k] == l.processed[k];
    }
  }

  lemma SubmitKeeps(l: Ledger, id: JobId)
    requires l.Valid() && id !in l.status
    ensures l.Submit(id).Valid()
  {
    var l' := l.Submit(id);
    assert l'.submitted == l'.processed + l'.hand + l'.queue;
    assert id !in l.submitted;
    forall x
      ensures x in l'.submitted <==> x in l'.status
    {
      assert x in l'.submitted <==> x in l.submitted || x == id;
    }
  }

  lemma CancelKeeps(l: Ledger, id: JobId)
    requires l.Valid() && id in l.status && !l.status[id].Terminal()
    ensures l.Cancel(id).Valid()
  {
  }

  lemma PopKeeps(l: Ledger)
    requires l.Valid() && l.hand == [] && l.queue != []
    ensures l.Pop().Valid() && l.Pop().hand == [l.queue[0]]
  {
    var l' := l.Pop();
    assert l'.submitted == l'.processed + l'.hand + l'.queue;
  }

  lemma DropKeeps(l: Ledger)
    requires l.Valid() && forall id <- l.hand :: l.status[id].Terminal()
    ensures l.Drop().Valid()
  {
    var l' := l.Drop();
    assert l'.submitted == l'.processed + l'.hand + l'.queue;
  }

  lemma RunKeeps(l: Ledger, id: JobId)
    requires l.Valid() && id in l.hand && !l.running && id !in l.cancelled
    ensures l.Move(id, Running).(running := true).Valid()
  {
    Apart(l, id);
  }

  lemma EndKeeps(l: Ledger, id: JobId, to: Status)
    requires l.Valid() && id in l.hand && id !in l.cancelled && (to.Failed? || to.Succeeded?)
    ensures l.Move(id, to).Drop().Valid()
  {
    Apart(l, id);
    var l' := l.Move(id, to).Drop();
    assert l'.submitted == l'.processed + l'.hand + l'.queue;
  }

  /** The three places are disjoint: nothing is lost, doubled or in two places. */
  lemma ExactlyOnePlace(l: Ledger, id: JobId)
    requires l.Valid()
    ensures id in l.status <==> multiset(l.processed + l.hand + l.queue)[id] == 1
    ensures multiset(l.processed)[id] + multiset(l.hand)[id] + multiset(l.queue)[id]
            == (if id in l.status then 1 else 0)
  {
    assert multiset(l.submitted) == multiset(l.processed) + multiset(l.hand) + multiset(l.queue);
    OnceEach(l.submitted, id);
  }

  lemma {:induction false} OnceEach(s: seq<JobId>, id: JobId)
    requires NoDuplicates(s)
    ensures multiset(s)[id] == if id in s then 1 else 0
  {
    if s != [] {
      var init, last := s[..|s| - 1], s[|s| - 1];
      assert s == init + [last];
      OnceEach(init, id);
    }
  }
}
