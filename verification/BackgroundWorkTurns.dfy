/** The mailbox as the object tools, child processes and the prompt loop share (background-work-turn.ts). */
module BackgroundWorkTurns {
  import opened Wrappers
  import opened BackgroundTurn

  lemma ReadyNext(jobs: seq<Entry>, consumed: set<JobId>, i: nat)
    requires i < |jobs|
    ensures Ready(jobs[i..], consumed) ==
      (if jobs[i].note.Some? && jobs[i].id !in consumed then [jobs[i]] else []) + Ready(jobs[i + 1..], consumed)
  {
  }

  class BackgroundWorkTurn {
    var jobs: seq<Entry>
    var consumed: set<JobId>
    var cancelled: bool
    var waiting: bool
    var steers: seq<string>
    /** `wake`, and whether it has been called. */
    var park: Park
    var serials: nat
    ghost var handed: seq<nat>

    ghost function View(): Turn
      reads this
    {
      Turn(jobs, consumed, cancelled, waiting, steers, park, serials, handed)
    }

    constructor ()
      ensures View() == NEW && Inv(View())
    {
      jobs, consumed, cancelled, waiting, steers, park, serials, handed := [], {}, false, false, [], Away, 0, [];
    }

    method WakeUp()
      modifies this`park
      ensures View() == Wake(old(View()))
    {
      if park.Parked? { park := Parked(true); }
    }

    method FindJob(id: JobId) returns (i: nat)
      ensures i <= |jobs| && (i < |jobs| ==> jobs[i].id == id)
      ensures Has(jobs, id) <==> i < |jobs|
    {
      i := 0;
      while i < |jobs| && jobs[i].id != id
        invariant i <= |jobs| && forall k | 0 <= k < i :: jobs[k].id != id
      {
        i := i + 1;
      }
    }

    method Register(id: JobId)
      requires Inv(View())
      modifies this`jobs, this`serials
      ensures View() == BackgroundTurn.Register(old(View()), id) && Inv(View())
    {
      RegisterKeeps(View(), id);
      var i := FindJob(id);
      if !cancelled && i == |jobs| {
        jobs, serials := jobs + [Entry(id, serials, None)], serials + 1;
      }
    }

    method Unregister(id: JobId)
      requires Inv(View())
      modifies this`jobs, this`consumed, this`park
      ensures View() == BackgroundTurn.Unregister(old(View()), id) && Inv(View())
    {
      hide Inv;
      UnregisterKeeps(View(), id);
      jobs, consumed := Without(jobs, id), consumed - {id};
      WakeUp();
    }

    /** The first answer of a live turn is kept and wakes `next`; any answer of an own job is swallowed. */
    method Complete(n: Note) returns (own: bool)
      requires Inv(View())
      modifies this`jobs, this`park
      ensures own <==> old(Has(jobs, n.job))
      ensures View() == BackgroundTurn.Complete(old(View()), n) && Inv(View())
    {
      CompleteKeeps(View(), n);
      var i := FindJob(n.job);
      if i == |jobs| { return false; }
      if !cancelled && jobs[i].note.None? { StoreNote(i, n); }
      own := true;
    }

    method StoreNote(i: nat, n: Note)
      requires HandedOnce(View()) && !cancelled && i < |jobs| && jobs[i].id == n.job && jobs[i].note.None?
      modifies this`jobs, this`park
      ensures View() == BackgroundTurn.Complete(old(View()), n)
    {
      assert forall k | 0 <= k < |jobs| :: jobs[k].id == n.job ==> k == i;
      assert jobs[i := jobs[i].(note := Some(n))] == Fill(jobs, n);
      jobs := jobs[i := jobs[i].(note := Some(n))];
      WakeUp();
    }

    method QueueSteer(text: string) returns (taken: bool)
      requires Inv(View())
      modifies this`steers, this`park
      ensures taken <==> old(waiting && !cancelled)
      ensures View() == BackgroundTurn.QueueSteer(old(View()), text) && Inv(View())
    {
      hide Inv;
      QueueSteerKeeps(View(), text);
      if !waiting || cancelled { return false; }
      steers := steers + [text];
      WakeUp();
      taken := true;
    }

    method Cancel()
      requires Inv(View())
      modifies this`cancelled, this`steers, this`park
      ensures View() == BackgroundTurn.Cancel(old(View())) && Inv(View())
    {
      hide Inv;
      QueueSteerKeeps(View(), "");
      cancelled, steers := true, [];
      WakeUp();
    }

    /** The results that are ready, in order of registration, are taken out. */
    method TakeBatch() returns (batch: seq<Entry>)
      requires HandedOnce(View())
      modifies this`consumed
      ensures batch == Ready(jobs, old(consumed))
      ensures consumed == old(consumed) + Ids(batch)
    {
      batch := [];
      ghost var before := consumed;
      for i := 0 to |jobs|
        invariant TakenSoFar(jobs, before, i, batch) && consumed == before + Ids(batch)
      {
        NextTaken(jobs, before, i, batch);
        if jobs[i].note.Some? && jobs[i].id !in consumed {
          batch, consumed := batch + [jobs[i]], consumed + {jobs[i].id};
        }
      }
      assert jobs[|jobs|..] == [];
    }

    /** One turn of the loop in `next()`: parks, or returns with a batch. */
    method Next() returns (batch: Option<seq<Entry>>)
      requires Inv(View())
      modifies this
      ensures View() == Look(old(View())) && Inv(View())
      ensures batch == if old(Blocked(View())) then None else Some(old(Batch(View())))
    {
      LookKeeps(View());
      var blocked := Blocked(Turn(jobs, consumed, cancelled, waiting, steers, park, serials, []));
      if blocked {
        waiting, park := true, Parked(false);
        return None;
      }
      var found := [];
      if !cancelled && steers == [] { found := TakeBatch(); }
      waiting, park := false, Away;
      handed := handed + Serials(found);
      batch := Some(found);
    }
  }

  lemma IdsAppend(batch: seq<Entry>, e: Entry)
    ensures Ids(batch + [e]) == Ids(batch) + {e.id}
  {
    var all := batch + [e];
    forall id ensures id in Ids(all) <==> id in Ids(batch) + {e.id} {
      IdsOf(all, id);
      IdsOf(batch, id);
      assert all[|batch|] == e;
    }
  }

  /** `batch` is what is ready among the first `i` jobs. */
  ghost predicate TakenSoFar(jobs: seq<Entry>, before: set<JobId>, i: nat, batch: seq<Entry>) {
    && i <= |jobs| && batch + Ready(jobs[i..], before) == Ready(jobs, before)
    && forall e | e in batch :: e in jobs[..i]
  }

  /** Ids are distinct, so what was taken so far cannot hide a later job. */
  lemma NextTaken(jobs: seq<Entry>, before: set<JobId>, i: nat, batch: seq<Entry>)
    requires Distinct(jobs) && i < |jobs| && TakenSoFar(jobs, before, i, batch)
    ensures jobs[i].id !in Ids(batch) && Ids(batch + [jobs[i]]) == Ids(batch) + {jobs[i].id}
    ensures TakenSoFar(jobs, before, i + 1, if jobs[i].note.Some? && jobs[i].id !in before then batch + [jobs[i]] else batch)
  {
    ReadyNext(jobs, before, i);
    IdsAppend(batch, jobs[i]);
    IdsOf(batch, jobs[i].id);
    forall e | e in batch ensures e.id != jobs[i].id {
      var k :| 0 <= k < i && jobs[..i][k] == e;
    }
    assert jobs[..i + 1] == jobs[..i] + [jobs[i]];
    assert batch + ([jobs[i]] + Ready(jobs[i + 1..], before)) == (batch + [jobs[i]]) + Ready(jobs[i + 1..], before);
    assert batch + ([] + Ready(jobs[i + 1..], before)) == batch + Ready(jobs[i + 1..], before);
  }
}
