/** What a pass of the delivery loop brings about, whatever the world contributes to it: which rows
    the provider is called with, what was settled and admitted before, and what becomes of the
    answer. */
module DeliveryEffects {
  import opened Common
  import opened JournalModel
  import I = Inbox
  import opened InboxSource
  import opened NotificationModel
  import opened NotificationEffects
  import opened DeliveryLoop

  // A pass left alone: every answer is heard, the provider's too.
  predicate Undisturbed(p: Pass) {
    p.ready.Heard? && p.prepare.Heard? && p.reserve.Heard? && p.resolve.Heard? && p.answer.Some?
  }

  ghost predicate Honest(p: Pass) {
    I.Coherent(p.seed) && I.Coherent(p.first) && I.Coherent(p.second) && I.Coherent(p.third)
  }

  // Whether a pass has to settle something first.
  predicate Doubtful(started: bool, unresolved: bool) {
    !started || unresolved
  }

  // The journal once whatever may have been open is settled, once it is prepared, and once a group
  // is reserved, in a pass that gets that far.
  function AfterReady(s: State, doubt: bool, p: Pass, caps: Capabilities): State {
    if doubt then ReadyFrom(s, p.seed, p.readyAt, caps).state else s
  }

  function AfterPrepare(s: State, doubt: bool, p: Pass, caps: Capabilities): State {
    PrepareFrom(AfterReady(s, doubt, p, caps), p.first, p.second, p.prepareAt, caps).state
  }

  function AfterReserve(s: State, doubt: bool, p: Pass, caps: Capabilities): State {
    ReserveFrom(AfterPrepare(s, doubt, p, caps), p.third, p.reserveAt, caps).state
  }

  // A pass that calls the provider, or finds nothing to call it with, has settled any doubt about
  // an open attempt, seeded the pointers and prepared.
  lemma TurnPrepares(s: State, started: bool, unresolved: bool, p: Pass, caps: Capabilities)
    requires Valid(s) && Honest(p)
    ensures var t := TurnOf(s, started, unresolved, p, caps); var doubt := Doubtful(started, unresolved);
      t.ended.NothingDue? || t.called != [] ==>
        var ready, prepared := AfterReady(s, doubt, p, caps), AfterPrepare(s, doubt, p, caps);
        && Valid(ready) && Valid(prepared)
        && (doubt ==> ready.attempt.None? && ready.seeded)
        && (|| Reaches(ready.enumerated, ready.work.Keys, prepared, p.second, caps)
            || (prepared.enumerated == ready.enumerated && |prepared.work| + 128 > 2048))
  {
    hide Valid, ReadyFrom, PrepareFrom, ReserveFrom, Resolve, I.Coherent, Reaches;
    TurnReads(s, started, unresolved, p, caps);
    var doubt := Doubtful(started, unresolved);
    if doubt {
      ReadyMembers(s, p.seed, p.readyAt, caps);
      if ReadyFrom(s, p.seed, p.readyAt, caps).failure.None? {
        ReadySeeds(s, p.seed, p.readyAt, caps);
      }
    }
    var ready := AfterReady(s, doubt, p, caps);
    PreparedMembers(ready, p.first, p.second, p.prepareAt, caps);
    if PrepareFrom(ready, p.first, p.second, p.prepareAt, caps).failure.None? {
      PrepareReaches(ready, p.first, p.second, p.prepareAt, caps);
    }
    hide TurnOf;
  }

  // What a pass has read of its jobs' answers when it ends with nothing due, or calls.
  lemma TurnReads(s: State, started: bool, unresolved: bool, p: Pass, caps: Capabilities)
    ensures var t := TurnOf(s, started, unresolved, p, caps); var doubt := Doubtful(started, unresolved);
      var prepared := PrepareFrom(AfterReady(s, doubt, p, caps), p.first, p.second, p.prepareAt, caps);
      var reserved := ReserveFrom(prepared.state, p.third, p.reserveAt, caps);
      && (t.ended.NothingDue? || t.called != [] ==>
            && (doubt ==> p.ready.Heard? && ReadyFrom(s, p.seed, p.readyAt, caps).failure.None?)
            && p.prepare.Heard? && prepared.failure.None?)
      && (t.ended.NothingDue? ==>
            && t.called == []
            && if prepared.rows == [] then t.state == prepared.state
               else p.reserve.Heard? && reserved.failure.None? && reserved.rows == [] && t.state == reserved.state)
      && (t.called != [] ==> prepared.rows != [] && p.reserve.Heard? && reserved.failure.None? && t.called == reserved.rows)
  {
    hide ReadyFrom, PrepareFrom, ReserveFrom, Resolve, ReportOf;
  }

  // The provider is called with the next group there is, which the open attempt holds exactly; the
  // inbox has released none of its rows when they are reserved.
  lemma TurnCalls(s: State, started: bool, unresolved: bool, p: Pass, caps: Capabilities)
    requires Valid(s) && Honest(p)
    ensures var t := TurnOf(s, started, unresolved, p, caps); var standing := AfterReserve(s, Doubtful(started, unresolved), p, caps);
      t.called != [] ==>
        && NextGroup(standing, t.called, p.reserveAt, caps.pointers)
        && standing.attempt == Some(p.reserveAt) && (forall q :: q in standing.members <==> q in t.called)
        && AllUpheld(standing, p.third, caps)
  {
    hide Valid, ReadyFrom, PrepareFrom, ReserveFrom, Resolve, I.Coherent, NextGroup, AllUpheld;
    TurnReads(s, started, unresolved, p, caps);
    var t := TurnOf(s, started, unresolved, p, caps);
    var prepared := AfterPrepare(s, Doubtful(started, unresolved), p, caps);
    TurnValid(s, Doubtful(started, unresolved), p, caps);
    if t.called != [] {
      ReserveTakesNext(prepared, p.third, p.reserveAt, caps);
      ReserveUpheld(prepared, p.third, p.reserveAt, caps);
    }
    hide TurnOf;
  }

  lemma TurnValid(s: State, doubt: bool, p: Pass, caps: Capabilities)
    requires Valid(s)
    ensures Valid(AfterReady(s, doubt, p, caps)) && Valid(AfterPrepare(s, doubt, p, caps)) && Valid(AfterReserve(s, doubt, p, caps))
  {
    hide Valid, ReadyFrom, PrepareFrom, ReserveFrom;
    if doubt {
      ReadyMembers(s, p.seed, p.readyAt, caps);
    }
    PreparedMembers(AfterReady(s, doubt, p, caps), p.first, p.second, p.prepareAt, caps);
    ReservedMembers(AfterPrepare(s, doubt, p, caps), p.third, p.reserveAt, caps);
  }

  // Nothing was due: no call was made, and none could have been, in the journal as it was prepared
  // or as the reservation found it.
  lemma TurnRests(s: State, started: bool, unresolved: bool, p: Pass, caps: Capabilities)
    requires Valid(s) && Honest(p) && TurnOf(s, started, unresolved, p, caps).ended.NothingDue?
    ensures var t := TurnOf(s, started, unresolved, p, caps);
      && t.called == [] && t.started && !t.unresolved
      && (NextGroup(t.state, [], p.prepareAt, caps.pointers) || NextGroup(t.state, [], p.reserveAt, caps.pointers))
  {
    hide Valid, ReadyFrom, PrepareFrom, ReserveFrom, Resolve, I.Coherent, NextGroup;
    TurnReads(s, started, unresolved, p, caps);
    var doubt := Doubtful(started, unresolved);
    var ready, prepared := AfterReady(s, doubt, p, caps), AfterPrepare(s, doubt, p, caps);
    TurnValid(s, doubt, p, caps);
    var t := TurnOf(s, started, unresolved, p, caps);
    if PrepareFrom(ready, p.first, p.second, p.prepareAt, caps).rows == [] {
      PrepareReaches(ready, p.first, p.second, p.prepareAt, caps);
      DueIsNext(prepared, p.prepareAt, caps.pointers);
    } else {
      ReserveTakesNext(prepared, p.third, p.reserveAt, caps);
    }
  }

  // A pass is only ever cancelled from outside; left alone it stops at a job that failed, finds
  // nothing due, or calls and records the provider's own answer on the journal it called from.
  lemma TurnEnds(s: State, started: bool, unresolved: bool, p: Pass, caps: Capabilities)
    requires Undisturbed(p)
    ensures var t := TurnOf(s, started, unresolved, p, caps); var standing := AfterReserve(s, Doubtful(started, unresolved), p, caps);
      && (t.ended.Stopped? || t.ended.NothingDue? || t.ended.Completed?)
      && (t.ended.Completed? <==> t.called != [] && Resolve(standing, p.answer.value, p.resolveAt).Commit?)
      && (t.ended.Completed? ==>
            && t.ended.outcome == p.answer.value && t.started && !t.unresolved
            && t.state == Resolve(standing, p.answer.value, p.resolveAt).state)
  {
    hide ReadyFrom, PrepareFrom, ReserveFrom, Resolve;
    TurnReads(s, started, unresolved, p, caps);
  }
}
