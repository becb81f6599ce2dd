/** One pass of the delivery loop, as its single task runs it: ready if anything may be open,
    prepare, reserve, then one provider call, then its outcome. The pass may be cancelled at any
    of its waits, and any job may fail. */
module DeliveryLoop {
  import opened Common
  import opened JournalModel
  import opened JournalRuns
  import I = Inbox
  import opened InboxSource
  import opened NotificationModel
  import opened Notifier
  import opened NotificationStore
  import W = NotifierWorld

  // How waiting for a job of the worker ends: its answer comes; the pass is cancelled, but the job
  // runs all the same; or the worker closes before it does.
  datatype Wait = Heard | Unheard | Lost

  // What the outside world contributes to a pass: how each wait ends, the clock and the inbox at
  // each step, and the provider's answer, unless the pass is cancelled before it comes.
  datatype Pass = Pass(ready: Wait, prepare: Wait, reserve: Wait, resolve: Wait,
                       readyAt: int, prepareAt: int, reserveAt: int, resolveAt: int,
                       seed: I.Contents, first: I.Contents, second: I.Contents, third: I.Contents,
                       answer: Option<Outcome>)

  datatype PassResult = Concurrent | Stopped(failure: Failure) | NothingDue | Cancelled | Completed(outcome: Outcome)

  // Nothing is open: the loop has settled what it found and every call since.
  ghost predicate Clean(s: State, started: bool, unresolved: bool) {
    started && !unresolved ==> s.attempt.None?
  }

  // Part of a pass: what it leaves in the journal and in the loop, whether the pass ends with it,
  // and the rows it chose.
  datatype Part = Part(state: State, started: bool, unresolved: bool, ended: Option<PassResult>, rows: seq<int>)

  // A job waited for: cancelled, failed, or done.
  function Waited(s: State, r: Report, wait: Wait): (State, Option<PassResult>) {
    match wait
    case Lost => (s, Some(Cancelled))
    case Unheard => (r.state, Some(Cancelled))
    case Heard => (r.state, if r.failure.Some? then Some(Stopped(r.failure.value)) else None)
  }

  // Settling what may be open, when anything may be.
  function ReadyOf(s: State, started: bool, unresolved: bool, p: Pass, caps: Capabilities): Part {
    if started && !unresolved then Part(s, true, false, None, [])
    else
      var (t, ended) := Waited(s, ReadyFrom(s, p.seed, p.readyAt, caps), p.ready);
      if ended.Some? then Part(t, started, unresolved, ended, []) else Part(t, true, false, None, [])
  }

  // What is due, reserved. From asking for the reservation on an attempt may be open.
  function ChoiceOf(s: State, p: Pass, caps: Capabilities): Part {
    var prepared := PrepareFrom(s, p.first, p.second, p.prepareAt, caps);
    var (t, ended) := Waited(s, prepared, p.prepare);
    if ended.Some? then Part(t, true, false, ended, [])
    else if prepared.rows == [] then Part(t, true, false, Some(NothingDue), [])
    else
      var reserved := ReserveFrom(t, p.third, p.reserveAt, caps);
      var (u, stopped) := Waited(t, reserved, p.reserve);
      if stopped.Some? then Part(u, true, true, stopped, [])
      else if reserved.rows == [] then Part(u, true, false, Some(NothingDue), [])
      else Part(u, true, true, None, reserved.rows)
  }

  // How a pass ends: what it leaves in the journal and in the loop, and the rows it called with.
  datatype Turn = Turn(state: State, started: bool, unresolved: bool, ended: PassResult, called: seq<int>)

  // After the provider call: an answer that was not heard to be recorded leaves the attempt to the
  // next pass.
  function AnswerOf(s: State, called: seq<int>, p: Pass): Turn {
    if p.answer.None? then Turn(s, true, true, Cancelled, called)
    else
      var (t, ended) := Waited(s, ReportOf(s, Resolve(s, p.answer.value, p.resolveAt)), p.resolve);
      if ended.Some? then Turn(t, true, true, ended.value, called) else Turn(t, true, false, Completed(p.answer.value), called)
  }

  function TurnOf(s: State, started: bool, unresolved: bool, p: Pass, caps: Capabilities): Turn {
    var ready := ReadyOf(s, started, unresolved, p, caps);
    if ready.ended.Some? then Turn(ready.state, ready.started, ready.unresolved, ready.ended.value, [])
    else
      var chosen := ChoiceOf(ready.state, p, caps);
      if chosen.ended.Some? then Turn(chosen.state, chosen.started, chosen.unresolved, chosen.ended.value, [])
      else AnswerOf(chosen.state, chosen.rows, p)
  }

  lemma AppliedMembers(s: State, op: Op)
    requires Valid(s)
    ensures var r := ReportOf(s, Apply(s, op));
      && Valid(r.state)
      && r.state.members == (if r.failure.None? then W.MembersBy(s, op) else s.members)
      && (op.DoReserve? && r.failure.None? ==> op.seqs != [])
  {
    hide Valid, DraftOf, Complete, ValidAttempt;
    ValidHasAttempt(s);
    ApplyCompletes(s, op);
    if Apply(s, op).Commit? {
      CommitsAreValid(s, DraftOf(s, op));
      W.CompletedMembers(DraftOf(s, op));
      W.DraftMembers(s, op);
    }
  }

  // Completed and cancelled passes, read off the answer.
  lemma AnswerEnds(s: State, called: seq<int>, p: Pass)
    ensures var t := AnswerOf(s, called, p);
      && !t.ended.NothingDue?
      && (t.ended.Completed? ==>
            && p.answer == Some(t.ended.outcome) && t.started && !t.unresolved
            && Resolve(s, t.ended.outcome, p.resolveAt).Commit? && t.state == Resolve(s, t.ended.outcome, p.resolveAt).state)
      && (!t.ended.Completed? ==> t.started && t.unresolved)
      && (t.ended.Cancelled? ==>
            || t.state == s
            || (p.answer.Some? && Resolve(s, p.answer.value, p.resolveAt).Commit? && t.state == Resolve(s, p.answer.value, p.resolveAt).state))
  {
    hide ResolveDraft, Complete;
  }

  lemma ValidHasAttempt(s: State)
    requires Valid(s)
    ensures ValidAttempt(s)
  {}

  lemma NoMembersNoAttempt(s: State)
    requires Valid(s)
    ensures s.members == {} <==> s.attempt.None?
  {}

  lemma ReconciledMembers(s: State, i: I.Contents, caps: Capabilities)
    requires Valid(s)
    ensures ReconcileFrom(s, i, caps).state.members == s.members && Valid(ReconcileFrom(s, i, caps).state)
  {
    hide Valid, RetainedOf, Reconcile;
    match RetainedOf(i, caps, Keys(s.work))
    case Err(_) =>
    case Ok(snap) => AppliedMembers(s, DoReconcile(snap));
  }

  lemma ReadyMembers(s: State, i: I.Contents, now: int, caps: Capabilities)
    requires Valid(s)
    ensures var r := ReadyFrom(s, i, now, caps); Valid(r.state) && (r.failure.None? ==> r.state.members == {})
  {
    hide Valid, SeedRecords, Seed, Recover;
    AppliedMembers(s, DoRecover(now));
    var t := ReportOf(s, Recover(s, now)).state;
    AppliedMembers(t, DoSeed([]));
    match SeedRecords(i, caps)
    case Err(_) =>
    case Ok(pointers) => AppliedMembers(t, DoSeed(pointers));
  }

  lemma PreparedMembers(s: State, first: I.Contents, second: I.Contents, now: int, caps: Capabilities)
    requires Valid(s)
    ensures var r := PrepareFrom(s, first, second, now, caps); Valid(r.state) && r.state.members == s.members
  {
    hide Valid, ScanAfter, Ingest, ReconcileFrom, Due, Clock;
    ReconciledMembers(s, first, caps);
    var t := ReconcileFrom(s, first, caps).state;
    match ScanAfter(second, caps, t.enumerated)
    case Err(_) =>
    case Ok(scan) => AppliedMembers(t, DoIngest(scan));
  }

  lemma ReservedMembers(s: State, i: I.Contents, now: int, caps: Capabilities)
    requires Valid(s)
    ensures var r := ReserveFrom(s, i, now, caps);
      && Valid(r.state)
      && (r.failure.None? ==> r.state.members == if r.rows == [] then s.members else Elements(r.rows))
  {
    hide Valid, Reserve, ReconcileFrom, Due, Clock;
    ReconciledMembers(s, i, caps);
    var t := ReconcileFrom(s, i, caps).state;
    AppliedMembers(t, DoReserve(Due(t, now, caps.pointers), now));
  }

  class Loop {
    const state: NotificationState
    var busy: bool
    var started: bool
    var unresolved: bool

    constructor (state: NotificationState)
      ensures this.state == state && !busy && !started && !unresolved
    {
      this.state := state;
      busy, started, unresolved := false, false, false;
    }

    // `called` are the rows the provider was called with and `standing` the journal at that moment.
    method Step(p: Pass) returns (ended: PassResult, called: seq<int>, ghost standing: State)
      requires Valid(state.journal.Contents()) && Clean(state.journal.Contents(), started, unresolved)
      modifies this, state.journal
      ensures old(busy) ==> ended.Concurrent? && busy && called == [] && state.journal.Contents() == old(state.journal.Contents())
      ensures !old(busy) ==> !busy
      ensures !old(busy) ==>
        Turn(state.journal.Contents(), started, unresolved, ended, called) ==
        TurnOf(old(state.journal.Contents()), old(started), old(unresolved), p, state.caps)
      ensures Valid(state.journal.Contents()) && Clean(state.journal.Contents(), started, unresolved)
      ensures called != [] ==> standing.attempt.Some? && standing.members == Elements(called)
      ensures ended.Completed? ==>
        && called != [] && p.answer == Some(ended.outcome) && started && !unresolved
        && Resolve(standing, ended.outcome, p.resolveAt).Commit?
        && state.journal.Contents() == Resolve(standing, ended.outcome, p.resolveAt).state
      ensures called != [] && !ended.Completed? ==> unresolved
    {
      hide Valid, ResolveDraft, Complete, ReadyOf, ChoiceOf, AnswerOf;
      called := [];
      standing := state.journal.Contents();
      if busy {
        return Concurrent, called, standing;
      }
      busy := true;
      var stopped := MakeReady(p);
      if stopped.Some? {
        busy := false;
        return stopped.value, called, standing;
      }
      var rows;
      stopped, rows := Choose(p);
      if stopped.Some? {
        busy := false;
        return stopped.value, called, standing;
      }
      called := rows;
      standing := state.journal.Contents();
      ended := RecordAnswer(p, called);
      AnswerEnds(standing, called, p);
    }

    // Settle whatever may be open, if anything may be.
    method MakeReady(p: Pass) returns (ended: Option<PassResult>)
      requires Valid(state.journal.Contents()) && Clean(state.journal.Contents(), started, unresolved)
      modifies this`started, this`unresolved, state.journal
      ensures Valid(state.journal.Contents()) && Clean(state.journal.Contents(), started, unresolved)
      ensures Part(state.journal.Contents(), started, unresolved, ended, []) ==
              ReadyOf(old(state.journal.Contents()), old(started), old(unresolved), p, state.caps)
      ensures ended.None? ==> started && !unresolved
      ensures ended.Some? ==> !ended.value.Completed?
    {
      hide Valid, ReadyFrom;
      ended := None;
      if !started || unresolved {
        if p.ready.Lost? {
          return Some(Cancelled);
        }
        ReadyMembers(state.journal.Contents(), p.seed, p.readyAt, state.caps);
        var failure := state.DoReady(p.readyAt, p.seed);
        if p.ready.Unheard? {
          return Some(Cancelled);
        }
        if failure.Some? {
          return Some(Stopped(failure.value));
        }
        started, unresolved := true, false;
        NoMembersNoAttempt(state.journal.Contents());
      }
    }

    // Prepare, and reserve what is due.
    method Choose(p: Pass) returns (ended: Option<PassResult>, rows: seq<int>)
      requires Valid(state.journal.Contents()) && Clean(state.journal.Contents(), started, unresolved) && started && !unresolved
      modifies this`unresolved, state.journal
      ensures Valid(state.journal.Contents()) && Clean(state.journal.Contents(), started, unresolved)
      ensures Part(state.journal.Contents(), started, unresolved, ended, rows) == ChoiceOf(old(state.journal.Contents()), p, state.caps)
      ensures ended.None? ==>
        unresolved && rows != [] && state.journal.Contents().attempt.Some? && state.journal.Contents().members == Elements(rows)
      ensures ended.Some? ==> !ended.value.Completed?
    {
      hide Valid, PrepareFrom, ReserveFrom;
      rows := [];
      if p.prepare.Lost? {
        return Some(Cancelled), rows;
      }
      NoMembersNoAttempt(state.journal.Contents());
      PreparedMembers(state.journal.Contents(), p.first, p.second, p.prepareAt, state.caps);
      var failure, admission, sequences := state.DoPrepare(p.prepareAt, p.first, p.second);
      NoMembersNoAttempt(state.journal.Contents());
      if p.prepare.Unheard? {
        return Some(Cancelled), rows;
      }
      if failure.Some? {
        return Some(Stopped(failure.value)), rows;
      }
      if sequences == [] {
        return Some(NothingDue), rows;
      }
      ended, rows := ReserveNow(p);
    }

    method ReserveNow(p: Pass) returns (ended: Option<PassResult>, rows: seq<int>)
      requires Valid(state.journal.Contents()) && state.journal.Contents().attempt.None? && started && !unresolved
      modifies this`unresolved, state.journal
      ensures var r := ReserveFrom(old(state.journal.Contents()), p.third, p.reserveAt, state.caps);
        var (t, stopped) := Waited(old(state.journal.Contents()), r, p.reserve);
        && state.journal.Contents() == t
        && ended == (if stopped.None? && r.rows == [] then Some(NothingDue) else stopped)
        && rows == (if stopped.None? then r.rows else [])
        && unresolved == !(stopped.None? && r.rows == [])
      ensures Valid(state.journal.Contents()) && Clean(state.journal.Contents(), started, unresolved)
      ensures ended.None? ==> rows != [] && state.journal.Contents().attempt.Some? && state.journal.Contents().members == Elements(rows)
    {
      hide Valid, ReserveFrom;
      NoMembersNoAttempt(state.journal.Contents());
      ReservedMembers(state.journal.Contents(), p.third, p.reserveAt, state.caps);
      // From here on an attempt may be open, whether or not this pass hears of it.
      unresolved := true;
      rows := [];
      if p.reserve.Lost? {
        return Some(Cancelled), rows;
      }
      var failure, chosen := state.DoReserveNext(p.reserveAt, p.third);
      NoMembersNoAttempt(state.journal.Contents());
      if p.reserve.Unheard? {
        return Some(Cancelled), rows;
      }
      if failure.Some? {
        return Some(Stopped(failure.value)), rows;
      }
      rows := chosen;
      if rows == [] {
        unresolved := false;
        return Some(NothingDue), rows;
      }
      assert rows[0] in Elements(rows);
      ended := None;
    }

    // After the provider is called: its answer is recorded, or the pass ends without one.
    method RecordAnswer(p: Pass, called: seq<int>) returns (ended: PassResult)
      requires Valid(state.journal.Contents()) && busy && started && unresolved
      modifies this`busy, this`unresolved, state.journal
      ensures !busy
      ensures Valid(state.journal.Contents()) && Clean(state.journal.Contents(), started, unresolved)
      ensures Turn(state.journal.Contents(), started, unresolved, ended, called) == AnswerOf(old(state.journal.Contents()), called, p)
    {
      hide Valid, ResolveDraft, Complete;
      busy := false;
      if p.answer.None? || p.resolve.Lost? {
        return Cancelled;
      }
      ghost var s := state.journal.Contents();
      ValidBasics(s);
      AppliedMembers(s, DoResolve(p.answer.value, p.resolveAt));
      var error := state.journal.Resolve(p.answer.value, p.resolveAt);
      NoMembersNoAttempt(state.journal.Contents());
      if p.resolve.Unheard? {
        return Cancelled;
      }
      if error.Some? {
        return Stopped(JournalFailed(error.value));
      }
      unresolved := false;
      ended := Completed(p.answer.value);
    }
  }
}
