/** A pass of the delivery loop, as its one task runs it, is a run of the whole system: the acts of
    the loop and of the worker in turn, with the inbox changing wherever the pass reads it anew. So
    whatever holds of every run holds of the loop. */
module NotifierPass {
  import opened Common
  import opened JournalModel
  import opened JournalRuns
  import I = Inbox
  import opened InboxHistory
  import opened InboxSource
  import opened NotificationModel
  import opened NotificationStore
  import opened Notifier
  import opened DeliveryEffects
  import D = DeliveryLoop

  // Nothing queued and nothing running.
  predicate Quiet(w: World) {
    w.queue == [] && w.running.None?
  }

  lemma {:induction false} LiveOn(w: World, first: seq<Act>, rest: seq<Act>)
    ensures Live(w, first + rest) == Live(Live(w, first), rest)
    decreases |first|
  {
    hide Do;
    if first == [] {
      assert first + rest == rest;
    } else {
      LiveOn(Do(w, first[0]), first[1..], rest);
      assert (first + rest)[1..] == first[1..] + rest;
    }
  }

  lemma OneAct(w: World, a: Act)
    ensures Live(w, [a]) == Do(w, a)
  {
    hide Do;
    assert [a][1..] == [];
  }

  /* ----- the inbox between two reads ----- */

  function Mails(changes: seq<I.Act>): seq<Act>
    decreases |changes|
  {
    if changes == [] then [] else [InboxAct(changes[0])] + Mails(changes[1..])
  }

  lemma {:induction false} MailsLive(w: World, changes: seq<I.Act>)
    ensures Live(w, Mails(changes)) == w.(chronicle := FollowAll(w.chronicle, changes))
    decreases |changes|
  {
    hide Follow;
    if changes != [] {
      MailsLive(Do(w, InboxAct(changes[0])), changes[1..]);
      assert Mails(changes)[1..] == Mails(changes[1..]);
    }
  }

  /* ----- one job ----- */

  // After its first stage a job reads the inbox as it then is.
  lemma {:induction false} LaterReads(first: I.Contents, second: I.Contents, j: Journey, job: Job, stage: Stage, fuel: nat)
    requires stage != Entry
    ensures RunJob(first, second, j, job, stage, fuel) == RunJob(second, second, j, job, stage, fuel)
    decreases fuel
  {
    var turn := StepJob(second, j, job, stage);
    NeverEntersAgain(second, j, job, stage);
    hide StepJob;
    if fuel > 0 && turn.Go? {
      LaterReads(first, second, turn.journey, job, turn.stage, fuel - 1);
    }
  }

  lemma NeverEntersAgain(i: I.Contents, j: Journey, job: Job, stage: Stage)
    ensures StepJob(i, j, job, stage).Go? ==> StepJob(i, j, job, stage).stage != Entry
  {
    hide Apply, Step, RetainedOf, ScanAfter, SeedRecords, Due;
  }

  // A job the worker runs to its end with the inbox at rest.
  lemma {:induction false} JobRuns(w: World, fuel: nat) returns (acts: seq<Act>)
    requires w.running.Some? && !w.loop.phase.Down? && !w.running.value.ticket.job.JobRetry?
    requires var r := w.running.value; RunJob(Mail(w), Mail(w), w.journey, r.ticket.job, r.stage, fuel).End?
    ensures var r := w.running.value; var turn := RunJob(Mail(w), Mail(w), w.journey, r.ticket.job, r.stage, fuel);
      Live(w, acts) == w.(journey := turn.journey, running := None, loop := Hear(w.loop, r.ticket.id, turn.answer))
    decreases fuel
  {
    hide StepJob, Hear;
    var r := w.running.value;
    var turn := StepJob(Mail(w), w.journey, r.ticket.job, r.stage);
    var w' := Do(w, Work(false));
    OneAct(w, Work(false));
    if turn.End? {
      acts := [Work(false)];
    } else {
      var rest := JobRuns(w', fuel - 1);
      acts := [Work(false)] + rest;
      hide Do;
      LiveOn(w, [Work(false)], rest);
    }
  }

  // A submitted job, run to its end: the inbox may change once, after its first stage.
  lemma SubmittedRuns(w: World, job: Job, changes: seq<I.Act>, fuel: nat) returns (acts: seq<Act>)
    requires w.queue == [Ticket(w.next - 1, job)] && w.running.None? && !w.loop.phase.Down? && !job.JobRetry?
    requires RunJob(Mail(w), FollowAll(w.chronicle, changes).inbox, w.journey, job, Entry, fuel).End?
    ensures var c := FollowAll(w.chronicle, changes); var turn := RunJob(Mail(w), c.inbox, w.journey, job, Entry, fuel);
      Live(w, acts) == w.(chronicle := c, journey := turn.journey, queue := [], loop := Hear(w.loop, w.next - 1, turn.answer))
  {
    hide StepJob, Hear, FollowAll, Mails;
    var taken := Do(w, Work(false));
    OneAct(w, Work(false));
    assert taken == w.(queue := [], running := Some(Running(Ticket(w.next - 1, job), Entry)));
    var turn := StepJob(Mail(w), w.journey, job, Entry);
    var stepped := Do(taken, Work(false));
    OneAct(taken, Work(false));
    LiveOn(w, [Work(false)], [Work(false)]);
    var first := [Work(false)] + [Work(false)];
    MailsLive(stepped, changes);
    LiveOn(w, first, Mails(changes));
    var changed := Live(w, first + Mails(changes));
    if turn.End? {
      acts := first + Mails(changes);
    } else {
      NeverEntersAgain(Mail(w), w.journey, job, Entry);
      LaterReads(Mail(w), Mail(changed), turn.journey, job, turn.stage, fuel - 1);
      hide Do, Live;
      var rest := JobRuns(changed, fuel - 1);
      LiveOn(w, first + Mails(changes), rest);
      acts := first + Mails(changes) + rest;
    }
  }

  predicate Awaits(l: Loop, id: int) {
    l.phase == AwaitReady(id) || l.phase == AwaitPrepare(id) || l.phase == AwaitReserve(id) || l.phase == AwaitResolve(id)
  }

  // What is left once a submitted job was waited for: its answer heard; or the pass cancelled and the
  // job run all the same; or the job dropped before it began.
  predicate LeftBy(w: World, v: World, c: Chronicle, turn: Turn, wait: D.Wait)
    requires turn.End?
  {
    && Quiet(v) && v.next == w.next
    && (match wait
        case Heard => v.journey == turn.journey && v.loop == Hear(w.loop, w.next - 1, turn.answer) && v.chronicle == c
        case Unheard => v.journey == turn.journey && v.loop == w.loop.(phase := Idle)
        case Lost => v.journey == w.journey && v.loop == w.loop.(phase := Idle))
  }

  lemma WaitedRuns(w: World, job: Job, changes: seq<I.Act>, fuel: nat, wait: D.Wait) returns (acts: seq<Act>)
    requires w.queue == [Ticket(w.next - 1, job)] && w.running.None? && Awaits(w.loop, w.next - 1) && !job.JobRetry?
    requires RunJob(Mail(w), FollowAll(w.chronicle, changes).inbox, w.journey, job, Entry, fuel).End?
    ensures var c := FollowAll(w.chronicle, changes);
      LeftBy(w, Live(w, acts), c, RunJob(Mail(w), c.inbox, w.journey, job, Entry, fuel), wait)
  {
    hide RunJob, FollowAll, Live;
    match wait
    case Heard => acts := SubmittedRuns(w, job, changes, fuel);
    case Unheard =>
      var cancelled := Do(w, Cancel);
      OneAct(w, Cancel);
      var rest := SubmittedRuns(cancelled, job, changes, fuel);
      acts := [Cancel] + rest;
      LiveOn(w, [Cancel], rest);
    case Lost =>
      var taken := Do(w, Work(false));
      OneAct(w, Work(false));
      OneAct(taken, Fault);
      LiveOn(w, [Work(false)], [Fault]);
      acts := [Work(false)] + [Fault];
  }

  /* ----- the parts of a pass ----- */

  // Where the loop stands after a part of a pass: at rest if the pass ended with it.
  predicate At(v: World, part: D.Part, going: set<Loop>) {
    && Quiet(v) && v.journey.state == part.state
    && if part.ended.Some? then v.loop == Loop(Idle, part.started, part.unresolved) else v.loop in going
  }

  const READY: set<Loop> := {Loop(Idle, true, false), Loop(Readied, true, false)}

  lemma ReadyRuns(w: World, p: D.Pass, x: seq<I.Act>) returns (acts: seq<Act>)
    requires Quiet(w) && w.loop.phase.Idle? && p.seed == FollowAll(w.chronicle, x).inbox
    ensures var v := Live(w, acts); var part := D.ReadyOf(w.journey.state, w.loop.started, w.loop.unresolved, p, CAPABLE);
      At(v, part, READY) && (part.ended.None? ==> v.chronicle == FollowAll(w.chronicle, x))
  {
    hide RunJob, FollowAll, ReadyFrom, Mails;
    MailsLive(w, x);
    acts := Mails(x);
    var v := Live(w, acts);
    if Doubtful(w.loop.started, w.loop.unresolved) {
      var begun := Do(v, Begin(p.readyAt));
      OneAct(v, Begin(p.readyAt));
      LiveOn(w, acts, [Begin(p.readyAt)]);
      ReadyAgrees(p.seed, v.journey, p.readyAt);
      NoChanges(begun.chronicle);
      hide Live;
      var rest := WaitedRuns(begun, JobReady(p.readyAt), [], 2, p.ready);
      LiveOn(w, acts + [Begin(p.readyAt)], rest);
      acts := acts + [Begin(p.readyAt)] + rest;
    }
  }

  lemma NoChanges(c: Chronicle)
    ensures FollowAll(c, []) == c
  {}

  // Preparing, from a loop that is ready.
  lemma PrepareRuns(w: World, p: D.Pass, x: seq<I.Act>, y: seq<I.Act>) returns (acts: seq<Act>)
    requires Quiet(w) && w.loop in READY
    requires p.first == FollowAll(w.chronicle, x).inbox && p.second == FollowAll(FollowAll(w.chronicle, x), y).inbox
    ensures var v := Live(w, acts); var r := PrepareFrom(w.journey.state, p.first, p.second, p.prepareAt, CAPABLE);
      var (t, ended) := D.Waited(w.journey.state, r, p.prepare);
      && Quiet(v) && v.journey.state == t
      && v.loop == (if ended.Some? || r.rows == [] then Loop(Idle, true, false) else Loop(Prepared, true, false))
      && (ended.None? ==> v.chronicle == FollowAll(FollowAll(w.chronicle, x), y))
  {
    hide RunJob, FollowAll, PrepareFrom, Mails;
    MailsLive(w, x);
    acts := Mails(x);
    var v := Live(w, acts);
    var a := if w.loop.phase.Idle? then Begin(p.prepareAt) else Continue(p.prepareAt);
    var begun := Do(v, a);
    OneAct(v, a);
    LiveOn(w, acts, [a]);
    PrepareAgrees(p.first, p.second, v.journey, p.prepareAt);
    hide Live;
    var rest := WaitedRuns(begun, JobPrepare(p.prepareAt), y, 4, p.prepare);
    LiveOn(w, acts + [a], rest);
    acts := acts + [a] + rest;
  }

  // Reserving, from a loop that has something to reserve.
  lemma ReserveRuns(w: World, p: D.Pass, x: seq<I.Act>) returns (acts: seq<Act>)
    requires Quiet(w) && w.loop == Loop(Prepared, true, false) && p.third == FollowAll(w.chronicle, x).inbox
    ensures var v := Live(w, acts); var r := ReserveFrom(w.journey.state, p.third, p.reserveAt, CAPABLE);
      var (t, ended) := D.Waited(w.journey.state, r, p.reserve);
      && Quiet(v) && v.journey.state == t
      && v.loop == (if ended.Some? then Loop(Idle, true, true)
                    else if r.rows == [] then Loop(Idle, true, false) else Loop(Rendering(r.rows), true, true))
  {
    hide RunJob, FollowAll, ReserveFrom, Mails;
    MailsLive(w, x);
    acts := Mails(x);
    var v := Live(w, acts);
    var a := Continue(p.reserveAt);
    var begun := Do(v, a);
    OneAct(v, a);
    LiveOn(w, acts, [a]);
    ReserveAgrees(p.third, p.third, v.journey, p.reserveAt);
    NoChanges(begun.chronicle);
    hide Live;
    var rest := WaitedRuns(begun, JobReserve(p.reserveAt), [], 2, p.reserve);
    LiveOn(w, acts + [a], rest);
    acts := acts + [a] + rest;
  }

  lemma ResolveAgrees(i: I.Contents, j: Journey, outcome: Outcome, now: int, call: seq<int>)
    ensures Agrees(RunJob(i, i, j, JobResolve(outcome, now, call), Entry, 0), ReportOf(j.state, Resolve(j.state, outcome, now)))
  {
    hide Step, Resolve;
    StepSettles(j, DoResolve(outcome, now));
  }

  // The provider call, and its answer recorded or not.
  lemma AnswerRuns(w: World, p: D.Pass) returns (acts: seq<Act>)
    requires Quiet(w) && w.loop.phase.Rendering? && w.loop.started && w.loop.unresolved
    ensures var v := Live(w, acts); var t := D.AnswerOf(w.journey.state, w.loop.phase.rows, p);
      Quiet(v) && v.journey.state == t.state && v.loop == Loop(Idle, t.started, t.unresolved)
  {
    hide RunJob, FollowAll, Resolve;
    var called := Do(w, Call);
    OneAct(w, Call);
    if p.answer.None? {
      OneAct(called, Cancel);
      LiveOn(w, [Call], [Cancel]);
      acts := [Call] + [Cancel];
    } else {
      var a := Answered(p.answer.value, p.resolveAt);
      var begun := Do(called, a);
      OneAct(called, a);
      LiveOn(w, [Call], [a]);
      ResolveAgrees(Mail(w), w.journey, p.answer.value, p.resolveAt, w.loop.phase.rows);
      NoChanges(begun.chronicle);
      hide Live;
      var rest := WaitedRuns(begun, JobResolve(p.answer.value, p.resolveAt, w.loop.phase.rows), [], 0, p.resolve);
      LiveOn(w, [Call] + [a], rest);
      acts := [Call] + [a] + rest;
    }
  }

  /* ----- the whole pass ----- */

  // The inbox as the pass reads it: four times, with any changes before each.
  predicate Reads(p: D.Pass, c: Chronicle, x: seq<seq<I.Act>>) {
    && |x| == 4
    && var c0 := FollowAll(c, x[0]); var c1 := FollowAll(c0, x[1]); var c2 := FollowAll(c1, x[2]); var c3 := FollowAll(c2, x[3]);
       p.seed == c0.inbox && p.first == c1.inbox && p.second == c2.inbox && p.third == c3.inbox
  }

  // Whatever the inbox does in between, and wherever the pass is cancelled, fails or loses its worker:
  // from a world at rest some run leads to the journal the pass leaves and to what the loop then
  // knows of it.
  lemma PassIsARun(w: World, p: D.Pass, x: seq<seq<I.Act>>) returns (acts: seq<Act>)
    requires Quiet(w) && w.loop.phase.Idle? && Reads(p, w.chronicle, x)
    ensures var v := Live(w, acts); var t := D.TurnOf(w.journey.state, w.loop.started, w.loop.unresolved, p, CAPABLE);
      Quiet(v) && v.journey.state == t.state && v.loop == Loop(Idle, t.started, t.unresolved)
  {
    hide Live, FollowAll, ReadyFrom, PrepareFrom, ReserveFrom, D.ReadyOf, D.AnswerOf;
    var ready := D.ReadyOf(w.journey.state, w.loop.started, w.loop.unresolved, p, CAPABLE);
    acts := ReadyRuns(w, p, x[0]);
    if ready.ended.None? {
      var v := Live(w, acts);
      var second := PrepareRuns(v, p, x[1], x[2]);
      LiveOn(w, acts, second);
      acts := acts + second;
      var prepared := PrepareFrom(v.journey.state, p.first, p.second, p.prepareAt, CAPABLE);
      if D.Waited(v.journey.state, prepared, p.prepare).1.None? && prepared.rows != [] {
        var u := Live(w, acts);
        var third := ReserveRuns(u, p, x[3]);
        LiveOn(w, acts, third);
        acts := acts + third;
        var reserved := ReserveFrom(u.journey.state, p.third, p.reserveAt, CAPABLE);
        if D.Waited(u.journey.state, reserved, p.reserve).1.None? && reserved.rows != [] {
          var last := AnswerRuns(Live(w, acts), p);
          LiveOn(w, acts, last);
          acts := acts + last;
        }
      }
    }
  }
}
