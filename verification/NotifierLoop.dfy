/** The delivery loop and the worker's queue: in every reachable world a provider call stands for
    exactly the committed reservation, its answer is recorded against that reservation and no
    other, and a clean loop has no attempt left open. */
module NotifierLoop {
  import opened Common
  import opened JournalModel
  import opened JournalRuns
  import opened Notifier

  // The jobs accepted and not yet finished, the running one first.
  function Jobs(w: World): seq<Ticket> {
    (if w.running.Some? then [w.running.value.ticket] else []) + w.queue
  }

  // Jobs that may leave an attempt open, or settle one on the provider's answer.
  predicate Hazard(job: Job) {
    job.JobReserve? || job.JobResolve?
  }

  predicate Plain(job: Job) {
    !job.JobReady? && !Hazard(job)
  }

  predicate Quiet(p: seq<Ticket>) {
    forall k :: 0 <= k < |p| ==> Plain(p[k].job)
  }

  // A hazard waits behind no ready job and no other hazard, and what it will find is known.
  predicate PlaceFits(p: seq<Ticket>, unresolved: bool, members: set<int>, k: int)
    requires 0 <= k < |p|
  {
    Hazard(p[k].job) ==>
      && unresolved && Quiet(p[..k])
      && (p[k].job.JobReserve? ==> members == {})
      && (p[k].job.JobResolve? ==> members == Elements(p[k].job.call) && members != {})
  }

  ghost predicate Placed(p: seq<Ticket>, unresolved: bool, members: set<int>) {
    forall k {:trigger PlaceFits(p, unresolved, members, k)} :: 0 <= k < |p| ==> PlaceFits(p, unresolved, members, k)
  }

  predicate Ordered(p: seq<Ticket>, next: int) {
    && (forall k :: 0 <= k < |p| ==> p[k].id < next)
    && (forall k, m :: 0 <= k < m < |p| ==> p[k].id < p[m].id)
  }

  predicate NoReady(p: seq<Ticket>) {
    forall k :: 0 <= k < |p| ==> !p[k].job.JobReady?
  }

  predicate Waits(p: seq<Ticket>, id: int, k: int) {
    0 <= k < |p| && p[k].id == id
  }

  // What each phase of the loop may rely on.
  ghost predicate PhaseFits(p: seq<Ticket>, l: Loop, members: set<int>) {
    var started, unresolved := l.started, l.unresolved;
    match l.phase
    case Down => p == [] && !started && !unresolved
    case Idle => true
    case AwaitReady(id) => exists k :: Waits(p, id, k) && p[k].job.JobReady? && Quiet(p[k + 1..])
    case Readied => started && !unresolved
    case AwaitPrepare(id) => started && !unresolved && exists k :: Waits(p, id, k) && p[k].job.JobPrepare?
    case Prepared => started && !unresolved
    case AwaitReserve(id) => started && unresolved && NoReady(p) && exists k :: Waits(p, id, k) && p[k].job.JobReserve? && Quiet(p[k + 1..])
    case Rendering(rows) => started && unresolved && Quiet(p) && members == Elements(rows) && members != {}
    case Delivering(rows) => started && unresolved && Quiet(p) && members == Elements(rows) && members != {}
    case AwaitResolve(id) => started && unresolved && NoReady(p) && exists k :: Waits(p, id, k) && p[k].job.JobResolve? && Quiet(p[k + 1..])
  }

  ghost predicate Fits(p: seq<Ticket>, next: int, l: Loop, members: set<int>) {
    && Ordered(p, next)
    && (l.unresolved ==> l.started)
    && (l.started && !l.unresolved ==> Quiet(p) && members == {})
    && Placed(p, l.unresolved, members)
    && PhaseFits(p, l, members)
  }

  // A ready job past its first stage has already settled any attempt.
  predicate StageFits(running: Option<Running>, members: set<int>) {
    running.Some? && running.value.ticket.job.JobReady? && running.value.stage != Entry ==> members == {}
  }

  predicate Spent(w: World, q: int) {
    CallsFor(w.calls, q) + (if w.loop.phase.Rendering? && q in w.loop.phase.rows then 1 else 0) <= Tries(w.journey.history, q)
  }

  ghost predicate LoopSound(w: World) {
    && Fits(Jobs(w), w.next, w.loop, w.journey.state.members)
    && StageFits(w.running, w.journey.state.members)
    && (forall q {:trigger Spent(w, q)} :: Spent(w, q))
  }

  /* ----- queue steps ----- */

  lemma Pushed(p: seq<Ticket>, next: int, l: Loop, members: set<int>, job: Job, phase: Phase)
    requires Fits(p, next, l, members) && !l.phase.Down? && !Hazard(job)
    requires job.JobReady? ==> (!l.started || l.unresolved) && phase == AwaitReady(next)
    requires job.JobPrepare? ==> l.started && !l.unresolved && phase == AwaitPrepare(next)
    requires !job.JobReady? && !job.JobPrepare? ==> phase == l.phase
    ensures Fits(p + [Ticket(next, job)], next + 1, l.(phase := phase), members)
  {
    var p' := p + [Ticket(next, job)];
    forall k | 0 <= k < |p'| ensures PlaceFits(p', l.unresolved, members, k) {
      if k < |p| {
        assert PlaceFits(p, l.unresolved, members, k);
        assert p'[..k] == p[..k];
      }
    }
    if job.JobReady? || job.JobPrepare? {
      assert Waits(p', next, |p|) && p'[|p| + 1..] == [];
    } else {
      match phase
      case AwaitReady(id) => PushedWaiting(p, next, id, job);
      case AwaitPrepare(id) => PushedWaiting(p, next, id, job);
      case AwaitReserve(id) => PushedWaiting(p, next, id, job);
      case AwaitResolve(id) => PushedWaiting(p, next, id, job);
      case _ =>
    }
  }

  lemma PushedWaiting(p: seq<Ticket>, next: int, id: int, job: Job)
    requires Plain(job)
    ensures var p' := p + [Ticket(next, job)];
      forall k :: Waits(p, id, k) ==>
        Waits(p', id, k) && p'[k] == p[k] && p'[k + 1..] == p[k + 1..] + [Ticket(next, job)]
        && (Quiet(p[k + 1..]) ==> Quiet(p'[k + 1..]))
  {}

  // Submitting the reservation, or the provider's answer: the queue holds nothing it could follow.
  lemma PushedHazard(p: seq<Ticket>, next: int, l: Loop, members: set<int>, job: Job, phase: Phase)
    requires Ordered(p, next) && l.started && l.unresolved && Quiet(p) && Hazard(job)
    requires job.JobReserve? ==> members == {} && phase == AwaitReserve(next)
    requires job.JobResolve? ==> members == Elements(job.call) && members != {} && phase == AwaitResolve(next)
    ensures Fits(p + [Ticket(next, job)], next + 1, l.(phase := phase), members)
  {
    var p' := p + [Ticket(next, job)];
    assert p'[..|p|] == p;
    forall k | 0 <= k < |p'| ensures PlaceFits(p', true, members, k) {
      assert k < |p| ==> Plain(p[k].job);
    }
    assert Waits(p', next, |p|) && p'[|p| + 1..] == [];
  }

  lemma Shifted(p: seq<Ticket>, next: int, id: int, k: int)
    requires Ordered(p, next) && Waits(p, id, k) && p != [] && id != p[0].id
    ensures Waits(p[1..], id, k - 1) && p[1..][k - 1] == p[k] && p[1..][k..] == p[k + 1..]
  {}

  lemma Tail(p: seq<Ticket>, next: int)
    requires p != []
    ensures Quiet(p) ==> Quiet(p[1..])
    ensures NoReady(p) ==> NoReady(p[1..])
    ensures Ordered(p, next) ==> Ordered(p[1..], next)
  {}

  lemma TailPlaces(p: seq<Ticket>, unresolved: bool, members: set<int>)
    requires p != [] && Placed(p, unresolved, members)
    ensures Placed(p[1..], unresolved, members)
  {
    forall k | 0 <= k < |p[1..]| ensures PlaceFits(p[1..], unresolved, members, k) {
      assert PlaceFits(p, unresolved, members, k + 1);
      assert p[1..][..k] == p[..k + 1][1..];
      Tail(p[..k + 1], 0);
    }
  }

  // A finished job the loop is not waiting for leaves what the phase relies on.
  lemma Unheard(p: seq<Ticket>, next: int, l: Loop, members: set<int>)
    requires p != [] && Ordered(p, next) && PhaseFits(p, l, members) && Deaf(l, p[0].id)
    ensures PhaseFits(p[1..], l, members)
  {
    Tail(p, next);
    match l.phase
    case AwaitReady(id) =>
      var k :| Waits(p, id, k) && p[k].job.JobReady? && Quiet(p[k + 1..]);
      Shifted(p, next, id, k);
    case AwaitPrepare(id) =>
      var k :| Waits(p, id, k) && p[k].job.JobPrepare?;
      Shifted(p, next, id, k);
    case AwaitReserve(id) =>
      var k :| Waits(p, id, k) && p[k].job.JobReserve? && Quiet(p[k + 1..]);
      Shifted(p, next, id, k);
    case AwaitResolve(id) =>
      var k :| Waits(p, id, k) && p[k].job.JobResolve? && Quiet(p[k + 1..]);
      Shifted(p, next, id, k);
    case _ =>
  }

  predicate Deaf(l: Loop, id: int) {
    l.phase.AwaitReady? || l.phase.AwaitPrepare? || l.phase.AwaitReserve? || l.phase.AwaitResolve? ==> l.phase.id != id
  }

  // The job the loop waits for is of the kind the phase says.
  lemma Heard(p: seq<Ticket>, next: int, l: Loop, members: set<int>)
    requires p != [] && Ordered(p, next) && PhaseFits(p, l, members) && !Deaf(l, p[0].id)
    ensures match l.phase
      case AwaitReady(_) => p[0].job.JobReady? && Quiet(p[1..])
      case AwaitPrepare(_) => p[0].job.JobPrepare?
      case AwaitReserve(_) => p[0].job.JobReserve? && Quiet(p[1..])
      case AwaitResolve(_) => p[0].job.JobResolve? && Quiet(p[1..])
      case _ => false
  {
    match l.phase
    case AwaitReady(id) =>
      var k :| Waits(p, id, k) && p[k].job.JobReady? && Quiet(p[k + 1..]);
      First(p, next, id, k);
    case AwaitPrepare(id) =>
      var k :| Waits(p, id, k) && p[k].job.JobPrepare?;
      First(p, next, id, k);
    case AwaitReserve(id) =>
      var k :| Waits(p, id, k) && p[k].job.JobReserve? && Quiet(p[k + 1..]);
      First(p, next, id, k);
    case AwaitResolve(id) =>
      var k :| Waits(p, id, k) && p[k].job.JobResolve? && Quiet(p[k + 1..]);
      First(p, next, id, k);
    case _ => assert false;
  }

  lemma First(p: seq<Ticket>, next: int, id: int, k: int)
    requires Ordered(p, next) && Waits(p, id, k) && p != [] && id == p[0].id
    ensures k == 0
  {}

  // Behind a hazard or a ready job at the head, no hazard waits.
  lemma NoHazardBehind(p: seq<Ticket>, unresolved: bool, members: set<int>, members': set<int>)
    requires p != [] && !Plain(p[0].job) && Placed(p, unresolved, members)
    ensures Placed(p[1..], unresolved, members')
  {
    forall k | 0 <= k < |p[1..]| ensures PlaceFits(p[1..], unresolved, members', k) {
      assert PlaceFits(p, unresolved, members, k + 1);
      assert p[..k + 1][0] == p[0];
    }
  }

  lemma QuietPlaced(p: seq<Ticket>, unresolved: bool, members: set<int>)
    requires Quiet(p)
    ensures Placed(p, unresolved, members)
  {
    forall k | 0 <= k < |p| ensures PlaceFits(p, unresolved, members, k) { assert Plain(p[k].job); }
  }

  // A finished plain job leaves the attempt alone.
  lemma EndPlain(p: seq<Ticket>, next: int, l: Loop, members: set<int>, answer: Answer)
    requires p != [] && Fits(p, next, l, members) && Plain(p[0].job)
    ensures Fits(p[1..], next, Hear(l, p[0].id, answer), members)
  {
    Tail(p, next);
    TailPlaces(p, l.unresolved, members);
    if Deaf(l, p[0].id) {
      Unheard(p, next, l, members);
    } else {
      Heard(p, next, l, members);
    }
  }

  // A finished ready job has settled any attempt, and nothing behind it can have opened one.
  lemma EndReady(p: seq<Ticket>, next: int, l: Loop, members: set<int>, answer: Answer)
    requires p != [] && Fits(p, next, l, members) && p[0].job.JobReady?
    requires answer.Finished? ==> members == {}
    ensures Fits(p[1..], next, Hear(l, p[0].id, answer), members)
  {
    Tail(p, next);
    TailPlaces(p, l.unresolved, members);
    assert !Plain(p[0].job);
    if Deaf(l, p[0].id) {
      Unheard(p, next, l, members);
    } else {
      Heard(p, next, l, members);
      QuietPlaced(p[1..], false, members);
    }
  }

  // A finished reservation either left the attempt as it was or opened one for its rows.
  lemma EndReserve(p: seq<Ticket>, next: int, l: Loop, members: set<int>, answer: Answer, members': set<int>)
    requires p != [] && Fits(p, next, l, members) && p[0].job.JobReserve?
    requires answer.Finished? ==> members' == Elements(answer.rows)
    ensures Fits(p[1..], next, Hear(l, p[0].id, answer), members')
  {
    assert PlaceFits(p, l.unresolved, members, 0);
    Tail(p, next);
    NoHazardBehind(p, l.unresolved, members, members');
    assert !Plain(p[0].job);
    if Deaf(l, p[0].id) {
      Unheard(p, next, l, members);
      BehindHazard(p, next, l, members, members');
    } else {
      Heard(p, next, l, members);
      QuietPlaced(p[1..], false, members');
      assert answer.Finished? && answer.rows != [] ==> answer.rows[0] in Elements(answer.rows);
      assert answer.Finished? && answer.rows == [] ==> members' == {};
    }
  }

  // While a hazard is at the head and unheard, the loop is idle or waits for a ready job.
  lemma BehindHazard(p: seq<Ticket>, next: int, l: Loop, members: set<int>, members': set<int>)
    requires p != [] && Fits(p, next, l, members) && Hazard(p[0].job) && Deaf(l, p[0].id)
    requires PhaseFits(p[1..], l, members)
    ensures PhaseFits(p[1..], l, members')
  {
    assert PlaceFits(p, l.unresolved, members, 0);
    assert !Plain(p[0].job);
    forall k | 1 <= k < |p| ensures !Hazard(p[k].job) {
      assert PlaceFits(p, l.unresolved, members, k) && p[..k][0] == p[0];
    }
  }

  // A finished resolution closed the attempt, or failed and left it.
  lemma EndResolve(p: seq<Ticket>, next: int, l: Loop, members: set<int>, answer: Answer, members': set<int>)
    requires p != [] && Fits(p, next, l, members) && p[0].job.JobResolve?
    requires answer.Finished? ==> members' == {}
    ensures Fits(p[1..], next, Hear(l, p[0].id, answer), members')
  {
    assert PlaceFits(p, l.unresolved, members, 0);
    Tail(p, next);
    NoHazardBehind(p, l.unresolved, members, members');
    assert !Plain(p[0].job);
    if Deaf(l, p[0].id) {
      Unheard(p, next, l, members);
      BehindHazard(p, next, l, members, members');
    } else {
      Heard(p, next, l, members);
      QuietPlaced(p[1..], false, members');
    }
  }
}
