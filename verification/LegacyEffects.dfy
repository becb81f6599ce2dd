/** What each step of the compatibility notifier does to its checkpoint, and which rows it hands on. */
module LegacyEffects {
  import opened Common
  import opened JournalModel
  import I = Inbox
  import opened InboxSource
  import opened Legacy

  // A group is the first ten rows of a scan, or all of them when there are no more, and then the
  // checkpoint may follow the scan; a cut group lets it move to its own last row only.
  lemma SelectEffect(scan: Scan)
    ensures var g := Select(scan);
      && g.rows <= scan.records && |g.rows| == (if |scan.records| < 10 then |scan.records| else 10)
      && g.through == (if |scan.records| > 10 then scan.records[9].sequence else scan.through)
  {}

  // Becoming ready forgets a group in flight and holds the next attempt off for half a minute, then
  // takes up the checkpoint on disk; one that went back there is refused.
  lemma ReadyEffect(k: Checkpoint, now: int)
    ensures var r := ReadyCheckpoint(k, now);
      && (!Clock(now) <==> r == Stopped(k, LegacyCounter))
      && (Clock(now) ==> (r.Stopped? <==> k.saved.Some? && k.saved.value < k.after))
      && (Clock(now) && r.Stopped? ==>
            && r.error == LegacyRecovery && r.checkpoint.after == k.after && r.checkpoint.saved == k.saved
            && r.checkpoint.inflight.None? && r.checkpoint.retryAt == (if k.inflight.Some? then now + 30 else k.retryAt))
      && (r.Ran? ==>
            && r.checkpoint.after == (if k.saved.Some? then k.saved.value else k.after)
            && r.checkpoint.inflight.None? && r.checkpoint.saved == k.saved
            && r.checkpoint.retryAt == (if k.inflight.Some? then now + 30 else k.retryAt))
  {}

  // Preparing looks past the checkpoint, unless it is too early, and moves it only over frames
  // nobody is owed.
  lemma PrepareEffect(k: Checkpoint, i: I.Contents, caps: Capabilities, now: int)
    requires Clock(now)
    ensures var r := PrepareGroup(k, i, caps, now); var scan := ScanAfter(i, caps, k.after);
      && (now < k.retryAt ==> r == Ran(k, []))
      && (now >= k.retryAt && scan.Err? ==> r == Stopped(k, LegacySource(scan.error)))
      && (now >= k.retryAt && scan.Ok? ==>
            var g := Select(scan.value);
            && r.Ran? && r.rows == g.rows
            && r.checkpoint.after == (if |g.rows| == 0 && g.through > k.after then g.through else k.after)
            && (r.checkpoint.after != k.after ==> r.checkpoint.saved == Some(r.checkpoint.after))
            && (r.checkpoint.after == k.after ==> r.checkpoint.saved == k.saved)
            && r.checkpoint.retryAt == k.retryAt && r.checkpoint.inflight == k.inflight)
  {
    hide ScanAfter, Select;
  }

  // Reserving looks again, and puts what it found in flight; one group at a time.
  lemma ReserveEffect(k: Checkpoint, i: I.Contents, caps: Capabilities, now: int)
    requires Clock(now)
    ensures var r := ReserveGroup(k, i, caps, now); var scan := ScanAfter(i, caps, k.after);
      && (r == Stopped(k, LegacyInProgress) <==> k.inflight.Some?)
      && (k.inflight.None? && now < k.retryAt ==> r == Ran(k, []))
      && (k.inflight.None? && now >= k.retryAt && scan.Err? ==> r == Stopped(k, LegacySource(scan.error)))
      && (k.inflight.None? && now >= k.retryAt && scan.Ok? ==>
            var g := Select(scan.value);
            && r.Ran? && r.rows == g.rows
            && r.checkpoint.inflight == (if |g.rows| > 0 then Some(g.through) else None)
            && r.checkpoint.after == (if |g.rows| == 0 && g.through > k.after then g.through else k.after)
            && (r.checkpoint.after != k.after ==> r.checkpoint.saved == Some(r.checkpoint.after))
            && (r.checkpoint.after == k.after ==> r.checkpoint.saved == k.saved)
            && r.checkpoint.retryAt == k.retryAt)
  {
    hide ScanAfter, Select;
  }

  // A delivered group moves the checkpoint, on disk and in memory, to where it ends; any other
  // outcome leaves it and waits half a minute. Either way nothing is in flight any more.
  lemma ResolveEffect(k: Checkpoint, outcome: Outcome, now: int)
    requires Clock(now)
    ensures var r := ResolveGroup(k, outcome, now);
      && (r == Stopped(k, LegacyNoAttempt) <==> k.inflight.None?)
      && (k.inflight.Some? ==>
            && r.Ran? && r.checkpoint.inflight.None?
            && (outcome == OutcomeDelivered ==>
                  r.checkpoint.after == k.inflight.value && r.checkpoint.saved == k.inflight && r.checkpoint.retryAt == 0)
            && (outcome != OutcomeDelivered ==>
                  r.checkpoint.after == k.after && r.checkpoint.saved == k.saved && r.checkpoint.retryAt == now + 30))
  {}
}
