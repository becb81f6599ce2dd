/** Idempotent appends: under one key, deadline and content at most one event is ever appended,
    and every accepted repeat is answered with that event. */
module MemoryRetry {
  import opened MemoryModel
  import opened MemoryBudget
  import opened MemoryRuns

  // The retry record of an append is kept at least until its deadline has passed, and that lies
  // no farther ahead than a request may ask for.
  predicate Kept(w: World, k: int)
    requires 0 <= k < |w.record.keyed|
  {
    var a := w.record.keyed[k];
    && a.deadline <= w.clock + IDEM_TTL
    && (a.deadline >= w.clock ==> a.scoped in w.store.idem && w.store.idem[a.scoped] == Idem(a.content, a.sequence, a.deadline))
  }

  predicate SameRequest(a: KeyedAppend, b: KeyedAppend) {
    a.scoped == b.scoped && a.deadline == b.deadline && a.content == b.content
  }

  // Every retry record stands for an append that was made.
  ghost predicate Grounded(w: World, key: string) {
    key in w.store.idem ==>
      var row := w.store.idem[key]; KeyedAppend(key, row.deadline, row.content, row.sequence) in w.record.keyed
  }

  ghost predicate RetrySound(w: World) {
    && (forall k {:trigger Kept(w, k)} :: 0 <= k < |w.record.keyed| ==> Kept(w, k))
    && (forall j, k :: 0 <= j < k < |w.record.keyed| ==> !SameRequest(w.record.keyed[j], w.record.keyed[k]))
    && (forall key {:trigger Grounded(w, key)} :: Grounded(w, key))
  }

  lemma RetryUnmoved(w: World, a: Act)
    requires !a.Noting? && !a.Sweeping?
    ensures After(w, a).idem == w.store.idem && Observe(w, a).keyed == w.record.keyed
  {
    RetryTables(w, a);
    RetryRecord(w, a);
    hide After, Observe;
  }

  lemma RetryTables(w: World, a: Act)
    requires !a.Noting? && !a.Sweeping?
    ensures After(w, a).idem == w.store.idem
  {
    hide After;
    if a.Expiring? {
      ExpireOnly(w, a);
    } else if Upkeep(a) {
      UpkeepOnly(w, a);
    } else {
      ReadersOnly(w, a);
    }
  }

  lemma RetryRecord(w: World, a: Act)
    requires !a.Noting?
    ensures Observe(w, a).keyed == w.record.keyed
  {
    hide Freezes, Streams, PageAt, DeltaOf, After, AckSnapshot, ToldOf, PagesOf, Span, Members;
  }

  lemma SweptIdem(w: World, now: int, k: int)
    requires w.clock <= now && 0 <= k < |w.record.keyed| && Kept(w, k)
    ensures var a := w.record.keyed[k]; var t := Sweep(w.store, now);
      a.deadline >= now ==> a.scoped in t.idem && t.idem[a.scoped] == Idem(a.content, a.sequence, a.deadline)
  {}

  lemma SweepingRetry(w: World, now: int)
    requires RetrySound(w) && w.clock <= now
    ensures RetrySound(Do(w, Sweeping(now)))
  {
    var v := Do(w, Sweeping(now));
    RetryRecord(w, Sweeping(now));
    forall k | 0 <= k < |v.record.keyed| ensures Kept(v, k) {
      assert Kept(w, k);
      SweptIdem(w, now, k);
    }
    forall key ensures Grounded(v, key) {
      assert Grounded(w, key);
    }
  }

  // A note that goes ahead under a key was not appended before: its record would still be there.
  lemma FirstUnderKey(w: World, n: Note, now: int, k: int)
    requires RetrySound(w) && w.clock <= now && Precheck(w.store, n, now).Proceed?
    requires n.scoped.Some? && n.deadline.Some? && 0 <= k < |w.record.keyed|
    ensures !(w.record.keyed[k].scoped == n.scoped.value && w.record.keyed[k].deadline == n.deadline.value)
  {
    assert Kept(w, k);
  }

  lemma NotingIdem(s: Store, n: Note, fts: bool)
    requires Append(s, n, fts).Commit?
    ensures Append(s, n, fts).store.idem ==
      if n.scoped.Some? && n.deadline.Some? then s.idem[n.scoped.value := Idem(n.content, s.head + 1, n.deadline.value)] else s.idem
  {
    hide Linked, NewEntry, Conflict;
  }

  lemma NotingRetry(w: World, n: Note, now: int)
    requires RetrySound(w) && w.clock <= now
    ensures RetrySound(Do(w, Noting(n, now)))
  {
    hide Append, Room;
    var v := Do(w, Noting(n, now));
    if Serves(w) && Appends(w, n, now) {
      NotingIdem(w.store, n, w.process.engine);
      forall k | 0 <= k < |v.record.keyed| ensures Kept(v, k) {
        if k < |w.record.keyed| {
          assert Kept(w, k);
          assert v.record.keyed[k] == w.record.keyed[k];
        }
      }
      forall j, k | 0 <= j < k < |v.record.keyed| ensures !SameRequest(v.record.keyed[j], v.record.keyed[k]) {
        if k == |w.record.keyed| {
          FirstUnderKey(w, n, now, j);
        }
      }
      if n.scoped.Some? && n.deadline.Some? {
        assert v.record.keyed[|w.record.keyed|] == KeyedAppend(n.scoped.value, n.deadline.value, n.content, w.store.head + 1);
      }
      forall key ensures Grounded(v, key) {
        assert Grounded(w, key);
      }
    } else {
      StillKept(w, v);
    }
  }

  lemma StillKept(w: World, v: World)
    requires RetrySound(w) && w.clock <= v.clock && v.store.idem == w.store.idem && v.record.keyed == w.record.keyed
    ensures RetrySound(v)
  {
    forall k | 0 <= k < |v.record.keyed| ensures Kept(v, k) { assert Kept(w, k); }
    forall key ensures Grounded(v, key) { assert Grounded(w, key); }
  }

  lemma RetryStep(w: World, a: Act)
    requires RetrySound(w)
    ensures RetrySound(Do(w, a))
  {
    hide RetrySound, After, Observe;
    if Timely(w, a) {
      match a
      case Noting(n, now) => NotingRetry(w, n, now);
      case Sweeping(now) => SweepingRetry(w, now);
      case _ =>
        RetryUnmoved(w, a);
        StillKept(w, Do(w, a));
    }
  }

  lemma {:induction false} RetryRuns(w: World, acts: seq<Act>)
    requires RetrySound(w)
    ensures RetrySound(Play(w, acts))
    decreases |acts|
  {
    hide RetrySound, Do;
    if acts != [] {
      RetryStep(w, acts[0]);
      RetryRuns(Do(w, acts[0]), acts[1..]);
    }
  }

  // For one key, deadline and content, every run of retries, crashes after commit, expiry and
  // reclamation appends at most one event.
  lemma AtMostOnce(acts: seq<Act>, j: int, k: int)
    requires var keyed := Play(DAWN, acts).record.keyed; 0 <= j < |keyed| && 0 <= k < |keyed| && j != k
    ensures var keyed := Play(DAWN, acts).record.keyed; !SameRequest(keyed[j], keyed[k])
  {
    forall key ensures Grounded(DAWN, key) {}
    hide Play;
    RetryRuns(DAWN, acts);
  }

  // A repeat of an appended request is answered with that very event exactly when nothing is wrong
  // with its arguments and its deadline lies ahead, and is refused for the one or the other if
  // not; while the event's record stands, its key is no good for anything else; and a repeat is
  // only ever answered by an append that was made.
  lemma RepeatsAnswerTheFirst(acts: seq<Act>, n: Note, now: int, k: int)
    requires n.scoped.Some? && n.deadline.Some? && Play(DAWN, acts).clock <= now
    ensures var w := Play(DAWN, acts); var d := Precheck(w.store, n, now);
      && (n.deadline.value <= now ==> d.Reject?)
      && (d.Repeat? ==> KeyedAppend(n.scoped.value, n.deadline.value, n.content, d.sequence) in w.record.keyed)
      && (0 <= k < |w.record.keyed| && w.record.keyed[k].scoped == n.scoped.value && ArgumentError(n).None? ==>
            var a := w.record.keyed[k];
            if a.deadline == n.deadline.value && a.content == n.content then
              d == if now < n.deadline.value then Repeat(a.sequence) else Reject(RetryDeadlineExpired)
            else
              w.clock <= a.deadline && now < n.deadline.value <= now + IDEM_TTL ==> d == Reject(IdempotencyConflict))
      && (ArgumentError(n).Some? ==> d == Reject(ArgumentError(n).value))
  {
    forall key ensures Grounded(DAWN, key) {}
    hide Play, ArgumentError;
    RetryRuns(DAWN, acts);
    var w := Play(DAWN, acts);
    assert Grounded(w, n.scoped.value);
    if 0 <= k < |w.record.keyed| {
      assert Kept(w, k);
    }
  }
}
