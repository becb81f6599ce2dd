/** What one journal transaction does: admission, the frontier, and the fact that the validation
    every transaction ends with never rejects what an honest caller committed. */
module JournalProofs {
  import opened Common
  import opened JournalModel

  /* ----- admission ----- */

  lemma {:induction false} AdmitEffect(work: map<int, Row>, through: int, records: seq<Record>, historical: bool)
    requires Admit(work, through, records, historical).Admitted?
    ensures var after := Admit(work, through, records, historical).work;
      && (forall q :: q in work ==> q in after && after[q] == work[q])
      && (forall q :: q in after && q !in work ==>
           && 1 <= q <= MAX_SEQUENCE && (q > through || historical)
           && after[q] == Row(after[q].source, Pending, 0, 0, false)
           && Record(q, after[q].source) in records)
      && (forall r :: r in records && (r.sequence > through || historical) ==>
           r.sequence in after && after[r.sequence].source == r.source)
      && (|work| <= MAX_WORK ==> |after| <= MAX_WORK)
    decreases |records|
  {
    if records != [] {
      var item := records[0];
      var rest := records[1..];
      assert forall r :: r in records <==> r == item || r in rest;
      if (item.sequence <= through && !historical) || item.sequence in work {
        AdmitEffect(work, through, rest, historical);
      } else {
        AdmitEffect(work[item.sequence := Row(item.source, Pending, 0, 0, false)], through, rest, historical);
      }
    }
  }

  // The same, seen from one sequence number.
  lemma AdmitRow(work: map<int, Row>, through: int, records: seq<Record>, historical: bool, q: int)
    requires Admit(work, through, records, historical).Admitted?
    ensures var after := Admit(work, through, records, historical).work;
      && (q in work ==> q in after && after[q] == work[q])
      && (q in after && q !in work ==>
           && 1 <= q <= MAX_SEQUENCE && (q > through || historical)
           && after[q] == Row(after[q].source, Pending, 0, 0, false)
           && Record(q, after[q].source) in records)
  {
    AdmitEffect(work, through, records, historical);
  }

  // A snapshot whose records agree with the admitted rows is refused only for lack of room.
  lemma {:induction false} AdmitRefusal(work: map<int, Row>, through: int, records: seq<Record>, historical: bool)
    requires forall r :: r in records ==> 1 <= r.sequence <= MAX_SEQUENCE
    requires forall r :: r in records && r.sequence in work ==> work[r.sequence].source == r.source
    requires forall r, r' :: r in records && r' in records && r.sequence == r'.sequence ==> r == r'
    ensures var a := Admit(work, through, records, historical);
      a.Admitted? || a == Rejected(Capacity)
    decreases |records|
  {
    if records != [] {
      var item := records[0];
      var rest := records[1..];
      assert item in records && forall r :: r in rest ==> r in records;
      if (item.sequence <= through && !historical) || item.sequence in work {
        AdmitRefusal(work, through, rest, historical);
      } else if |work| < MAX_WORK {
        AdmitRefusal(work[item.sequence := Row(item.source, Pending, 0, 0, false)], through, rest, historical);
      }
    }
  }

  /* ----- the frontier ----- */

  // Records that fit into the room that is left are never refused for lack of it.
  lemma {:induction false} AdmitRoom(work: map<int, Row>, through: int, records: seq<Record>, historical: bool)
    requires |work| + |records| <= MAX_WORK
    ensures Admit(work, through, records, historical) != Rejected(Capacity)
    decreases |records|
  {
    if records != [] {
      var item := records[0];
      if (item.sequence <= through && !historical) || item.sequence in work {
        AdmitRoom(work, through, records[1..], historical);
      } else {
        AdmitRoom(work[item.sequence := Row(item.source, Pending, 0, 0, false)], through, records[1..], historical);
      }
    }
  }

  lemma NothingAccrued(c: Counters)
    requires Bounded(c)
    ensures Accrue(c, ZERO) == c
  {}

  lemma DropSize(work: map<int, Row>, dropped: set<int>)
    requires dropped <= work.Keys
    ensures |work| == |work - dropped| + |dropped|
  {
    assert (work - dropped).Keys == work.Keys - dropped;
    assert work.Keys == (work.Keys - dropped) + dropped;
    assert |work.Keys| == |work.Keys - dropped| + |dropped|;
  }

  lemma SettledKinds(work: map<int, Row>, crossed: set<int>)
    requires forall q :: q in crossed ==> q in work && Settled(work[q])
    ensures |crossed| == Tally(work, crossed, Delivered) + Tally(work, crossed, Acknowledged) + Tally(work, crossed, Obsolete)
  {
    var a := set q | q in crossed && q in work && work[q].disposition == Delivered;
    var b := set q | q in crossed && q in work && work[q].disposition == Acknowledged;
    var c := set q | q in crossed && q in work && work[q].disposition == Obsolete;
    assert forall q :: q in crossed <==> q in a + b + c;
    assert crossed == a + b + c;
  }

  lemma CrossedSize(work: map<int, Row>, crossed: set<int>)
    requires forall q :: q in crossed ==> q in work && Settled(work[q])
    ensures |work| == |work - crossed| + Tally(work, crossed, Delivered)
                      + Tally(work, crossed, Acknowledged) + Tally(work, crossed, Obsolete)
  {
    SettledKinds(work, crossed);
    assert forall q :: q in crossed ==> q in work.Keys;
    DropSize(work, crossed);
  }

  // The frontier never passes the enumerated range or a waiting row, it is as far along as
  // those two allow, and it retires exactly the settled rows it has passed.
  lemma AdvanceEffect(s: State, through: Option<int>)
    requires s.scan <= s.enumerated
    requires through.Some? ==> s.scan <= through.value
    ensures var p := Advance(s, through); var t := p.state;
      && s.scan <= t.scan <= t.enumerated
      && s.enumerated <= t.enumerated
      && t.enumerated == (if through.Some? then Max(s.enumerated, through.value) else s.enumerated)
      && (t.scan == t.enumerated || (t.scan + 1 in t.work && Waiting(t.work[t.scan + 1])))
      && (forall q :: q in s.work && Waiting(s.work[q]) && q > s.scan ==> q > t.scan)
      && (forall q :: q in t.work <==> q in s.work && !(q <= t.scan && Settled(s.work[q])))
      && (forall q :: q in t.work ==> t.work[q] == s.work[q])
  {
    var t := Advance(s, through).state;
    var high := match through case None => s.enumerated case Some(x) => Max(s.enumerated, x);
    var waiting := WaitingAbove(s.work, s.scan);
    assert forall q :: q in s.work && Waiting(s.work[q]) && q > s.scan ==> q in waiting;
    assert t.scan == Frontier(s.work, s.scan, high);
    var crossed := Crossed(s.work, t.scan);
    assert t.work == s.work - crossed;
    assert forall q :: q in crossed <==> q in s.work && q <= t.scan && Settled(s.work[q]);
  }

  lemma AdvanceRow(s: State, through: Option<int>, q: int)
    requires s.scan <= s.enumerated
    requires through.Some? ==> s.scan <= through.value
    ensures var t := Advance(s, through).state;
      && (q in t.work <==> q in s.work && !(q <= t.scan && Settled(s.work[q])))
      && (q in t.work ==> t.work[q] == s.work[q])
      && (q in s.work && Waiting(s.work[q]) && q > s.scan ==> q > t.scan)
  {
    AdvanceEffect(s, through);
  }

  predicate AtFrontier(s: State) {
    s.scan == s.enumerated || (s.scan + 1 in s.work && Waiting(s.work[s.scan + 1]))
  }

  lemma AdvanceStops(s: State, through: Option<int>)
    requires s.scan <= s.enumerated
    requires through.Some? ==> s.scan <= through.value
    ensures var t := Advance(s, through).state;
      && s.scan <= t.scan <= t.enumerated && s.enumerated <= t.enumerated
      && AtFrontier(t)
  {
    AdvanceEffect(s, through);
  }

  // Retired rows are counted one by one, under what they ended as.
  lemma AdvanceCounts(s: State, through: Option<int>)
    requires through.Some? ==> s.scan <= through.value
    ensures var p := Advance(s, through);
      && p.state.work.Keys <= s.work.Keys
      && |s.work| == |p.state.work| + p.bumps.delivered + p.bumps.acknowledged + p.bumps.obsolete
      && Natural(p.bumps) && p.bumps.attempts == p.bumps.ignored == p.bumps.failed == p.bumps.unknown == 0
  {
    CrossedSize(s.work, Crossed(s.work, Advance(s, through).state.scan));
  }

  // Nothing farther along is safe: any later position lies past the enumerated range or past
  // a row that is still waiting.
  lemma FrontierMaximal(s: State, through: Option<int>, f: int)
    requires s.scan <= s.enumerated
    requires through.Some? ==> s.scan <= through.value
    requires s.scan <= f
    ensures f <= Advance(s, through).state.scan <==>
      f <= Advance(s, through).state.enumerated && forall q :: q in s.work && Waiting(s.work[q]) && s.scan < q ==> f < q
  {
    var waiting := WaitingAbove(s.work, s.scan);
    assert forall q :: q in waiting <==> q in s.work && Waiting(s.work[q]) && s.scan < q;
  }

  /* ----- validation is inductive ----- */

  // An update whose result passes validation, or which raises for a reason of its own.
  predicate Survives(d: Draft) {
    match d
    case Raise(e) => e != RecoveryRequired
    case Ready(t, bumps) => Sound(t) && Natural(bumps)
  }

  lemma SurvivorCommits(d: Draft)
    requires Survives(d)
    ensures Complete(d) != Refuse(RecoveryRequired)
    ensures d.Ready? ==>
      Complete(d) == Commit(d.state.(counters := Accrue(d.state.counters, d.bumps)), d.bumps)
  {}

  lemma ReservedUnchanged(before: map<int, Row>, after: map<int, Row>)
    requires forall q :: q in after && after[q].disposition == Reserved ==> q in before && before[q] == after[q]
    requires forall q :: q in before && before[q].disposition == Reserved ==> q in after && before[q] == after[q]
    ensures ReservedRows(before) == ReservedRows(after)
    ensures OneKind(before, ReservedRows(before)) ==> OneKind(after, ReservedRows(before))
  {
    assert forall q :: q in ReservedRows(before) <==> q in ReservedRows(after);
  }

  lemma NoneReserved(work: map<int, Row>)
    requires forall q :: q in work ==> work[q].disposition != Reserved
    ensures ReservedRows(work) == {}
  {
    assert forall q :: q !in ReservedRows(work);
  }

  lemma AdvanceKeepsSound(s: State, through: Option<int>)
    requires s.scan <= s.enumerated
    requires through.Some? ==> s.scan <= through.value <= MAX_SEQUENCE
    requires Sound(s)
    ensures Sound(Advance(s, through).state)
  {
    AdvanceEffect(s, through);
    var t := Advance(s, through).state;
    ReservedUnchanged(s.work, t.work);
    SubsetSize(t.work.Keys, s.work.Keys);
    forall q | q in t.work ensures ValidRow(q, t.work[q]) { assert ValidRow(q, s.work[q]); }
  }

  lemma AdmittedSound(s: State, through: int, records: seq<Record>, historical: bool)
    requires Sound(s)
    requires forall r :: r in records ==> WellFormed(r.source)
    requires Admit(s.work, through, records, historical).Admitted?
    ensures Sound(s.(work := Admit(s.work, through, records, historical).work))
  {
    AdmitEffect(s.work, through, records, historical);
    ReservedUnchanged(s.work, Admit(s.work, through, records, historical).work);
  }

  lemma IngestSurvives(s: State, snap: Scan)
    requires Sound(s)
    requires forall r :: r in snap.records ==> WellFormed(r.source)
    ensures Survives(IngestDraft(s, snap))
  {
    AdmitErrors(s.work, s.scan, snap.records, false);
    if s.scan <= snap.through <= MAX_SEQUENCE && Admit(s.work, s.scan, snap.records, false).Admitted? {
      AdmittedSound(s, s.scan, snap.records, false);
      AdvanceKeepsSound(s.(work := Admit(s.work, s.scan, snap.records, false).work), Some(snap.through));
    }
  }

  lemma {:induction false} AdmitErrors(work: map<int, Row>, through: int, records: seq<Record>, historical: bool)
    ensures var a := Admit(work, through, records, historical);
      a.Rejected? ==> a.error in {InvalidCounter, SourceChanged, Capacity}
    decreases |records|
  {
    if records != [] {
      var item := records[0];
      AdmitErrors(work, through, records[1..], historical);
      AdmitErrors(work[item.sequence := Row(item.source, Pending, 0, 0, false)], through, records[1..], historical);
    }
  }

  lemma SeedSurvives(s: State, records: seq<Record>)
    requires Sound(s)
    requires forall r :: r in records ==> WellFormed(r.source)
    ensures Survives(SeedDraft(s, records))
  {
    AdmitErrors(s.work, s.scan, records, true);
    if Admit(s.work, s.scan, records, true).Admitted? {
      AdmittedSound(s, s.scan, records, true);
    }
  }

  lemma {:induction false} ElementsSize(seqs: seq<int>)
    requires Distinct(seqs)
    ensures |Elements(seqs)| == |seqs|
  {
    if seqs != [] {
      var rest := seqs[1..];
      ElementsSize(rest);
      assert Elements(seqs) == Elements(rest) + {seqs[0]};
      assert seqs[0] !in Elements(rest);
    }
  }

  lemma RowsUntouched(s: State, work: map<int, Row>)
    requires Sound(s) && work.Keys == s.work.Keys
    requires forall q :: q in work ==> ValidRow(q, s.work[q]) ==> ValidRow(q, work[q])
    ensures forall q {:trigger ValidRow(q, work[q])} :: q in work ==> ValidRow(q, work[q])
    ensures |work| == |s.work|
  {
    forall q | q in work ensures ValidRow(q, work[q]) { assert ValidRow(q, s.work[q]); }
    assert |work.Keys| == |s.work.Keys|;
  }

  lemma NoReservedRows(s: State)
    requires s.members == ReservedRows(s.work)
    ensures forall q :: q in s.work && q !in s.members ==> s.work[q].disposition != Reserved
  {
    assert forall q :: q in s.work && s.work[q].disposition == Reserved ==> q in ReservedRows(s.work);
  }

  lemma ReserveSurvives(s: State, seqs: seq<int>, now: int)
    requires Sound(s)
    ensures Survives(ReserveDraft(s, seqs, now))
    ensures ReserveDraft(s, seqs, now).Ready? ==>
      var t := ReserveDraft(s, seqs, now).state;
      && s.attempt.None? && t.attempt == Some(now) && t.members == Elements(seqs) && |t.members| == |seqs|
      && forall q :: q in t.members ==> q in s.work && Reservable(s, q, now) && t.work[q] == ReserveRow(s.work[q])
  {
    if ReserveDraft(s, seqs, now).Ready? {
      hide OneKind;
      var t := ReserveDraft(s, seqs, now).state;
      ElementsSize(seqs);
      NoReservedRows(s);
      assert forall q :: q in Elements(seqs) <==> q in seqs;
      assert forall q :: q in seqs ==> Reservable(s, q, now);
      assert forall q :: q in ReservedRows(t.work) <==> q in Elements(seqs);
      assert ReservedRows(t.work) == Elements(seqs);
      assert seqs[0] in Elements(seqs);
      assert t.work.Keys == s.work.Keys;
      RowsUntouched(s, t.work);
    }
  }

  lemma ResolveWorkSound(s: State, outcome: Outcome, now: int)
    requires Sound(s) && Clock(now)
    ensures Sound(s.(work := ResolveWork(s.work, s.members, outcome, now), attempt := None, members := {}))
  {
    var work := ResolveWork(s.work, s.members, outcome, now);
    assert work.Keys == s.work.Keys;
    NoReservedRows(s);
    NoneReserved(work);
    RowsUntouched(s, work);
  }

  lemma ResolveSurvives(s: State, outcome: Outcome, now: int)
    requires Sound(s)
    ensures Survives(ResolveDraft(s, outcome, now))
  {
    if Clock(now) {
      ResolveWorkSound(s, outcome, now);
      AdvanceKeepsSound(s.(work := ResolveWork(s.work, s.members, outcome, now), attempt := None, members := {}), None);
    }
  }

  lemma RetrySurvives(s: State, seqs: seq<int>)
    requires Sound(s)
    ensures Survives(RetryDraft(s, seqs))
  {
    if RetryDraft(s, seqs).Ready? {
      var work := RetryDraft(s, seqs).state.work;
      assert work.Keys == s.work.Keys;
      ReservedUnchanged(s.work, work);
      RowsUntouched(s, work);
    }
  }

  lemma DropKeepsSound(s: State, dropped: set<int>)
    requires Sound(s)
    requires forall q :: q in dropped && q in s.work ==> s.work[q].disposition != Reserved
    ensures Sound(s.(work := s.work - dropped))
  {
    var work := s.work - dropped;
    assert work.Keys == s.work.Keys - dropped;
    SubsetSize(work.Keys, s.work.Keys);
    ReservedUnchanged(s.work, work);
    forall q | q in work ensures ValidRow(q, work[q]) { assert ValidRow(q, s.work[q]); }
  }

  lemma JudgedRow(q: int, r: Row, snap: Retained)
    requires ValidRow(q, r) && r.disposition != Reserved
    ensures var after := Judged(r, Judge(q, r, snap)); ValidRow(q, after) && after.disposition != Reserved
  {
    hide Index, Replaced, WellFormed;
  }

  lemma ReconcileWorkSound(s: State, snap: Retained)
    requires Sound(s) && s.attempt.None?
    ensures Sound(s.(work := ReconcileWork(s.work, snap)))
    ensures forall q :: q in s.work ==> ReconcileWork(s.work, snap)[q].disposition != Reserved
  {
    hide Judge, Judged, ValidRow;
    var work := ReconcileWork(s.work, snap);
    assert work.Keys == s.work.Keys;
    NoReservedRows(s);
    forall q | q in work ensures ValidRow(q, work[q]) && work[q].disposition != Reserved {
      assert ValidRow(q, s.work[q]);
      JudgedRow(q, s.work[q], snap);
    }
    NoneReserved(work);
    RowsUntouched(s, work);
  }

  lemma ReconcileSurvives(s: State, snap: Retained)
    requires Sound(s)
    ensures Survives(ReconcileDraft(s, snap))
  {
    if ReconcileDraft(s, snap).Ready? {
      var s' := s.(work := ReconcileWork(s.work, snap));
      ReconcileWorkSound(s, snap);
      AdvanceKeepsSound(s', None);
      AdvanceEffect(s', None);
      var p := Advance(s', None);
      DropKeepsSound(p.state, DroppedRows(s.work, snap, p.state.scan));
    } else if s.attempt.None? && Objections(s.work, snap) != {} {
      var q := Least(Objections(s.work, snap));
      assert q in Objections(s.work, snap);
    }
  }

  /* ----- the next provider call ----- */

  // Peers are taken in order without gaps: everything in ready at or below the last taken row is taken.
  lemma {:induction false} TakePeersPrefix(work: map<int, Row>, ready: set<int>, now: int, room: nat)
    requires forall q :: q in ready ==> q in work
    ensures Ascending(TakePeers(work, ready, now, room))
    ensures forall p, q :: p in TakePeers(work, ready, now, room) && q in ready && q <= p ==>
              q in TakePeers(work, ready, now, room)
    decreases |ready|
  {
    if ready != {} && room != 0 {
      var first := Least(ready);
      if work[first].source == Peer && work[first].retryAt <= now {
        var rest := TakePeers(work, ready - {first}, now, room - 1);
        TakePeersPrefix(work, ready - {first}, now, room - 1);
        var r := TakePeers(work, ready, now, room);
        assert r == [first] + rest;
        assert forall q :: q in rest ==> q in ready - {first};
        forall i, j | 0 <= i < j < |r| ensures r[i] < r[j] {
          assert r[j] == rest[j - 1] && rest[j - 1] in rest;
          if i > 0 {
            assert r[i] == rest[i - 1];
          }
        }
        forall p, q | p in r && q in ready && q <= p ensures q in r {
          if q == first {
            assert r[0] == q;
          } else {
            assert q in ready - {first};
            assert p in rest;
            assert q in rest;
          }
        }
      }
    }
  }

  // A chosen group is always one reserve accepts, and backoff never reorders notices: every
  // eligible pending row before a chosen one is chosen with it. Nothing is chosen exactly when no
  // row is eligible or the first one still backs off.
  lemma DueIsReservable(s: State, now: int, memory: bool)
    requires Valid(s) && Clock(now)
    ensures var due := Due(s, now, memory);
      && (s.activated && s.seeded && s.attempt.None? && due != [] ==> Reserve(s, due, now).Commit?)
      && Ascending(due)
      && (forall q, p :: p in due && q in ReadySet(s.work, memory) && q <= p ==> q in due)
      && (forall p :: p in due ==> p in ReadySet(s.work, memory))
      && (due == [] <==> var ready := ReadySet(s.work, memory); ready == {} || s.work[Least(ready)].retryAt > now)
  {
    var due := Due(s, now, memory);
    var ready := ReadySet(s.work, memory);
    if due != [] {
      var first := Least(ready);
      if s.work[first].source == Peer {
        TakePeersPrefix(s.work, ready, now, MAX_MEMBERS);
      }
      assert forall q :: q in due ==> ValidRow(q, s.work[q]);
      assert Selection(due);
      assert forall q :: q in due ==> Reservable(s, q, now);
      if s.work[first].source.Pointer? {
        assert Elements(due) == {first};
      }
      assert OneKind(s.work, Elements(due));
      ReserveSurvives(s, due, now);
      SurvivorCommits(ReserveDraft(s, due, now));
    }
  }
}
