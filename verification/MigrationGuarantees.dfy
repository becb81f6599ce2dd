/** The promises of the migration, over every run: crashes between any two durable writes,
    requests that arrive late or never, lost journals and explicit rebuilds. */
module MigrationGuarantees {
  import opened Common
  import opened JournalModel
  import opened JournalRuns
  import I = Inbox
  import opened Migration
  import opened MigrationProofs

  /* ----- starting again ----- */

  // What the inbox's evidence must be for the marker's journal to be started on it: nothing yet,
  // the journal's own, or the one an explicit rebuild said it replaces.
  predicate GateOpen(evidence: Option<Evidence>, m: Marker) {
    evidence.None? || evidence.value == Wanted(m) || (m.historyLost && m.previous == Some(evidence.value.nonce))
  }

  predicate Present(w: Machine) {
    w.disk.marker.Some? && (w.disk.marker.value.phase == Installed ==> w.disk.file != Missing)
  }

  // What a completed start leaves on disk.
  function Booted(d: Disk, m: Marker): Disk {
    Disk(Some(m.(phase := Installed)),
         if d.file.Stored? then d.file else Stored(Fresh(m.target, m.nonce, m.through, m.historyLost)),
         Some(Cursor(if d.cursor.Some? then d.cursor.value.through else m.through, true)))
  }

  // On a capable bridge the gate passes exactly then, and asks for the marker's own nonce.
  lemma GateDecides(w: Machine, target: string, s: State)
    requires Kept(w, target) && w.disk.marker.Some?
    requires s.activated ==> w.evidence == Some(Wanted(w.disk.marker.value))
    ensures var m := w.disk.marker.value; var gate := ActivationGate(s, m.(phase := Installed), true, w.evidence);
      && (gate.Pass? <==> GateOpen(w.evidence, m))
      && (gate.Pass? ==> gate.request.Some? && gate.request.value.evidence == Wanted(m))
  {
    hide Hex, Valid, FileFits, ProcessFits;
  }

  lemma FinishFrom(w: Machine, target: string, p: Process, m: Marker, s: State)
    requires Kept(w, target) && w.disk.marker.Some? && p.Booting?
    requires m == w.disk.marker.value.(phase := Installed)
    requires p == Booting(true, w.evidence, w.disk.cursor, m, Gate)
    requires s.activated ==> w.evidence == Some(Wanted(m))
    ensures var l := FinishBoot(Disk(Some(m), Stored(s), w.disk.cursor), p, s);
      && (l.Launched? <==> GateOpen(w.evidence, m))
      && (l.Launched? ==>
            && l.process.Serving? && l.process.marker == m && l.process.request.Some?
            && l.process.request.value.evidence == Wanted(m)
            && l.disk == Disk(Some(m), Stored(s), Some(Cursor(if w.disk.cursor.Some? then w.disk.cursor.value.through else m.through, true))))
  {
    GateDecides(w, target, s);
    hide Hex, Valid, FileFits, ProcessFits, ActivationGate, GateOpen;
  }

  // From the first published marker on, whatever write the last process died after, a start on a
  // capable bridge goes through exactly when the inbox's evidence lets it; it keeps the marker's
  // nonce and imported position and any journal already stored, and asks for that very nonce.
  lemma RestartSucceeds(w: Machine, target: string, after: int, nonce: string)
    requires Kept(w, target) && Present(w)
    ensures var m := w.disk.marker.value; var l := Construct(w.disk, target, after, nonce, true, w.evidence);
      && (l.Launched? <==> GateOpen(w.evidence, m))
      && (l.Launched? ==>
            && l.disk == Booted(w.disk, m)
            && l.process.Serving? && l.process.marker == m.(phase := Installed)
            && l.process.request.Some? && l.process.request.value.evidence == Wanted(m))
  {
    hide Hex, Valid, FinishBoot, Finish, ProcessFits, Matches, Pristine;
    var d, m := w.disk, w.disk.marker.value;
    var m' := m.(phase := Installed);
    if m.phase != Installed {
      BootstrapPath(d, m, w.evidence);
      FreshInactive(m);
      PristineInactive(d.file, m);
      FinishFrom(w, target, Booting(true, w.evidence, d.cursor, m', Gate), m', Adopted(d.file, m).state);
    } else {
      StoredPath(d, m, true, w.evidence);
      FinishFrom(w, target, Booting(true, w.evidence, d.cursor, m', Gate), m', d.file.state);
    }
  }

  lemma PristineInactive(f: File, m: Marker)
    requires FileFits(f, m) && m.phase != Installed
    ensures !Adopted(f, m).state.activated
  {}

  lemma FreshInactive(m: Marker)
    ensures !Fresh(m.target, m.nonce, m.through, m.historyLost).activated
  {}

  /* ----- runs whose rebuilds wait for old requests to settle ----- */

  // No rebuild begins while a request of an earlier process may still arrive.
  predicate Tidy(w: Machine, target: string, acts: seq<Act>)
    decreases |acts|
  {
    acts != [] ==> (acts[0].Repairing? ==> w.flying == {}) && Tidy(Do(w, target, acts[0]), target, acts[1..])
  }

  ghost predicate GateHeld(w: Machine) {
    w.disk.marker.Some? ==>
      GateOpen(w.evidence, w.disk.marker.value) && forall r :: r in w.flying ==> r.evidence == Wanted(w.disk.marker.value)
  }

  lemma GateStep(w: Machine, target: string, a: Act)
    requires Kept(w, target) && GateHeld(w)
    requires a.Repairing? ==> w.flying == {}
    ensures GateHeld(Do(w, target, a))
  {
    hide Hex, Valid, Pristine, Apply, Confirm, FileFits;
  }

  lemma {:induction false} GateStaysOpen(w: Machine, target: string, acts: seq<Act>)
    requires Kept(w, target) && GateHeld(w) && Tidy(w, target, acts)
    ensures GateHeld(Play(w, target, acts))
    decreases |acts|
  {
    hide Kept, GateHeld, Do;
    if acts != [] {
      GateStep(w, target, acts[0]);
      ActKept(w, target, acts[0]);
      GateStaysOpen(Do(w, target, acts[0]), target, acts[1..]);
    }
  }

  // Crash consistency: in every run from before the migration whose rebuilds wait for earlier
  // requests to settle, every point past the first marker starts again, with the nonce and position
  // the marker carries.
  lemma EveryCrashPointRestarts(target: string, cursor: Option<int>, acts: seq<Act>, after: int, nonce: string)
    requires Hex(target, 64) && (cursor.Some? ==> 0 <= cursor.value <= MAX_SEQUENCE)
    requires Tidy(Before(cursor), target, acts)
    ensures var w := Play(Before(cursor), target, acts);
      Present(w) ==>
        var l := Construct(w.disk, target, after, nonce, true, w.evidence);
        l.Launched? && l.disk == Booted(w.disk, w.disk.marker.value) && l.process.Serving?
  {
    hide Kept, Play, Construct;
    BeforeKept(target, cursor);
    RunKept(Before(cursor), target, acts);
    GateStaysOpen(Before(cursor), target, acts);
    var w := Play(Before(cursor), target, acts);
    if Present(w) {
      RestartSucceeds(w, target, after, nonce);
    }
  }

  // Without that care it fails: a rebuild request of an abandoned rebuild, arriving after a later
  // rebuild has begun, leaves evidence that neither marker nor rebuild accounts for.
  lemma LateRequestBlocksRestart(w: Machine, target: string, r: I.Request, after: int, nonce: string)
    requires Kept(w, target) && Present(w) && r in w.flying && r.Rebuild?
    requires var m := w.disk.marker.value;
      m.previous == Some(r.previous) && w.evidence == Some(Evidence(target, r.previous))
      && r.evidence.nonce != m.nonce && r.evidence.nonce != r.previous
    ensures var w' := Do(w, target, Landing(r));
      GateOpen(w.evidence, w.disk.marker.value)
      && Construct(w'.disk, target, after, nonce, true, w'.evidence).Refused?
  {
    hide Hex, Valid, Construct, FileFits, ProcessFits;
    ActKept(w, target, Landing(r));
    RestartSucceeds(Do(w, target, Landing(r)), target, after, nonce);
  }

  // A plain request does the same to a rebuild that began before any evidence was there.
  lemma LatePlainBlocksRestart(w: Machine, target: string, r: I.Request, after: int, nonce: string)
    requires Kept(w, target) && Present(w) && r in w.flying && r.Plain? && w.evidence.None?
    requires var m := w.disk.marker.value; r.evidence.nonce != m.nonce && m.previous != Some(r.evidence.nonce)
    ensures var w' := Do(w, target, Landing(r));
      GateOpen(w.evidence, w.disk.marker.value)
      && Construct(w'.disk, target, after, nonce, true, w'.evidence).Refused?
  {
    hide Hex, Valid, Construct, FileFits, ProcessFits;
    ActKept(w, target, Landing(r));
    RestartSucceeds(Do(w, target, Landing(r)), target, after, nonce);
  }

  // A bootstrap, up to its activation request.
  function Bootstrap(begin: Act): seq<Act> {
    [begin, Stepping, Stepping, Stepping, Stepping, Sending]
  }

  lemma BootstrapRuns(w: Machine, target: string, begin: Act, m: Marker, request: I.Request)
    requires var w' := Do(w, target, begin);
      && w'.disk == Disk(Some(m), Missing, w.disk.cursor) && w'.evidence == w.evidence && w'.flying == w.flying
      && w'.process == Booting(true, w.evidence, w.disk.cursor, m, MakeFile)
    requires m.target == target && m.phase != Installed && (!m.historyLost ==> w.disk.cursor.None? || w.disk.cursor.value.through == m.through)
    requires ActivationGate(Fresh(m.target, m.nonce, m.through, m.historyLost), m.(phase := Installed), true, w.evidence) == Pass(Some(request))
    ensures var w' := Play(w, target, Bootstrap(begin));
      && w'.disk.marker == Some(m.(phase := Installed)) && w'.evidence == w.evidence && w'.flying == w.flying + {request}
      && w'.disk.cursor == Some(Cursor(if w.disk.cursor.Some? then w.disk.cursor.value.through else m.through, true))
      && w'.disk.file.Stored? && w'.nonces == Do(w, target, begin).nonces && w'.process.Serving?
  {
    hide Hex, Valid, ActivationGate, Start, Repair;
    var m' := m.(phase := Installed);
    var s := Fresh(m.target, m.nonce, m.through, m.historyLost);
    var w1 := Do(w, target, begin);
    var w2 := Do(w1, target, Stepping);
    assert w2 == w1.(disk := w1.disk.(file := Empty), process := w1.process.(next := WriteSchema));
    var w3 := Do(w2, target, Stepping);
    assert w3 == w2.(disk := w2.disk.(file := Stored(s)), process := w2.process.(next := Declare));
    var w4 := Do(w3, target, Stepping);
    assert w4 == w3.(disk := w3.disk.(marker := Some(m')), process := w3.process.(marker := m', next := Gate));
    var w5 := Do(w4, target, Stepping);
    assert w5.process == Serving(m', Some(request));
    var w6 := Do(w5, target, Sending);
    hide Do;
    PlaySix(w, target, begin, Stepping, Stepping, Stepping, Stepping, Sending);
  }

  lemma PlaySix(w: Machine, target: string, a: Act, b: Act, c: Act, d: Act, e: Act, f: Act)
    ensures Play(w, target, [a, b, c, d, e, f]) ==
            Do(Do(Do(Do(Do(Do(w, target, a), target, b), target, c), target, d), target, e), target, f)
  {
    hide Do;
    var w1 := Do(w, target, a);
    var w2 := Do(w1, target, b);
    var w3 := Do(w2, target, c);
    PlayThree(w3, target, d, e, f);
    PlayThree(w, target, a, b, c);
    PlayOn(w, target, [a, b, c], [d, e, f]);
    assert [a, b, c, d, e, f] == [a, b, c] + [d, e, f];
  }

  lemma PlayThree(w: Machine, target: string, a: Act, b: Act, c: Act)
    ensures Play(w, target, [a, b, c]) == Do(Do(Do(w, target, a), target, b), target, c)
  {
    hide Do;
    PlayOne(w, target, a);
    PlayOn(w, target, [a], [b, c]);
    PlayOne(Do(w, target, a), target, b);
    PlayOn(Do(w, target, a), target, [b], [c]);
    PlayOne(Do(Do(w, target, a), target, b), target, c);
    assert [a, b, c] == [a] + [b, c] && [b, c] == [b] + [c];
  }

  lemma {:induction false} PlayOn(w: Machine, target: string, first: seq<Act>, rest: seq<Act>)
    ensures Play(w, target, first + rest) == Play(Play(w, target, first), target, rest)
    decreases |first|
  {
    hide Do;
    if first == [] {
      assert first + rest == rest;
    } else {
      PlayOn(Do(w, target, first[0]), target, first[1..], rest);
      assert (first + rest)[1..] == first[1..] + rest;
    }
  }

  const LOST: seq<Act> := [Halting, Losing]

  // Such a run exists: the files are lost twice, the first rebuild's request is still under way
  // when the second rebuild begins, and it is the one that arrives.
  lemma LateRequestHappens(target: string, n1: string, n2: string, n3: string, after: int, nonce: string)
    requires Hex(target, 64) && Hex(n1, 32) && Hex(n2, 32) && Hex(n3, 32) && n1 != n2 && n2 != n3 && n1 != n3
    ensures exists acts :: var w := Play(Before(None), target, acts);
      Present(w) && Construct(w.disk, target, after, nonce, true, w.evidence).Refused?
  {
    hide Hex, Valid, Do, Construct, Play, Kept;
    var w0 := Before(None);
    BeforeKept(target, None);
    var a := Launching(0, n1, true);
    var r1 := I.Plain(Evidence(target, n1));
    FirstBegins(target, n1);
    BootstrapRuns(w0, target, a, NewMarker(target, n1, 0), r1);
    var w1 := Play(w0, target, Bootstrap(a));
    var w2 := Play(w1, target, [Landing(r1), Halting, Losing]);
    FirstLands(w1, target, n1);
    var b := Repairing(0, n2);
    var r2 := I.Rebuild(Evidence(target, n2), n1, true);
    RepairBegins(w2, target, n1, n2);
    BootstrapRuns(w2, target, b, Marker(Rebuilding, target, n2, 0, true, Some(n1)), r2);
    var w3 := Play(w2, target, Bootstrap(b));
    var w4 := Play(w3, target, LOST);
    LoseRuns(w3, target);
    RepairBegins(w4, target, n1, n3);
    var w5 := Do(w4, target, Repairing(0, n3));
    var acts := Bootstrap(a) + [Landing(r1), Halting, Losing] + Bootstrap(b) + LOST + [Repairing(0, n3)];
    PlayOn(w0, target, Bootstrap(a) + [Landing(r1), Halting, Losing] + Bootstrap(b) + LOST, [Repairing(0, n3)]);
    PlayOn(w0, target, Bootstrap(a) + [Landing(r1), Halting, Losing] + Bootstrap(b), LOST);
    PlayOn(w0, target, Bootstrap(a) + [Landing(r1), Halting, Losing], Bootstrap(b));
    PlayOn(w0, target, Bootstrap(a), [Landing(r1), Halting, Losing]);
    PlayOne(w4, target, Repairing(0, n3));
    assert Play(w0, target, acts) == w5;
    RunKept(w0, target, acts);
    assert r2 in w5.flying;
    LateRequestBlocksRestart(w5, target, r2, after, nonce);
    PlayOn(w0, target, acts, [Landing(r2)]);
    PlayOne(w5, target, Landing(r2));
    ActMarker(w5, target, r2);
    assert Play(w0, target, acts + [Landing(r2)]) == Do(w5, target, Landing(r2));
  }

  // And so does one for a plain request: the files are lost before the first journal's request
  // arrives, a rebuild begins without evidence to name, and then the request comes in.
  lemma LatePlainHappens(target: string, n1: string, n2: string, after: int, nonce: string)
    requires Hex(target, 64) && Hex(n1, 32) && Hex(n2, 32) && n1 != n2
    ensures exists acts :: var w := Play(Before(None), target, acts);
      Present(w) && Construct(w.disk, target, after, nonce, true, w.evidence).Refused?
  {
    hide Hex, Valid, Do, Construct, Play, Kept;
    var w0 := Before(None);
    BeforeKept(target, None);
    var a := Launching(0, n1, true);
    var r := I.Plain(Evidence(target, n1));
    FirstBegins(target, n1);
    BootstrapRuns(w0, target, a, NewMarker(target, n1, 0), r);
    var w1 := Play(w0, target, Bootstrap(a));
    var w2 := Play(w1, target, LOST);
    LoseRuns(w1, target);
    BlindRepairBegins(w2, target, n2);
    var w3 := Do(w2, target, Repairing(0, n2));
    PlayOn(w0, target, Bootstrap(a), LOST);
    PlayOn(w0, target, Bootstrap(a) + LOST, [Repairing(0, n2)]);
    PlayOne(w2, target, Repairing(0, n2));
    var acts := Bootstrap(a) + LOST + [Repairing(0, n2)];
    assert Play(w0, target, acts) == w3;
    RunKept(w0, target, acts);
    LatePlainBlocksRestart(w3, target, r, after, nonce);
    PlayOn(w0, target, acts, [Landing(r)]);
    PlayOne(w3, target, Landing(r));
    ActMarker(w3, target, r);
    assert Play(w0, target, acts + [Landing(r)]) == Do(w3, target, Landing(r));
  }

  // Beginning a rebuild of a lost journal that was never activated.
  lemma BlindRepairBegins(w: Machine, target: string, n: string)
    requires Hex(target, 64) && Hex(n, 32) && n !in w.nonces
    requires w.process.Off? && w.disk.marker.Some? && MarkerRefusal(w.disk.marker.value, target).None?
    requires w.disk.marker.value.phase == Installed && w.disk.file == Missing && w.evidence.None?
    ensures var w' := Do(w, target, Repairing(0, n)); var m := Marker(Rebuilding, target, n, 0, true, None);
      w'.disk == w.disk.(marker := Some(m)) && w'.evidence == w.evidence && w'.flying == w.flying
  {
    hide Hex, Valid;
  }

  lemma PlayOne(w: Machine, target: string, a: Act)
    ensures Play(w, target, [a]) == Do(w, target, a)
  {
    hide Do;
    assert [a][1..] == [];
  }

  lemma ActMarker(w: Machine, target: string, r: I.Request)
    requires Present(w)
    ensures Present(Do(w, target, Landing(r)))
  {}

  lemma FirstBegins(target: string, n1: string)
    requires Hex(target, 64) && Hex(n1, 32)
    ensures var w := Do(Before(None), target, Launching(0, n1, true)); var m := NewMarker(target, n1, 0);
      && w == Machine(Disk(Some(m), Missing, None), None, Booting(true, None, None, m, MakeFile), {}, {n1})
      && ActivationGate(Fresh(target, n1, 0, false), m.(phase := Installed), true, None) == Pass(Some(I.Plain(Evidence(target, n1))))
  {
    hide Hex, Valid;
  }

  lemma FirstLands(w: Machine, target: string, n1: string)
    requires Hex(target, 64) && Hex(n1, 32)
    requires w.evidence.None? && w.flying == {I.Plain(Evidence(target, n1))} && w.disk.marker.Some?
    ensures var w' := Play(w, target, [Landing(I.Plain(Evidence(target, n1))), Halting, Losing]);
      && w' == w.(evidence := Some(Evidence(target, n1)), process := Off, disk := w.disk.(file := Missing))
  {
    hide Hex, Valid;
    PlayThree(w, target, Landing(I.Plain(Evidence(target, n1))), Halting, Losing);
    hide Play;
  }

  lemma LoseRuns(w: Machine, target: string)
    ensures Play(w, target, LOST) == w.(process := Off, disk := w.disk.(file := Missing))
  {
    assert LOST[1..] == [Losing] && [Losing][1..] == [];
  }

  // Beginning a rebuild of the lost journal whose nonce the inbox holds.
  lemma RepairBegins(w: Machine, target: string, n1: string, n: string)
    requires Hex(target, 64) && Hex(n1, 32) && Hex(n, 32) && n !in w.nonces && n != n1
    requires w.process.Off? && w.disk.marker.Some? && MarkerRefusal(w.disk.marker.value, target).None?
    requires w.disk.marker.value.phase == Installed && w.disk.file == Missing && w.evidence == Some(Evidence(target, n1))
    ensures var w' := Do(w, target, Repairing(0, n)); var m := Marker(Rebuilding, target, n, 0, true, Some(n1));
      && w'.disk == w.disk.(marker := Some(m)) && w'.evidence == w.evidence && w'.flying == w.flying
      && w'.process == Booting(true, w.evidence, w.disk.cursor, m, MakeFile) && w'.nonces == w.nonces + {n}
      && ActivationGate(Fresh(target, n, 0, true), m.(phase := Installed), true, w.evidence) == Pass(Some(I.Rebuild(Evidence(target, n), n1, true)))
  {
    hide Hex, Valid;
  }

  /* ----- what never changes ----- */

  // The journal's evidence: whenever a stored journal says it is activated, the inbox holds
  // exactly its target and nonce, through lost replies, late requests and rebuilds.
  lemma ActivationAgrees(target: string, cursor: Option<int>, acts: seq<Act>)
    requires Hex(target, 64) && (cursor.Some? ==> 0 <= cursor.value <= MAX_SEQUENCE)
    ensures var w := Play(Before(cursor), target, acts);
      w.disk.file.Stored? && w.disk.file.state.activated ==>
        w.evidence == Some(Evidence(w.disk.file.state.target, w.disk.file.state.nonce)) && w.disk.file.state.target == target
  {
    hide Play, Hex, Valid, Pristine;
    BeforeKept(target, cursor);
    RunKept(Before(cursor), target, acts);
  }

  // A stored journal is never re-bootstrapped: it changes only by its own transactions, and goes
  // only when its files do.
  lemma NeverRebootstrapped(w: Machine, target: string, a: Act)
    requires Kept(w, target) && w.disk.file.Stored?
    ensures var s, f := w.disk.file.state, Do(w, target, a).disk.file;
      || f == w.disk.file
      || (a.Losing? && f == Missing)
      || (a.Delivering? && Apply(s, a.op).Commit? && f == Stored(Apply(s, a.op).state))
      || (a.Confirming? && w.evidence.Some? && Confirm(s, w.evidence.value).Commit? && f == Stored(Confirm(s, w.evidence.value).state))
  {
    hide Hex, Valid, Apply, Confirm, Pristine;
  }

  // Once a marker exists the legacy notifier never runs again and its checkpoint never moves.
  lemma CheckpointStep(w: Machine, target: string, a: Act)
    requires Kept(w, target) && w.disk.marker.Some?
    ensures var w' := Do(w, target, a);
      && w'.disk.marker.Some? && !w'.process.Legacy?
      && (w.disk.cursor.Some? ==>
            && w'.disk.cursor.Some? && w'.disk.cursor.value.through == w.disk.cursor.value.through
            && (w.disk.cursor.value.required ==> w'.disk.cursor.value.required))
  {
    hide Hex, Valid, Apply, Confirm, Pristine, FileFits, Agreed;
  }

  lemma {:induction false} CheckpointFrozen(w: Machine, target: string, acts: seq<Act>)
    requires Kept(w, target) && w.disk.marker.Some?
    ensures var w' := Play(w, target, acts);
      && w'.disk.marker.Some? && !w'.process.Legacy?
      && (w.disk.cursor.Some? ==> w'.disk.cursor.Some? && w'.disk.cursor.value.through == w.disk.cursor.value.through)
    decreases |acts|
  {
    hide Kept, Do;
    if acts != [] {
      CheckpointStep(w, target, acts[0]);
      ActKept(w, target, acts[0]);
      CheckpointFrozen(Do(w, target, acts[0]), target, acts[1..]);
    } else {
      LegacyGone(w, target);
    }
  }

  lemma LegacyGone(w: Machine, target: string)
    requires Kept(w, target) && w.disk.marker.Some?
    ensures !w.process.Legacy?
  {}

  // Only an explicit rebuild of a lost journal mints a new nonce or imports another position.
  lemma IdentityStep(w: Machine, target: string, a: Act)
    requires Kept(w, target) && w.disk.marker.Some? && !a.Repairing?
    ensures var m, w' := w.disk.marker.value, Do(w, target, a);
      w'.disk.marker.Some? && w'.disk.marker.value.(phase := m.phase) == m
  {
    hide Hex, Valid, Apply, Confirm, Pristine, FileFits, Agreed;
  }

  lemma {:induction false} IdentityKept(w: Machine, target: string, acts: seq<Act>)
    requires Kept(w, target) && w.disk.marker.Some? && forall a :: a in acts ==> !a.Repairing?
    ensures var m, w' := w.disk.marker.value, Play(w, target, acts);
      w'.disk.marker.Some? && w'.disk.marker.value.(phase := m.phase) == m
    decreases |acts|
  {
    hide Kept, Do;
    if acts != [] {
      assert acts[0] in acts && forall a :: a in acts[1..] ==> a in acts;
      IdentityStep(w, target, acts[0]);
      ActKept(w, target, acts[0]);
      IdentityKept(Do(w, target, acts[0]), target, acts[1..]);
    }
  }
}
