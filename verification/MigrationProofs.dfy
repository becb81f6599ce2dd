/** What every run of the migration keeps: a journal's identity, its agreement with the inbox's
    evidence, the frozen legacy checkpoint, and the ability to start again. */
module MigrationProofs {
  import opened Common
  import opened JournalModel
  import opened JournalProofs
  import opened JournalRuns
  import I = Inbox
  import opened Migration

  /* ----- the invariant ----- */

  predicate MarkerFits(m: Marker, target: string, nonces: set<string>) {
    && WellShaped(m) && Consistent(m) && m.target == target && m.nonce in nonces
    && (m.previous.Some? ==> m.previous.value in nonces && m.previous.value != m.nonce)
  }

  predicate FileFits(f: File, m: Marker) {
    match f
    case Missing => true
    case Empty => m.phase != Installed
    case Stored(s) => Valid(s) && Matches(s, m) && (m.phase != Installed ==> Pristine(s))
  }

  predicate CursorFits(c: Option<Cursor>, m: Marker) {
    !m.historyLost && c.Some? ==> c.value.through == m.through
  }

  predicate RequestFits(r: I.Request, target: string, nonces: set<string>) {
    && r.evidence.target == target && Hex(r.evidence.nonce, 32) && r.evidence.nonce in nonces
    && (r.Rebuild? ==> r.accepted && Hex(r.previous, 32) && r.previous in nonces)
  }

  // No request under way would replace the marker's own nonce.
  predicate Harmless(r: I.Request, m: Marker) {
    r.Rebuild? ==> r.previous != m.nonce
  }

  predicate ProcessFits(p: Process, d: Disk) {
    match p
    case Off => true
    case Legacy(_) => d.marker.None?
    case Booting(_, _, saved, m, next) =>
      && d.marker == Some(m) && saved == d.cursor
      && (match next
          case MakeFile => m.phase != Installed
          case WriteSchema => m.phase != Installed && d.file != Missing
          case Declare => m.phase != Installed && d.file.Stored?
          case OpenStored => m.phase == Installed && d.file.Stored?
          case Gate => m.phase == Installed && d.file.Stored?)
    case Serving(m, request) =>
      && d.marker == Some(m) && m.phase == Installed && d.file.Stored?
      && (request.Some? ==>
            request.value.evidence == Wanted(m)
            && (request.value.Rebuild? ==> request.value.accepted && m.previous == Some(request.value.previous)))
  }

  // Whenever the journal says it is activated, the inbox holds exactly its evidence.
  predicate Agreed(d: Disk, evidence: Option<Evidence>) {
    d.file.Stored? && d.file.state.activated ==> d.marker.Some? && evidence == Some(Wanted(d.marker.value))
  }

  ghost predicate Kept(w: Machine, target: string) {
    && Hex(target, 64)
    && ProcessFits(w.process, w.disk)
    && (w.evidence.Some? ==> w.evidence.value.target == target && Hex(w.evidence.value.nonce, 32) && w.evidence.value.nonce in w.nonces)
    && (forall r :: r in w.flying ==> RequestFits(r, target, w.nonces))
    && Agreed(w.disk, w.evidence)
    && (w.disk.cursor.Some? ==> 0 <= w.disk.cursor.value.through <= MAX_SEQUENCE)
    && (match w.disk.marker
        case None =>
          w.disk.file == Missing && w.evidence.None? && w.flying == {} && (w.disk.cursor.Some? ==> !w.disk.cursor.value.required)
        case Some(m) =>
          && MarkerFits(m, target, w.nonces) && FileFits(w.disk.file, m) && CursorFits(w.disk.cursor, m)
          && (forall r :: r in w.flying ==> Harmless(r, m)))
  }

  lemma BeforeKept(target: string, cursor: Option<int>)
    requires Hex(target, 64) && (cursor.Some? ==> 0 <= cursor.value <= MAX_SEQUENCE)
    ensures Kept(Before(cursor), target)
  {}

  /* ----- the path of a start ----- */

  function Unadoptable(f: File, m: Marker): Option<Refusal> {
    match f
    case Stored(s) => if !Valid(s) then Some(Recovery) else if !Matches(s, m) then Some(IdentityMismatch) else if !Pristine(s) then Some(Recovery) else None
    case _ => None
  }

  function Adopted(f: File, m: Marker): File {
    if f.Stored? then f else Stored(Fresh(m.target, m.nonce, m.through, m.historyLost))
  }

  function Unopenable(f: File, m: Marker): Option<Refusal> {
    match f
    case Stored(s) => if !Valid(s) then Some(Recovery) else if !Matches(s, m) then Some(IdentityMismatch) else None
    case _ => Some(Recovery)
  }

  lemma GateEnds(d: Disk, p: Process, fuel: nat)
    requires p.Booting? && p.next == Gate && d.file.Stored? && fuel > 0
    ensures Finish(d, p, fuel) == FinishBoot(d, p, d.file.state)
    ensures FinishBoot(d, p, d.file.state).Launched? ==> FinishBoot(d, p, d.file.state).process.Serving?
  {
    assert StepBoot(d, p) == FinishBoot(d, p, d.file.state);
    hide ActivationGate;
  }

  // The steps of a bootstrap, from its marker to the gate.
  lemma BootstrapPath(d: Disk, m: Marker, seen: Option<Evidence>)
    requires d.marker == Some(m) && m.phase != Installed
    ensures var m' := m.(phase := Installed); var d' := Disk(Some(m'), Adopted(d.file, m), d.cursor);
      Finish(d, Booting(true, seen, d.cursor, m, MakeFile), 4) ==
        if Unadoptable(d.file, m).Some? then Refused(d, Unadoptable(d.file, m).value)
        else FinishBoot(d', Booting(true, seen, d.cursor, m', Gate), Adopted(d.file, m).state)
  {
    hide Valid, Matches, Pristine, FinishBoot;
    var p := Booting(true, seen, d.cursor, m, WriteSchema);
    var d1 := if d.file.Missing? then d.(file := Empty) else d;
    assert StepBoot(d, p.(next := MakeFile)) == Launched(d1, p);
    assert Finish(d, p.(next := MakeFile), 4) == Finish(d1, p, 3);
    if Unadoptable(d.file, m).None? {
      var d2 := d1.(file := Adopted(d.file, m));
      assert StepBoot(d1, p) == Launched(d2, p.(next := Declare));
      var m' := m.(phase := Installed);
      var d3 := d2.(marker := Some(m'));
      assert StepBoot(d2, p.(next := Declare)) == Launched(d3, p.(marker := m', next := Gate));
      GateEnds(d3, p.(marker := m', next := Gate), 1);
      assert Finish(d1, p, 3) == Finish(d2, p.(next := Declare), 2) == Finish(d3, p.(marker := m', next := Gate), 1);
    } else {
      assert StepBoot(d1, p) == Refused(d1, Unadoptable(d.file, m).value);
    }
  }

  lemma StoredPath(d: Disk, m: Marker, capable: bool, seen: Option<Evidence>)
    requires d.marker == Some(m) && m.phase == Installed
    ensures Finish(d, Booting(capable, seen, d.cursor, m, OpenStored), 4) ==
      if Unopenable(d.file, m).Some? then Refused(d, Unopenable(d.file, m).value)
      else FinishBoot(d, Booting(capable, seen, d.cursor, m, Gate), d.file.state)
  {
    hide Valid, Matches, FinishBoot;
    var p := Booting(capable, seen, d.cursor, m, Gate);
    if Unopenable(d.file, m).None? {
      assert StepBoot(d, p.(next := OpenStored)) == Launched(d, p);
      GateEnds(d, p, 3);
    } else {
      assert StepBoot(d, p.(next := OpenStored)) == Refused(d, Unopenable(d.file, m).value);
    }
  }

  /* ----- journal transactions keep a journal's identity ----- */

  lemma ApplyKeepsValid(s: State, op: Op)
    requires Valid(s) && Apply(s, op).Commit?
    ensures Valid(Apply(s, op).state)
  {
    ApplyCompletes(s, op);
    hide Apply, DraftOf, Valid;
  }

  lemma ConfirmKeeps(s: State, e: Evidence)
    requires Valid(s) && Confirm(s, e).Commit?
    ensures var t := Confirm(s, e).state; Valid(t) && t == s.(activated := true, counters := t.counters)
  {
    hide Valid, Accrue;
  }

  lemma FreshFits(m: Marker)
    requires WellShaped(m)
    ensures var s := Fresh(m.target, m.nonce, m.through, m.historyLost); Valid(s) && Matches(s, m) && Pristine(s)
  {
    NoneReserved(map[]);
  }

  /* ----- one act ----- */

  lemma StartKept(w: Machine, target: string, after: int, nonce: string, capable: bool)
    requires Kept(w, target) && w.process.Off? && FreshNonce(w, nonce) && 0 <= after <= MAX_SEQUENCE
    ensures Kept(LaunchFrom(w, Start(w.disk, target, after, nonce, capable, Observed(w, capable)), nonce), target)
  {
    hide Valid, Hex;
  }

  lemma RepairKept(w: Machine, target: string, ack: int, nonce: string)
    requires Kept(w, target) && w.process.Off? && FreshNonce(w, nonce) && 0 <= ack <= MAX_SEQUENCE
    ensures Kept(LaunchFrom(w, Repair(w.disk, target, ack, nonce, true, true, w.evidence), nonce), target)
  {
    hide Valid, Hex;
    if w.disk.marker.Some? && w.disk.marker.value.phase.Rebuilding? {
      StartKept(w, target, ack, nonce, true);
    }
  }

  lemma StepKept(w: Machine, target: string)
    requires Kept(w, target) && w.process.Booting?
    ensures Kept(Do(w, target, Stepping), target)
  {
    hide Valid, Hex, Pristine;
    FreshFits(w.process.marker);
  }

  lemma LandKept(w: Machine, target: string, r: I.Request)
    requires Kept(w, target)
    ensures Kept(Do(w, target, Landing(r)), target)
  {
    hide Valid, Hex, Pristine, FileFits;
  }

  lemma ConfirmKept(w: Machine, target: string)
    requires Kept(w, target)
    ensures Kept(Do(w, target, Confirming), target)
  {
    hide Valid, Hex, Pristine, Confirm;
    if w.process.Serving? && w.process.request.Some? && w.disk.file.Stored? && w.evidence == Some(w.process.request.value.evidence)
       && Confirm(OnDisk(w.disk), w.evidence.value).Commit? {
      ConfirmKeeps(OnDisk(w.disk), w.evidence.value);
    }
  }

  lemma DeliverKept(w: Machine, target: string, op: Op)
    requires Kept(w, target)
    ensures Kept(Do(w, target, Delivering(op)), target)
  {
    hide Valid, Hex, Pristine, Apply;
    if w.process.Serving? && w.disk.file.Stored? && !op.DoConfirm? && Apply(OnDisk(w.disk), op).Commit? {
      ApplyKeepsIdentity(OnDisk(w.disk), op);
      ApplyKeepsValid(OnDisk(w.disk), op);
    }
  }

  lemma ActKept(w: Machine, target: string, a: Act)
    requires Kept(w, target)
    ensures Kept(Do(w, target, a), target)
  {
    match a
    case Launching(after, nonce, capable) =>
      if w.process.Off? && FreshNonce(w, nonce) && 0 <= after <= MAX_SEQUENCE && JournalRequired(w.disk, capable) {
        StartKept(w, target, after, nonce, capable);
        hide Start, Kept;
      }
    case Repairing(ack, nonce) =>
      if w.process.Off? && FreshNonce(w, nonce) && 0 <= ack <= MAX_SEQUENCE {
        RepairKept(w, target, ack, nonce);
        hide Repair, Kept;
      }
    case Stepping =>
      if w.process.Booting? {
        StepKept(w, target);
        hide StepBoot, Kept;
      }
    case Landing(r) => LandKept(w, target, r);
    case Confirming => ConfirmKept(w, target);
    case Delivering(op) => DeliverKept(w, target, op);
    case _ => hide Valid, Hex, Pristine;
  }

  lemma {:induction false} RunKept(w: Machine, target: string, acts: seq<Act>)
    requires Kept(w, target)
    ensures Kept(Play(w, target, acts), target)
    decreases |acts|
  {
    hide Kept, Do;
    if acts != [] {
      ActKept(w, target, acts[0]);
      RunKept(Do(w, target, acts[0]), target, acts[1..]);
    }
  }
}
