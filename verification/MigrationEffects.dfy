/** What each durable step of a start decides and writes: which evidence on disk it accepts, what it
    publishes, and that it leaves everything else as it was. */
module MigrationEffects {
  import opened Common
  import opened JournalModel
  import I = Inbox
  import opened Migration
  import opened MigrationProofs

  /* ----- reading what is there ----- */

  // A marker is trusted when it has its shape, names this target, and its phase goes with what it
  // says of lost history.
  lemma MarkerEffect(m: Marker, target: string)
    ensures var r := MarkerRefusal(m, target);
      var shaped := Hex(m.target, 64) && Hex(m.nonce, 32) && 0 <= m.through <= MAX_SEQUENCE && (m.previous.Some? ==> Hex(m.previous.value, 32));
      && (r == Some(IdentityMismatch) <==> shaped && m.target != target)
      && (r.None? <==> && shaped && m.target == target
                       && (m.phase.Preparing? ==> !m.historyLost) && (m.phase.Rebuilding? ==> m.historyLost)
                       && (m.previous.Some? ==> m.historyLost))
      && (r.Some? ==> r.value in {IdentityMismatch, Recovery})
  {
    hide Hex;
  }

  // Without a marker a migration begins only on a capable bridge, with no journal file, no evidence
  // in the inbox and no checkpoint that requires a journal. All it writes first is its marker: for
  // this target, under the new nonce, from the legacy checkpoint if there is one.
  lemma FirstStartEffect(d: Disk, target: string, after: int, nonce: string, capable: bool, seen: Option<Evidence>)
    requires d.marker.None? && Hex(target, 64) && Hex(nonce, 32) && 0 <= after <= MAX_SEQUENCE
    requires d.cursor.Some? ==> 0 <= d.cursor.value.through <= MAX_SEQUENCE
    ensures var l := Start(d, target, after, nonce, capable, seen);
      var virgin := d.file == Missing && seen.None? && (d.cursor.Some? ==> !d.cursor.value.required);
      && (l.Launched? <==> capable && virgin)
      && (l.Refused? ==>
            && l.disk == d
            && (l.refusal == InvalidCapability <==> !capable && seen.Some?)
            && (l.refusal == UpgradeRequired <==> !capable && virgin)
            && l.refusal in {InvalidCapability, UpgradeRequired, Recovery})
      && (l.Launched? ==>
            var m := Marker(Preparing, target, nonce, if d.cursor.Some? then d.cursor.value.through else after, false, None);
            l.disk == Disk(Some(m), Missing, d.cursor) && l.process == Booting(true, None, d.cursor, m, MakeFile))
  {
    hide Hex;
  }

  // With one, the marker decides: an unfinished bootstrap goes on from its first step, a finished
  // one opens its journal, and the file must be there. Nothing is written yet.
  lemma LaterStartEffect(d: Disk, target: string, after: int, nonce: string, capable: bool, seen: Option<Evidence>)
    requires d.marker.Some? && MarkerRefusal(d.marker.value, target).None?
    ensures var l := Start(d, target, after, nonce, capable, seen); var m := d.marker.value;
      && l.disk == d
      && (l == Refused(d, InvalidCapability) <==> !capable && seen.Some?)
      && (l == Refused(d, UpgradeRequired) <==> !capable && seen.None? && m.phase in {Preparing, Rebuilding})
      && (l == Refused(d, Recovery) <==> (capable || seen.None?) && m.phase.Installed? && d.file == Missing)
      && (l.Refused? ==> l.refusal in {InvalidCapability, UpgradeRequired, Recovery})
      && (l.Launched? ==> l.process == Booting(capable, seen, d.cursor, m, if m.phase.Installed? then OpenStored else MakeFile))
  {}

  /* ----- the steps of a bootstrap ----- */

  // A file that is there is never made again, and one that holds a journal is never written over:
  // it is adopted if it is sound, the marker's own and without delivery history.
  lemma FileSteps(d: Disk, p: Process)
    requires p.Booting? && p.next in {MakeFile, WriteSchema}
    ensures var l := StepBoot(d, p);
      && l.disk.marker == d.marker && l.disk.cursor == d.cursor
      && (d.file.Stored? ==> l.disk.file == d.file)
      && (p.next == MakeFile ==> l.Launched? && l.process == p.(next := WriteSchema) && (d.file == Missing ==> l.disk.file == Empty))
      && (p.next == WriteSchema ==>
            && (l.Launched? <==>
                  d.file.Stored? ==>
                    && Valid(d.file.state) && Pristine(d.file.state)
                    && d.file.state.target == p.marker.target && d.file.state.nonce == p.marker.nonce
                    && d.file.state.imported == p.marker.through && d.file.state.historyLost == p.marker.historyLost)
            && (l.Launched? ==> l.process == p.(next := Declare))
            && (l.Launched? && !d.file.Stored? ==>
                  && l.disk.file.Stored?
                  && var s := l.disk.file.state;
                    && s.target == p.marker.target && s.nonce == p.marker.nonce
                    && s.imported == s.scan == s.enumerated == p.marker.through && s.historyLost == p.marker.historyLost
                    && s.work == map[] && s.attempt.None? && !s.seeded && !s.activated && !s.historyAcknowledged))
  {
    hide Valid;
  }

  // The marker is declared ready only after that, and only its phase changes; opening a finished
  // journal writes nothing at all.
  lemma MarkerSteps(d: Disk, p: Process)
    requires p.Booting? && p.next in {Declare, OpenStored}
    ensures var l := StepBoot(d, p);
      && l.disk.file == d.file && l.disk.cursor == d.cursor
      && (p.next == Declare ==>
            && l.Launched? && l.disk.marker == Some(p.marker.(phase := Installed))
            && l.process == p.(marker := p.marker.(phase := Installed), next := Gate))
      && (p.next == OpenStored ==>
            && l.disk == d
            && (l.Launched? <==>
                  && d.file.Stored? && Valid(d.file.state)
                  && d.file.state.target == p.marker.target && d.file.state.nonce == p.marker.nonce
                  && d.file.state.imported == p.marker.through && d.file.state.historyLost == p.marker.historyLost)
            && (l.Launched? ==> l.process == p.(next := Gate)))
  {
    hide Valid;
  }

  // Without the capability only a journal already activated passes, and asks for nothing. With it,
  // an activated journal needs its own evidence in the inbox; missing evidence is asked for plainly,
  // and foreign evidence is replaced only by a rebuild that named it.
  lemma GateEffect(s: State, m: Marker, capable: bool, seen: Option<Evidence>)
    ensures var g := ActivationGate(s, m, capable, seen); var own := seen == Some(Evidence(m.target, m.nonce));
      && (!capable ==> (g.Pass? <==> s.activated) && (g.Pass? ==> g.request.None?) && (g.Shut? ==> g.refusal == UpgradeRequired))
      && (capable ==>
            && (g.Pass? <==>
                  || own
                  || (!s.activated && seen.None?)
                  || (!s.activated && seen.Some? && seen.value.target == m.target && m.historyLost && m.previous == Some(seen.value.nonce)))
            && (g.Shut? ==> g.refusal == Recovery)
            && (g.Pass? ==>
                  g.request == Some(if own || seen.None? then I.Plain(Evidence(m.target, m.nonce))
                                    else I.Rebuild(Evidence(m.target, m.nonce), seen.value.nonce, true))))
  {}

  // The last step requires the journal from now on, in the legacy checkpoint, whose position stays;
  // a checkpoint elsewhere than the marker's is refused unless history is lost anyway.
  lemma GateStep(d: Disk, p: Process)
    requires p.Booting? && p.next == Gate && d.file.Stored?
    ensures var l := StepBoot(d, p); var gate := ActivationGate(d.file.state, p.marker, p.capable, p.seen);
      && l.disk.marker == d.marker && l.disk.file == d.file
      && (l.Launched? <==> gate.Pass? && (p.marker.historyLost || (p.saved.Some? ==> p.saved.value.through == p.marker.through)))
      && (l.Refused? ==> l.disk == d && l.refusal == if gate.Shut? then gate.refusal else IdentityMismatch)
      && (l.Launched? ==>
            && l.process == Serving(p.marker, gate.request)
            && (if p.saved.Some? && p.saved.value.required then l.disk.cursor == d.cursor
                else l.disk.cursor == Some(Cursor(if p.saved.Some? then p.saved.value.through else p.marker.through, true))))
  {
    hide ActivationGate;
  }

  /* ----- rebuilding ----- */

  // A rebuild needs the operator's consent and a capable bridge, files that are really gone, and
  // evidence of this target, or else a finished journal to replace. It publishes one marker that
  // names the nonce it replaces, if the inbox held one; a rebuild already begun is resumed as it is.
  lemma RepairEffect(d: Disk, target: string, ack: int, nonce: string, capable: bool, accepted: bool, seen: Option<Evidence>)
    requires Hex(target, 64) && Hex(nonce, 32) && 0 <= ack <= MAX_SEQUENCE
    ensures var l := Repair(d, target, ack, nonce, capable, accepted, seen);
      var trusted := d.marker.Some? ==> MarkerRefusal(d.marker.value, target).None?;
      var begun := d.marker.Some? && d.marker.value.phase.Rebuilding?;
      var entitled := if seen.Some? then seen.value.target == target && Hex(seen.value.nonce, 32) else d.marker.Some? && d.marker.value.phase.Installed?;
      && (l == Refused(d, RebuildRefused) <==> !accepted || !capable)
      && (accepted && capable && trusted && begun ==> l == Launched(d, Booting(true, seen, d.cursor, d.marker.value, MakeFile)))
      && (accepted && capable && trusted && !begun ==>
            && (l == Refused(d, PreserveFiles) <==> d.file != Missing)
            && (d.file == Missing ==> (l.Launched? <==> entitled) && (l.Refused? ==> l.disk == d))
            && (l.Launched? ==>
                  var m := Marker(Rebuilding, target, nonce, ack, true, if seen.Some? then Some(seen.value.nonce) else None);
                  l.disk == d.(marker := Some(m)) && l.process == Booting(true, seen, d.cursor, m, MakeFile)))
      && (!trusted ==> l.Refused? && l.disk == d)
  {
    hide Hex;
  }

  /* ----- whole starts ----- */

  // The first start of all, to its end: on a capable bridge with nothing left behind it goes through,
  // and leaves a finished marker, a journal empty of history from the legacy checkpoint's position,
  // and a checkpoint that requires it; it asks the inbox for the nonce it was given.
  lemma FirstStartSucceeds(d: Disk, target: string, after: int, nonce: string)
    requires d.marker.None? && d.file == Missing && (d.cursor.Some? ==> !d.cursor.value.required)
    requires Hex(target, 64) && Hex(nonce, 32) && 0 <= after <= MAX_SEQUENCE
    requires d.cursor.Some? ==> 0 <= d.cursor.value.through <= MAX_SEQUENCE
    ensures var l := Construct(d, target, after, nonce, true, None); var from := if d.cursor.Some? then d.cursor.value.through else after;
      var m := Marker(Installed, target, nonce, from, false, None);
      && l == Launched(Disk(Some(m), Stored(Fresh(target, nonce, from, false)), Some(Cursor(from, true))),
                       Serving(m, Some(I.Plain(Evidence(target, nonce)))))
  {
    hide Hex, Valid, Finish, FinishBoot, ActivationGate;
    FirstStartEffect(d, target, after, nonce, true, None);
    var from := if d.cursor.Some? then d.cursor.value.through else after;
    var m := Marker(Preparing, target, nonce, from, false, None);
    var d' := Disk(Some(m), Missing, d.cursor);
    BootstrapPath(d', m, None);
    var m' := m.(phase := Installed);
    var booted := Disk(Some(m'), Stored(Fresh(target, nonce, from, false)), d.cursor);
    var p := Booting(true, None, d.cursor, m', Gate);
    GateStep(booted, p);
    GateEffect(booted.file.state, m', true, None);
    assert StepBoot(booted, p) == FinishBoot(booted, p, booted.file.state);
  }

  // On a bridge without the capability a finished migration starts exactly when its journal is sound,
  // its own, already activated, and the checkpoint agrees; it then asks for nothing.
  lemma IncapableStart(d: Disk, target: string, after: int, nonce: string)
    requires d.marker.Some? && MarkerRefusal(d.marker.value, target).None? && d.marker.value.phase == Installed
    ensures var l := Construct(d, target, after, nonce, false, None); var m := d.marker.value;
      && (l.Launched? <==>
            && d.file.Stored? && Valid(d.file.state) && d.file.state.activated
            && d.file.state.target == m.target && d.file.state.nonce == m.nonce
            && d.file.state.imported == m.through && d.file.state.historyLost == m.historyLost
            && (m.historyLost || (d.cursor.Some? ==> d.cursor.value.through == m.through)))
      && (l.Launched? ==> l.process == Serving(m, None) && l.disk.marker == d.marker && l.disk.file == d.file)
      && (l.Refused? ==> l.disk == d)
  {
    hide Valid, Finish, FinishBoot, ActivationGate, MarkerRefusal;
    var m := d.marker.value;
    LaterStartEffect(d, target, after, nonce, false, None);
    StoredPath(d, m, false, None);
    if d.file.Stored? {
      var p := Booting(false, None, d.cursor, m, Gate);
      GateStep(d, p);
      GateEffect(d.file.state, m, false, None);
      assert StepBoot(d, p) == FinishBoot(d, p, d.file.state);
    }
  }
}
