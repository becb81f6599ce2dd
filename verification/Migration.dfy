/** Bootstrapping the journal beside a legacy checkpoint, one durable write at a time, and
    agreeing an activation nonce with the inbox. A process may die between any two writes, its
    requests may reach the bridge late or never, and the operator may rebuild a lost journal. */
module Migration {
  import opened Common
  import opened JournalModel
  import opened JournalRuns
  import I = Inbox

  datatype Phase = Preparing | Rebuilding | Installed

  datatype Marker = Marker(phase: Phase, target: string, nonce: string, through: int, historyLost: bool, previous: Option<string>)

  // The journal database: no file, a file without a schema, or a stored journal.
  datatype File = Missing | Empty | Stored(state: State)

  // The legacy checkpoint, and whether a journal is required from now on.
  datatype Cursor = Cursor(through: int, required: bool)

  datatype Disk = Disk(marker: Option<Marker>, file: File, cursor: Option<Cursor>)

  datatype Refusal =
    | IdentityMismatch | InvalidCapability | PreserveFiles | RebuildRefused | Recovery | UpgradeRequired

  predicate WellShaped(m: Marker) {
    && Hex(m.target, 64) && Hex(m.nonce, 32) && 0 <= m.through <= MAX_SEQUENCE
    && (m.previous.Some? ==> Hex(m.previous.value, 32))
  }

  predicate Consistent(m: Marker) {
    && !(m.phase.Preparing? && m.historyLost)
    && !(m.phase.Rebuilding? && !m.historyLost)
    && !(!m.historyLost && m.previous.Some?)
  }

  function MarkerRefusal(m: Marker, target: string): Option<Refusal> {
    if !WellShaped(m) then Some(Recovery)
    else if m.target != target then Some(IdentityMismatch)
    else if !Consistent(m) then Some(Recovery)
    else None
  }

  predicate Matches(s: State, m: Marker) {
    s.target == m.target && s.nonce == m.nonce && s.imported == m.through && s.historyLost == m.historyLost
  }

  // No delivery history: the only journal a bootstrap may adopt.
  predicate Pristine(s: State) {
    && s.work == map[] && s.attempt.None? && s.counters == ZERO && !s.seeded && !s.activated && !s.historyAcknowledged
    && s.scan == s.imported && s.enumerated == s.imported
  }

  function Wanted(m: Marker): Evidence {
    Evidence(m.target, m.nonce)
  }

  /* ----- starting ----- */

  // The next durable step of a starting process.
  datatype BootStep = MakeFile | WriteSchema | Declare | OpenStored | Gate

  datatype Process =
    | Off
    | Booting(capable: bool, seen: Option<Evidence>, saved: Option<Cursor>, marker: Marker, next: BootStep)
    | Serving(marker: Marker, request: Option<I.Request>)
    | Legacy(after: int)

  datatype Launch = Launched(disk: Disk, process: Process) | Refused(disk: Disk, refusal: Refusal)

  function NewMarker(target: string, nonce: string, through: int): Marker {
    Marker(Preparing, target, nonce, through, false, None)
  }

  // Reads what is on disk, decides whether this is a first migration, and publishes its marker.
  function Start(d: Disk, target: string, after: int, nonce: string, capable: bool, seen: Option<Evidence>): Launch {
    if !capable && seen.Some? then Refused(d, InvalidCapability)
    else if d.marker.None? then
      if d.file != Missing || seen.Some? || (d.cursor.Some? && d.cursor.value.required) then Refused(d, Recovery)
      else if !capable then Refused(d, UpgradeRequired)
      else
        var m := NewMarker(target, nonce, if d.cursor.Some? then d.cursor.value.through else after);
        Resume(d.(marker := Some(m)), target, capable, seen)
    else Resume(d, target, capable, seen)
  }

  function Resume(d: Disk, target: string, capable: bool, seen: Option<Evidence>): Launch
    requires d.marker.Some?
  {
    var m := d.marker.value;
    if MarkerRefusal(m, target).Some? then Refused(d, MarkerRefusal(m, target).value)
    else if m.phase != Installed then
      if !capable then Refused(d, UpgradeRequired) else Launched(d, Booting(capable, seen, d.cursor, m, MakeFile))
    else if d.file == Missing then Refused(d, Recovery)
    else Launched(d, Booting(capable, seen, d.cursor, m, OpenStored))
  }

  // Whether a journal and the inbox's evidence go together, and what to ask the bridge for if so.
  datatype Gated = Pass(request: Option<I.Request>) | Shut(refusal: Refusal)

  function ActivationGate(s: State, m: Marker, capable: bool, seen: Option<Evidence>): Gated {
    if !capable then
      if s.activated then Pass(None) else Shut(UpgradeRequired)
    else if s.activated && seen != Some(Wanted(m)) then Shut(Recovery)
    else if seen.Some? && seen.value != Wanted(m) then
      if seen.value.target != m.target || !m.historyLost || m.previous != Some(seen.value.nonce) then Shut(Recovery)
      else Pass(Some(I.Rebuild(Wanted(m), m.previous.value, true)))
    else Pass(Some(I.Plain(Wanted(m))))
  }

  // The last step: check the checkpoint against the marker and require the journal from now on.
  function FinishBoot(d: Disk, p: Process, s: State): Launch
    requires p.Booting?
  {
    match ActivationGate(s, p.marker, p.capable, p.seen)
    case Shut(e) => Refused(d, e)
    case Pass(request) =>
      var saved := if p.saved.Some? then p.saved.value else Cursor(p.marker.through, false);
      if !p.marker.historyLost && saved.through != p.marker.through then Refused(d, IdentityMismatch)
      else
        Launched(if saved.required then d else d.(cursor := Some(saved.(required := true))), Serving(p.marker, request))
  }

  function StepBoot(d: Disk, p: Process): Launch
    requires p.Booting?
  {
    match p.next
    case MakeFile => Launched(if d.file.Missing? then d.(file := Empty) else d, p.(next := WriteSchema))
    case WriteSchema =>
      (match d.file
       case Stored(s) =>
         if !Valid(s) then Refused(d, Recovery)
         else if !Matches(s, p.marker) then Refused(d, IdentityMismatch)
         else if !Pristine(s) then Refused(d, Recovery)
         else Launched(d, p.(next := Declare))
       case _ =>
         Launched(d.(file := Stored(Fresh(p.marker.target, p.marker.nonce, p.marker.through, p.marker.historyLost))), p.(next := Declare)))
    case Declare =>
      var m := p.marker.(phase := Installed);
      Launched(d.(marker := Some(m)), p.(marker := m, next := Gate))
    case OpenStored =>
      (match d.file
       case Stored(s) =>
         if !Valid(s) then Refused(d, Recovery)
         else if !Matches(s, p.marker) then Refused(d, IdentityMismatch)
         else Launched(d, p.(next := Gate))
       case _ => Refused(d, Recovery))
    case Gate =>
      match d.file
      case Stored(s) => FinishBoot(d, p, s)
      case _ => Refused(d, Recovery)
  }

  // An explicit rebuild after the journal is gone: resume one already begun, or begin one that
  // names the nonce it replaces.
  function Repair(d: Disk, target: string, ack: int, nonce: string, capable: bool, accepted: bool, seen: Option<Evidence>): Launch {
    if !accepted || !capable then Refused(d, RebuildRefused)
    else if d.marker.Some? && MarkerRefusal(d.marker.value, target).Some? then Refused(d, MarkerRefusal(d.marker.value, target).value)
    else if d.marker.Some? && d.marker.value.phase.Rebuilding? then Start(d, target, ack, nonce, capable, seen)
    else if d.file != Missing then Refused(d, PreserveFiles)
    else if seen.Some? && (seen.value.target != target || !Hex(seen.value.nonce, 32)) then Refused(d, IdentityMismatch)
    else if seen.None? && !(d.marker.Some? && d.marker.value.phase.Installed?) then Refused(d, Recovery)
    else
      var m := Marker(Rebuilding, target, nonce, ack, true, if seen.Some? then Some(seen.value.nonce) else None);
      Start(d.(marker := Some(m)), target, ack, nonce, capable, seen)
  }

  /* ----- the machine ----- */

  // One participant's disk, the inbox's evidence, the single owning process, requests under way
  // to the bridge, and every nonce ever minted.
  datatype Machine = Machine(disk: Disk, evidence: Option<Evidence>, process: Process, flying: set<I.Request>, nonces: set<string>)

  datatype Act =
    | Launching(after: int, nonce: string, capable: bool)
    | Repairing(ack: int, nonce: string)
    | Stepping
    | Halting                            // the process dies, or an error ends it
    | Sending                            // the activation request leaves for the bridge
    | Landing(request: I.Request)        // ... and arrives, soon, late, or more than once
    | Expiring(request: I.Request)       // ... or never will
    | Confirming
    | Delivering(op: Op)
    | Losing                             // the journal files disappear while nothing runs
    | Checkpoint(through: int)           // the legacy notifier saves its position

  // A process starts on the journal as soon as anything shows a migration was begun.
  predicate JournalRequired(d: Disk, capable: bool) {
    capable || d.marker.Some? || d.file != Missing || (d.cursor.Some? && d.cursor.value.required)
  }

  // A refused start leaves on disk what it had written by then.
  function Onward(w: Machine, l: Launch): Machine {
    w.(disk := l.disk, process := if l.Launched? then l.process else Off)
  }

  function LaunchFrom(w: Machine, l: Launch, nonce: string): Machine {
    Onward(w, l).(nonces := w.nonces + {nonce})
  }

  predicate FreshNonce(w: Machine, nonce: string) {
    Hex(nonce, 32) && nonce !in w.nonces
  }

  // Capability decides what a start sees of the inbox's evidence.
  function Observed(w: Machine, capable: bool): Option<Evidence> {
    if capable then w.evidence else None
  }

  function OnDisk(d: Disk): State
    requires d.file.Stored?
  {
    d.file.state
  }

  function Do(w: Machine, target: string, a: Act): Machine {
    match a
    case Launching(after, nonce, capable) =>
      if !w.process.Off? || !FreshNonce(w, nonce) || !(0 <= after <= MAX_SEQUENCE) then w
      else if !JournalRequired(w.disk, capable) then
        w.(process := Legacy(if w.disk.cursor.Some? then w.disk.cursor.value.through else after))
      else LaunchFrom(w, Start(w.disk, target, after, nonce, capable, Observed(w, capable)), nonce)
    case Repairing(ack, nonce) =>
      if !w.process.Off? || !FreshNonce(w, nonce) || !(0 <= ack <= MAX_SEQUENCE) then w
      else LaunchFrom(w, Repair(w.disk, target, ack, nonce, true, true, w.evidence), nonce)
    case Stepping =>
      if w.process.Booting? then Onward(w, StepBoot(w.disk, w.process)) else w
    case Halting => w.(process := Off)
    case Sending =>
      if w.process.Serving? && w.process.request.Some? then w.(flying := w.flying + {w.process.request.value}) else w
    case Landing(r) =>
      if r !in w.flying then w
      else
        (match I.Activate(I.EMPTY.(activation := w.evidence), r)
         case Denied(_) => w
         case Done(i) => w.(evidence := i.activation))
    case Expiring(r) => w.(flying := w.flying - {r})
    case Confirming =>
      if !w.process.Serving? || w.process.request.None? || !w.disk.file.Stored? then w
      else if w.evidence != Some(w.process.request.value.evidence) then w.(process := Off)
      else
        (match Confirm(OnDisk(w.disk), w.evidence.value)
         case Refuse(_) => w.(process := Off)
         case Commit(t, _) => w.(disk := w.disk.(file := Stored(t))))
    case Delivering(op) =>
      if !w.process.Serving? || !w.disk.file.Stored? || op.DoConfirm? then w
      else
        (match Apply(OnDisk(w.disk), op)
         case Refuse(_) => w
         case Commit(t, _) => w.(disk := w.disk.(file := Stored(t))))
    case Losing => if w.process.Off? then w.(disk := w.disk.(file := Missing)) else w
    case Checkpoint(through) =>
      if w.process.Legacy? && 0 <= through <= MAX_SEQUENCE then
        w.(disk := w.disk.(cursor := Some(Cursor(through, false))), process := Legacy(through))
      else w
  }

  function Play(w: Machine, target: string, acts: seq<Act>): Machine
    decreases |acts|
  {
    if acts == [] then w else Play(Do(w, target, acts[0]), target, acts[1..])
  }

  // An inbox never activated, no journal, and possibly a legacy checkpoint.
  function Before(cursor: Option<int>): Machine {
    Machine(Disk(None, Missing, if cursor.Some? then Some(Cursor(cursor.value, false)) else None), None, Off, {}, {})
  }

  // Run a start to its end with nothing in the way.
  function Finish(d: Disk, p: Process, fuel: nat): Launch
    decreases fuel
  {
    if !p.Booting? then Launched(d, p)
    else if fuel == 0 then Refused(d, Recovery)
    else
      match StepBoot(d, p)
      case Refused(_, _) => StepBoot(d, p)
      case Launched(d', p') => Finish(d', p', fuel - 1)
  }

  function Construct(d: Disk, target: string, after: int, nonce: string, capable: bool, seen: Option<Evidence>): Launch {
    match Start(d, target, after, nonce, capable, seen)
    case Refused(d', e) => Refused(d', e)
    case Launched(d', p) => Finish(d', p, 4)
  }
}
