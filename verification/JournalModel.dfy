/** The notification journal as data: its persisted tables, the validation every transaction
    ends with, and each transaction as a function from the stored state to what it commits.
    `JournalStore` performs these transactions in place and is proved against them. */
module JournalModel {
  import opened Common

  const MAX_WORK: nat := 2048
  const MAX_MEMBERS: nat := 10
  const MAX_ATTEMPTS: nat := 3
  const SCAN_LIMIT: nat := 128
  const POINTER_LIMIT: nat := 16
  const NIL_INSTANCE: string := "00000000000000000000000000000000"

  // A row of work is either an ordinary peer message or a memory pointer minted for one
  // lifetime (instance) of one repository binding.
  datatype Source = Peer | Pointer(binding: string, instance: string)

  datatype Record = Record(sequence: int, source: Source)

  datatype Disposition = Pending | Reserved | Delivered | Failed | Unknown | Acknowledged | Obsolete

  datatype Outcome = OutcomeDelivered | OutcomeFailed | OutcomeUnknown

  datatype Row = Row(source: Source, disposition: Disposition, attempts: int, retryAt: int, uncertain: bool)

  datatype Counter = CDelivered | CAcknowledged | CObsolete | CFailed | CUnknown | CMissing | CAttempts | CIgnored

  datatype Counters = Counters(delivered: int, acknowledged: int, obsolete: int, failed: int,
                               unknown: int, missing: int, attempts: int, ignored: int)

  const ZERO := Counters(0, 0, 0, 0, 0, 0, 0, 0)

  function Plus(c: Counters, d: Counters): Counters {
    Counters(c.delivered + d.delivered, c.acknowledged + d.acknowledged, c.obsolete + d.obsolete, c.failed + d.failed,
             c.unknown + d.unknown, c.missing + d.missing, c.attempts + d.attempts, c.ignored + d.ignored)
  }

  function Saturated(c: Counters): Counters {
    Counters(Saturate(c.delivered), Saturate(c.acknowledged), Saturate(c.obsolete), Saturate(c.failed),
             Saturate(c.unknown), Saturate(c.missing), Saturate(c.attempts), Saturate(c.ignored))
  }

  // What a counter table holds after counting d on top of c: no counter passes the ceiling.
  function Accrue(c: Counters, d: Counters): Counters {
    Saturated(Plus(c, d))
  }

  function One(key: Counter, n: int): Counters {
    match key
    case CDelivered => ZERO.(delivered := n)
    case CAcknowledged => ZERO.(acknowledged := n)
    case CObsolete => ZERO.(obsolete := n)
    case CFailed => ZERO.(failed := n)
    case CUnknown => ZERO.(unknown := n)
    case CMissing => ZERO.(missing := n)
    case CAttempts => ZERO.(attempts := n)
    case CIgnored => ZERO.(ignored := n)
  }

  datatype Evidence = Evidence(target: string, nonce: string)

  datatype State = State(
    target: string, nonce: string, imported: int, scan: int, enumerated: int,
    seeded: bool, activated: bool, historyLost: bool, historyAcknowledged: bool,
    counters: Counters, work: map<int, Row>, attempt: Option<int>, members: set<int>)

  datatype JournalError =
    | ActivationMismatch | AttemptInProgress | Capacity | InvalidCounter | InvalidReservation
    | InvalidRetry | NoAttempt | NotReady | RecoveryRequired | SourceChanged | SourceMissing

  // A transaction either commits a state, together with the exact amounts it counted, or
  // raises and leaves the stored state untouched.
  datatype Txn = Commit(state: State, bumps: Counters) | Refuse(error: JournalError)

  // Point-in-time snapshots of the inbox, as the source reader returns them.
  datatype Scan = Scan(through: int, records: seq<Record>, ignored: seq<int>)

  datatype Retained = Retained(ack: Option<int>, records: seq<Record>,
                               bindings: Option<map<string, string>>, pointers: Option<map<string, Record>>)

  /* ----- validation ----- */

  predicate Waiting(r: Row) {
    r.disposition == Pending || r.disposition == Reserved
  }

  predicate Settled(r: Row) {
    r.disposition == Delivered || r.disposition == Acknowledged || r.disposition == Obsolete
  }

  predicate WellFormed(source: Source) {
    source.Pointer? ==> Hex(source.binding, 64) && Hex(source.instance, 32) && source.instance != NIL_INSTANCE
  }

  predicate ValidRow(q: int, r: Row) {
    && 1 <= q <= MAX_SEQUENCE
    && 0 <= r.retryAt <= MAX_SEQUENCE
    && WellFormed(r.source)
    && 0 <= r.attempts <= MAX_ATTEMPTS
    && !(r.disposition == Pending && r.attempts == MAX_ATTEMPTS)
    && !(r.disposition in {Reserved, Delivered} && r.attempts == 0)
    && !(r.disposition == Failed && (r.attempts != MAX_ATTEMPTS || r.uncertain))
    && !(r.disposition == Unknown && !r.uncertain)
    && !(r.disposition != Pending && r.retryAt != 0)
  }

  predicate Natural(c: Counters) {
    && c.delivered >= 0 && c.acknowledged >= 0 && c.obsolete >= 0 && c.failed >= 0
    && c.unknown >= 0 && c.missing >= 0 && c.attempts >= 0 && c.ignored >= 0
  }

  predicate Bounded(c: Counters) {
    Natural(c) && c == Saturated(c)
  }

  function ReservedRows(work: map<int, Row>): set<int> {
    set q | q in work && work[q].disposition == Reserved
  }

  // One provider call carries either peer messages only or a single memory pointer.
  predicate OneKind(work: map<int, Row>, members: set<int>) {
    (forall q :: q in members && q in work ==> work[q].source == Peer) || |members| == 1
  }

  predicate ValidMeta(s: State) {
    && Hex(s.target, 64) && Hex(s.nonce, 32)
    && 0 <= s.imported <= s.scan <= s.enumerated <= MAX_SEQUENCE
    && (s.historyAcknowledged ==> s.historyLost)
    && Natural(s.counters)
  }

  predicate ValidAttempt(s: State) {
    && |s.members| <= MAX_MEMBERS
    && (s.attempt.Some? <==> s.members != {})
    && (s.attempt.Some? ==> s.activated && s.seeded && OneKind(s.work, s.members) && 0 <= s.attempt.value <= MAX_SEQUENCE)
    && s.members == ReservedRows(s.work)
  }

  predicate Sound(s: State) {
    && ValidMeta(s)
    && |s.work| <= MAX_WORK
    && (forall q {:trigger ValidRow(q, s.work[q])} :: q in s.work ==> ValidRow(q, s.work[q]))
    && ValidAttempt(s)
  }

  predicate Valid(s: State) {
    Bounded(s.counters) && Sound(s)
  }

  // The body of a transaction: the updates it makes and the amounts it counts, or the error
  // it raises part-way.
  datatype Draft = Ready(state: State, bumps: Counters) | Raise(error: JournalError)

  // Commit with the counted amounts added, unless the result fails validation.
  function Seal(s: State, bumps: Counters): Txn {
    var t := s.(counters := Accrue(s.counters, bumps));
    if Valid(t) then Commit(t, bumps) else Refuse(RecoveryRequired)
  }

  function Complete(d: Draft): Txn {
    match d
    case Raise(e) => Refuse(e)
    case Ready(t, bumps) => Seal(t, bumps)
  }

  /* ----- admission and the frontier ----- */

  datatype Admission = Admitted(work: map<int, Row>) | Rejected(error: JournalError)

  function Admit(work: map<int, Row>, through: int, records: seq<Record>, historical: bool): Admission
    decreases |records|
  {
    if records == [] then Admitted(work)
    else
      var item := records[0];
      if !(1 <= item.sequence <= MAX_SEQUENCE) then Rejected(InvalidCounter)
      else if item.sequence <= through && !historical then Admit(work, through, records[1..], historical)
      else if item.sequence in work then
        if work[item.sequence].source != item.source then Rejected(SourceChanged)
        else Admit(work, through, records[1..], historical)
      else if |work| >= MAX_WORK then Rejected(Capacity)
      else Admit(work[item.sequence := Row(item.source, Pending, 0, 0, false)], through, records[1..], historical)
  }

  function WaitingAbove(work: map<int, Row>, from: int): set<int> {
    set q | q in work && Waiting(work[q]) && q > from
  }

  // How far scanning may be considered finished: never past the enumerated range, and
  // never past a row still waiting for an outcome.
  function Frontier(work: map<int, Row>, from: int, high: int): int {
    var waiting := WaitingAbove(work, from);
    Max(from, if waiting == {} then high else Min(high, Least(waiting) - 1))
  }

  function Crossed(work: map<int, Row>, frontier: int): set<int> {
    set q | q in work && q <= frontier && Settled(work[q])
  }

  function Tally(work: map<int, Row>, rows: set<int>, d: Disposition): nat {
    |set q | q in rows && q in work && work[q].disposition == d|
  }

  function CrossedBumps(work: map<int, Row>, crossed: set<int>): Counters {
    ZERO.(delivered := Tally(work, crossed, Delivered),
          acknowledged := Tally(work, crossed, Acknowledged),
          obsolete := Tally(work, crossed, Obsolete))
  }

  datatype Progress = Progress(state: State, bumps: Counters)

  function Advance(s: State, through: Option<int>): Progress
    requires through.Some? ==> s.scan <= through.value
  {
    var high := match through case None => s.enumerated case Some(t) => Max(s.enumerated, t);
    var frontier := Frontier(s.work, s.scan, high);
    var crossed := Crossed(s.work, frontier);
    Progress(s.(scan := frontier, enumerated := high, work := s.work - crossed), CrossedBumps(s.work, crossed))
  }

  /* ----- transactions ----- */

  predicate Distinct<T(==)>(xs: seq<T>) {
    forall i, j :: 0 <= i < j < |xs| ==> xs[i] != xs[j]
  }

  predicate Clock(now: int) {
    0 <= now <= MAX_SEQUENCE
  }

  predicate RecordsWithin(records: seq<Record>, through: int) {
    |records| <= SCAN_LIMIT && forall r :: r in records ==> r.sequence <= through
  }

  predicate IgnoredWithin(snap: Scan) {
    && |snap.ignored| + |snap.records| <= SCAN_LIMIT
    && (forall q :: q in snap.ignored ==> 1 <= q <= snap.through)
    && Distinct(snap.ignored)
    && (forall r :: r in snap.records ==> r.sequence !in snap.ignored)
  }

  function NewlyIgnored(ignored: seq<int>, enumerated: int): set<int> {
    set q | q in ignored && q > enumerated
  }

  function IngestDraft(s: State, snap: Scan): Draft {
    if !(s.scan <= snap.through <= MAX_SEQUENCE) then Raise(InvalidCounter)
    else if !RecordsWithin(snap.records, snap.through) || !IgnoredWithin(snap) then Raise(SourceChanged)
    else
      match Admit(s.work, s.scan, snap.records, false)
      case Rejected(e) => Raise(e)
      case Admitted(work) =>
        var p := Advance(s.(work := work), Some(snap.through));
        Ready(p.state, p.bumps.(ignored := |NewlyIgnored(snap.ignored, s.enumerated)|))
  }

  function SeedDraft(s: State, records: seq<Record>): Draft {
    if s.seeded then Ready(s, ZERO)
    else if |records| > POINTER_LIMIT || exists r :: r in records && r.source.Peer? then Raise(SourceChanged)
    else
      match Admit(s.work, s.scan, records, true)
      case Rejected(e) => Raise(e)
      case Admitted(work) => Ready(s.(work := work, seeded := true), ZERO)
  }

  predicate Selection(seqs: seq<int>) {
    1 <= |seqs| <= MAX_MEMBERS && (forall q :: q in seqs ==> q > 0) && Distinct(seqs)
  }

  function Elements(seqs: seq<int>): set<int> {
    set q | q in seqs
  }

  predicate Reservable(s: State, q: int, now: int) {
    q in s.work && s.work[q].disposition == Pending && s.work[q].retryAt <= now && s.work[q].attempts < MAX_ATTEMPTS
  }

  function ReserveRow(r: Row): Row {
    r.(disposition := Reserved, attempts := r.attempts + 1, retryAt := 0)
  }

  function ReserveWork(work: map<int, Row>, rows: set<int>): map<int, Row> {
    map q | q in work :: if q in rows then ReserveRow(work[q]) else work[q]
  }

  function ReserveDraft(s: State, seqs: seq<int>, now: int): Draft {
    if !Clock(now) then Raise(InvalidCounter)
    else if !Selection(seqs) then Raise(InvalidReservation)
    else if !s.activated || !s.seeded then Raise(NotReady)
    else if s.attempt.Some? then Raise(AttemptInProgress)
    else if exists q :: q in seqs && !Reservable(s, q, now) then Raise(InvalidReservation)
    else if !OneKind(s.work, Elements(seqs)) then Raise(InvalidReservation)
    else
      Ready(s.(work := ReserveWork(s.work, Elements(seqs)), attempt := Some(now), members := Elements(seqs)), One(CAttempts, |seqs|))
  }

  function Backoff(attempts: int, now: int): int {
    Min(MAX_SEQUENCE, now + (if attempts == 1 then 30 else 60))
  }

  predicate Exhausted(r: Row, outcome: Outcome) {
    outcome != OutcomeDelivered && r.attempts >= MAX_ATTEMPTS
  }

  function ResolveRow(r: Row, outcome: Outcome, now: int): Row
  {
    var uncertain := r.uncertain || outcome == OutcomeUnknown;
    if outcome == OutcomeDelivered then r.(disposition := Delivered, retryAt := 0)
    else if r.attempts >= MAX_ATTEMPTS then
      r.(disposition := if uncertain then Unknown else Failed, retryAt := 0, uncertain := uncertain)
    else r.(disposition := Pending, retryAt := Backoff(r.attempts, now), uncertain := uncertain)
  }

  function ResolveWork(work: map<int, Row>, members: set<int>, outcome: Outcome, now: int): map<int, Row>
  {
    map q | q in work :: if q in members then ResolveRow(work[q], outcome, now) else work[q]
  }

  // The members of the attempt that end exhausted with disposition d.
  function ExhaustedRows(work: map<int, Row>, members: set<int>, outcome: Outcome, d: Disposition): set<int> {
    set q | q in members && q in work && Exhausted(work[q], outcome) && ResolveRow(work[q], outcome, 0).disposition == d
  }

  function Exhaustion(work: map<int, Row>, members: set<int>, outcome: Outcome, d: Disposition): nat {
    |ExhaustedRows(work, members, outcome, d)|
  }

  // The rows judged and the attempt closed, before the frontier moves.
  function Unattempted(s: State, outcome: Outcome, now: int): State {
    s.(work := ResolveWork(s.work, s.members, outcome, now), attempt := None, members := {})
  }

  function ResolveDraft(s: State, outcome: Outcome, now: int): Draft {
    if !Clock(now) then Raise(InvalidCounter)
    else if s.members == {} then Raise(NoAttempt)
    else
      var p := Advance(Unattempted(s, outcome, now), None);
      Ready(p.state, p.bumps.(failed := Exhaustion(s.work, s.members, outcome, Failed),
                              unknown := Exhaustion(s.work, s.members, outcome, Unknown)))
  }

  function RetryRow(r: Row): Row {
    r.(disposition := Pending, attempts := 0, retryAt := 0)
  }

  function RetryWork(work: map<int, Row>, rows: set<int>): map<int, Row> {
    map q | q in work :: if q in rows then RetryRow(work[q]) else work[q]
  }

  predicate Retriable(s: State, q: int) {
    q in s.work && s.work[q].disposition in {Failed, Unknown}
  }

  function RetryDraft(s: State, seqs: seq<int>): Draft {
    if !Selection(seqs) then Raise(InvalidRetry)
    else if exists q :: q in seqs && !Retriable(s, q) then Raise(InvalidRetry)
    else
      Ready(s.(work := RetryWork(s.work, Elements(seqs))), ZERO)
  }

  function Index(records: seq<Record>): map<int, Source> {
    if records == [] then map[] else Index(records[..|records| - 1])[records[|records| - 1].sequence := records[|records| - 1].source]
  }

  // What reconciliation does with one row, given an inbox snapshot.
  datatype Verdict = Keep | Close(disposition: Disposition) | Lost | Wrong(error: JournalError)

  function Replaced(q: int, source: Source, bindings: map<string, string>, pointers: map<string, Record>): bool
    requires source.Pointer?
  {
    || !(source.binding in bindings && bindings[source.binding] == source.instance)
    || (source.binding in pointers && pointers[source.binding].source.Pointer?
        && pointers[source.binding].source.instance == source.instance && pointers[source.binding].sequence > q)
  }

  function Judge(q: int, r: Row, snap: Retained): Verdict {
    if Settled(r) then Keep
    else if snap.ack.Some? && q <= snap.ack.value then Close(Acknowledged)
    else if q in Index(snap.records) then
      if Index(snap.records)[q] == r.source then Keep else Wrong(SourceChanged)
    else if r.source.Pointer? then
      if snap.bindings.None? || snap.pointers.None? then Keep
      else if Replaced(q, r.source, snap.bindings.value, snap.pointers.value) then Close(Obsolete)
      else Wrong(SourceMissing)
    else if snap.ack.None? then Lost
    else Wrong(SourceMissing)
  }

  function Judged(r: Row, v: Verdict): Row {
    match v
    case Keep => r
    case Close(d) => r.(disposition := d, retryAt := 0)
    case Lost => r.(disposition := Unknown, retryAt := 0, uncertain := true)
    case Wrong(_) => r
  }

  function Objections(work: map<int, Row>, snap: Retained): set<int> {
    set q | q in work && Judge(q, work[q], snap).Wrong?
  }

  function LostRows(work: map<int, Row>, snap: Retained): set<int> {
    set q | q in work && Judge(q, work[q], snap).Lost?
  }

  function DroppedRows(work: map<int, Row>, snap: Retained, through: int): set<int> {
    set q | q in LostRows(work, snap) && q <= through
  }

  function NewlyUnknown(work: map<int, Row>, snap: Retained): set<int> {
    set q | q in LostRows(work, snap) && work[q].disposition != Unknown
  }

  function ReconcileWork(work: map<int, Row>, snap: Retained): map<int, Row> {
    map q | q in work :: Judged(work[q], Judge(q, work[q], snap))
  }

  function ReconcileDraft(s: State, snap: Retained): Draft {
    if s.attempt.Some? then Raise(AttemptInProgress)
    else if snap.ack.Some? && !Clock(snap.ack.value) then Raise(InvalidCounter)
    else if Objections(s.work, snap) != {} then
      var q := Least(Objections(s.work, snap));
      Raise(Judge(q, s.work[q], snap).error)
    else
      var p := Advance(s.(work := ReconcileWork(s.work, snap)), None);
      Ready(p.state.(work := p.state.work - DroppedRows(s.work, snap, p.state.scan)), p.bumps.(unknown := |NewlyUnknown(s.work, snap)|))
  }

  function ConfirmDraft(s: State, evidence: Evidence): Draft {
    if evidence != Evidence(s.target, s.nonce) then Raise(ActivationMismatch)
    else Ready(s.(activated := true), ZERO)
  }

  function AcknowledgeHealthDraft(s: State): Draft {
    Ready(s.(counters := ZERO, historyAcknowledged := s.historyAcknowledged || s.historyLost), ZERO)
  }

  function Ingest(s: State, snap: Scan): Txn { Complete(IngestDraft(s, snap)) }

  function Seed(s: State, records: seq<Record>): Txn { Complete(SeedDraft(s, records)) }

  function Reserve(s: State, seqs: seq<int>, now: int): Txn { Complete(ReserveDraft(s, seqs, now)) }

  function Resolve(s: State, outcome: Outcome, now: int): Txn { Complete(ResolveDraft(s, outcome, now)) }

  // Runs once per delivery owner: an attempt left by a crash or a cancelled caller is ambiguous.
  function Recover(s: State, now: int): Txn {
    if s.attempt.None? then Commit(s, ZERO) else Resolve(s, OutcomeUnknown, now)
  }

  function Retry(s: State, seqs: seq<int>): Txn { Complete(RetryDraft(s, seqs)) }

  function Reconcile(s: State, snap: Retained): Txn { Complete(ReconcileDraft(s, snap)) }

  function Confirm(s: State, evidence: Evidence): Txn { Complete(ConfirmDraft(s, evidence)) }

  function AcknowledgeHealth(s: State): Txn { Complete(AcknowledgeHealthDraft(s)) }

  /* ----- choosing the next provider call ----- */

  function ReadySet(work: map<int, Row>, memory: bool): set<int> {
    set q | q in work && work[q].disposition == Pending && (memory || work[q].source == Peer)
  }

  // Rows taken in order while they are peer messages whose backoff has elapsed.
  function TakePeers(work: map<int, Row>, ready: set<int>, now: int, room: nat): (r: seq<int>)
    requires forall q :: q in ready ==> q in work
    ensures |r| <= room && Distinct(r)
    ensures forall q :: q in r ==> q in ready && work[q].source == Peer && work[q].retryAt <= now
    decreases |ready|
  {
    if ready == {} || room == 0 then []
    else
      var q := Least(ready);
      if work[q].source != Peer || work[q].retryAt > now then []
      else [q] + TakePeers(work, ready - {q}, now, room - 1)
  }

  function Due(s: State, now: int, memory: bool): seq<int> {
    var ready := ReadySet(s.work, memory);
    if ready == {} then []
    else
      var first := Least(ready);
      if s.work[first].retryAt > now then []
      else if s.work[first].source.Pointer? then [first]
      else TakePeers(s.work, ready, now, MAX_MEMBERS)
  }

  function Fresh(target: string, nonce: string, through: int, historyLost: bool): State {
    State(target, nonce, through, through, through, false, false, historyLost, false, ZERO, map[], None, {})
  }
}
