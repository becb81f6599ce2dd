/** The worker's jobs as functions: what each reads of the inbox, and what it leaves in the journal,
    one transaction after another. */
module NotificationModel {
  import opened Common
  import opened JournalModel
  import I = Inbox
  import opened InboxSource
  import opened Notifier

  datatype Failure = SourceFailed(source: SourceError) | JournalFailed(journal: JournalError)

  // What a job leaves behind: the journal's state, why it stopped early, and the chosen rows.
  datatype Report = Report(state: State, failure: Option<Failure>, rows: seq<int>)

  function ReportOf(s: State, txn: Txn): Report {
    match txn
    case Commit(t, _) => Report(t, None, [])
    case Refuse(e) => Report(s, Some(JournalFailed(e)), [])
  }

  function ReconcileFrom(s: State, i: I.Contents, caps: Capabilities): Report {
    match RetainedOf(i, caps, Keys(s.work))
    case Err(e) => Report(s, Some(SourceFailed(e)), [])
    case Ok(snap) => ReportOf(s, Reconcile(s, snap))
  }

  function SeedFrom(s: State, i: I.Contents, caps: Capabilities): Report {
    if s.seeded then Report(s, None, [])
    else if !caps.pointers then ReportOf(s, Seed(s, []))
    else
      match SeedRecords(i, caps)
      case Err(e) => Report(s, Some(SourceFailed(e)), [])
      case Ok(pointers) => ReportOf(s, Seed(s, pointers))
  }

  function ReadyFrom(s: State, i: I.Contents, now: int, caps: Capabilities): Report {
    var recovered := ReportOf(s, Recover(s, now));
    if recovered.failure.Some? then recovered else SeedFrom(recovered.state, i, caps)
  }

  function DueFrom(s: State, now: int, caps: Capabilities): Report {
    if Clock(now) then Report(s, None, Due(s, now, caps.pointers)) else Report(s, Some(JournalFailed(InvalidCounter)), [])
  }

  // Scanning and admitting; a full journal is reported later, not failed.
  function AdmitFrom(s: State, i: I.Contents, caps: Capabilities): Report {
    match ScanAfter(i, caps, s.enumerated)
    case Err(e) => Report(s, Some(SourceFailed(e)), [])
    case Ok(scan) =>
      var r := ReportOf(s, Ingest(s, scan));
      if r.failure == Some(JournalFailed(Capacity)) then Report(s, None, []) else r
  }

  // The inbox may change between the two reads.
  function PrepareFrom(s: State, first: I.Contents, second: I.Contents, now: int, caps: Capabilities): Report {
    var reconciled := ReconcileFrom(s, first, caps);
    if reconciled.failure.Some? then reconciled
    else
      var admitted := AdmitFrom(reconciled.state, second, caps);
      if admitted.failure.Some? then admitted else DueFrom(admitted.state, now, caps)
  }

  function ReserveFrom(s: State, i: I.Contents, now: int, caps: Capabilities): Report {
    var reconciled := ReconcileFrom(s, i, caps);
    if reconciled.failure.Some? then reconciled
    else
      var due := DueFrom(reconciled.state, now, caps);
      if due.failure.Some? || due.rows == [] then due
      else ReportOf(due.state, Reserve(due.state, due.rows, now)).(rows := due.rows)
  }

  function RetryFrom(s: State, i: I.Contents, seqs: seq<int>, caps: Capabilities): Report {
    var reconciled := ReconcileFrom(s, i, caps);
    if reconciled.failure.Some? then reconciled else ReportOf(reconciled.state, Retry(reconciled.state, seqs))
  }

  // Activation is read back from the inbox before the journal records it.
  function ConfirmFrom(s: State, i: I.Contents, evidence: Evidence, caps: Capabilities): Report {
    match Snapshot(i, caps)
    case Err(e) => Report(s, Some(SourceFailed(e)), [])
    case Ok(view) =>
      if view.activation != Some(evidence) then Report(s, Some(JournalFailed(ActivationMismatch)), [])
      else ReportOf(s, Confirm(s, evidence))
  }
}
