/** The migration as its owner performs it: durable writes in order on one disk, stopping where
    a check fails. A constructor that goes through, or refuses, does what `Migration` says; one that
    refuses leaves a stored journal, the checkpoint and the nonce alone. */
module MigrationStore {
  import opened Common
  import opened JournalModel
  import I = Inbox
  import opened Migration
  import opened MigrationProofs

  class Owner {
    const target: string
    var marker: Option<Marker>
    var file: File
    var cursor: Option<Cursor>

    function OnDisk(): Disk
      reads this
    {
      Disk(marker, file, cursor)
    }

    constructor (target: string, d: Disk)
      ensures this.target == target && OnDisk() == d
    {
      this.target := target;
      marker, file, cursor := d.marker, d.file, d.cursor;
    }

    // Publish the marker first, then storage, then its readiness, and require the journal last.
    method Construct(after: int, nonce: string, capable: bool, seen: Option<Evidence>)
      returns (refusal: Option<Refusal>, request: Option<I.Request>)
      modifies this
      ensures match Migration.Construct(old(OnDisk()), target, after, nonce, capable, seen)
        case Launched(d, p) => refusal.None? && OnDisk() == d && p.Serving? && p.request == request
        case Refused(d, e) => refusal == Some(e) && OnDisk() == d
      ensures old(file).Stored? ==> file == old(file)
      ensures refusal.Some? ==> cursor == old(cursor) && (old(marker).None? && marker.Some? ==> marker.value.nonce == nonce)
      ensures old(marker).Some? ==> marker.Some? && marker.value.(phase := old(marker).value.phase) == old(marker).value
    {
      hide MarkerRefusal, Valid, ActivationGate, FinishBoot;
      request := None;
      if !capable && seen.Some? {
        return Some(InvalidCapability), None;
      }
      var saved := cursor;
      if marker.None? {
        if file != Missing || seen.Some? || (saved.Some? && saved.value.required) {
          return Some(Recovery), None;
        }
        if !capable {
          return Some(UpgradeRequired), None;
        }
        marker := Some(NewMarker(target, nonce, if saved.Some? then saved.value.through else after));
      }
      refusal, request := Proceed(capable, seen);
    }

    method Proceed(capable: bool, seen: Option<Evidence>) returns (refusal: Option<Refusal>, request: Option<I.Request>)
      requires marker.Some?
      modifies this
      ensures match Continued(Resume(old(OnDisk()), target, capable, seen))
        case Launched(d, p) => refusal.None? && OnDisk() == d && p.Serving? && p.request == request
        case Refused(d, e) => refusal == Some(e) && OnDisk() == d
      ensures old(file).Stored? ==> file == old(file)
      ensures refusal.Some? ==> cursor == old(cursor)
      ensures marker.Some? && marker.value.(phase := old(marker).value.phase) == old(marker).value
    {
      hide MarkerRefusal, Valid, FinishBoot, Pristine, Matches;
      ghost var d := OnDisk();
      request := None;
      var m := marker.value;
      var saved := cursor;
      refusal := MarkerRefusal(m, target);
      if refusal.Some? {
        return;
      }
      if m.phase != Installed {
        if !capable {
          return Some(UpgradeRequired), None;
        }
        BootstrapPath(d, m, seen);
        refusal := Store(m);
        if refusal.Some? {
          return;
        }
        m := m.(phase := Installed);
        marker := Some(m);
      } else {
        if file == Missing {
          return Some(Recovery), None;
        }
        StoredPath(d, m, capable, seen);
        refusal := Open(m);
        if refusal.Some? {
          return;
        }
      }
      refusal, request := Require(m, capable, seen, saved);
    }

    // Create the file and its schema, or adopt what an interrupted bootstrap left.
    method Store(m: Marker) returns (refusal: Option<Refusal>)
      modifies this`file
      ensures refusal == Unadoptable(old(file), m)
      ensures if refusal.None? then file == Adopted(old(file), m) else file == old(file)
      ensures old(file).Stored? ==> file == old(file)
    {
      hide Valid, Pristine, Matches;
      if file.Missing? {
        file := Empty;
      }
      if file.Stored? {
        if !Valid(file.state) {
          return Some(Recovery);
        }
        if !Matches(file.state, m) {
          return Some(IdentityMismatch);
        }
        if !Pristine(file.state) {
          return Some(Recovery);
        }
      } else {
        file := Stored(Fresh(m.target, m.nonce, m.through, m.historyLost));
      }
      refusal := None;
    }

    method Open(m: Marker) returns (refusal: Option<Refusal>)
      ensures refusal == Unopenable(file, m)
    {
      hide Valid, Matches;
      match file
      case Stored(s) =>
        if !Valid(s) {
          return Some(Recovery);
        }
        if !Matches(s, m) {
          return Some(IdentityMismatch);
        }
        refusal := None;
      case _ => refusal := Some(Recovery);
    }

    method Require(m: Marker, capable: bool, seen: Option<Evidence>, saved: Option<Cursor>)
      returns (refusal: Option<Refusal>, request: Option<I.Request>)
      requires file.Stored?
      modifies this`cursor
      ensures match FinishBoot(old(OnDisk()), Booting(capable, seen, saved, m, Gate), file.state)
        case Launched(d, p) => refusal.None? && OnDisk() == d && p.Serving? && p.request == request
        case Refused(d, e) => refusal == Some(e) && OnDisk() == d
      ensures refusal.Some? ==> cursor == old(cursor)
    {
      request := None;
      var gate := ActivationGate(file.state, m, capable, seen);
      match gate
      case Shut(e) => refusal := Some(e);
      case Pass(wanted) =>
        var position := if saved.Some? then saved.value else Cursor(m.through, false);
        if !m.historyLost && position.through != m.through {
          return Some(IdentityMismatch), None;
        }
        if !position.required {
          cursor := Some(position.(required := true));
        }
        refusal, request := None, wanted;
    }
  }

  function Continued(l: Launch): Launch {
    match l
    case Refused(d, e) => Refused(d, e)
    case Launched(d, p) => Finish(d, p, 4)
  }
}
