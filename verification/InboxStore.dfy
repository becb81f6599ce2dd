/** The inbox as the bridge keeps it: one object whose tables each request changes in place, or
    leaves untouched when it raises. Every request is proved to do what `Inbox` says. */
module InboxStore {
  import opened Common
  import opened JournalModel
  import I = Inbox

  // A request either did what its function says or left everything as it was.
  predicate Answers(before: I.Contents, reply: I.Reply, error: Option<I.InboxError>, after: I.Contents) {
    match reply
    case Done(t) => error.None? && after == t
    case Denied(e) => error == Some(e) && after == before
  }

  class Store {
    var head: int
    var rows: map<int, I.Entry>
    var ack: int
    var activation: Option<Evidence>
    var bindings: map<string, I.Binding>

    function Contents(): I.Contents
      reads this
    {
      I.Contents(head, rows, ack, activation, bindings)
    }

    constructor ()
      ensures Contents() == I.EMPTY
    {
      head, rows, ack, activation, bindings := 0, map[], 0, None, map[];
    }

    // AUTOINCREMENT: the next sequence follows the highest ever allocated, and inserting fails
    // once none is left.
    method Insert(e: I.Entry) returns (error: Option<I.InboxError>)
      modifies this`head, this`rows
      ensures Answers(old(Contents()), I.Append(old(Contents()), e), error, Contents())
    {
      if head >= MAX_SEQUENCE {
        return Some(I.SequenceExhausted);
      }
      head := head + 1;
      rows := rows[head := e];
      error := None;
    }

    method StoreMessage(user: bool) returns (error: Option<I.InboxError>)
      modifies this`head, this`rows
      ensures Answers(old(Contents()), I.Store(old(Contents()), user), error, Contents())
    {
      if |I.Peers(rows)| >= I.MAX_MESSAGES {
        return Some(I.InboxFull);
      }
      error := Insert(I.Entry(Peer, user));
    }

    method Acknowledge(through: int) returns (error: Option<I.InboxError>)
      modifies this`rows, this`ack
      ensures Answers(old(Contents()), I.Acknowledge(old(Contents()), through), error, Contents())
    {
      if through < 0 {
        return Some(I.InvalidThrough);
      }
      var limit := Min(through, head);
      rows := map q | q in rows && q > limit :: rows[q];
      ack := Max(limit, ack);
      error := None;
    }

    method Bind(key: string, repository: string, instance: string) returns (error: Option<I.InboxError>)
      modifies this`bindings
      ensures Answers(old(Contents()), I.Bind(old(Contents()), key, repository, instance), error, Contents())
    {
      if key !in bindings {
        if |bindings| >= I.MAX_BINDINGS {
          return Some(I.BindingCapacity);
        }
        bindings := bindings[key := I.Binding(repository, instance, None, false, false)];
      }
      error := None;
    }

    method Unbind(key: string) returns (error: Option<I.InboxError>)
      modifies this`rows, this`bindings
      ensures Answers(old(Contents()), I.Unbind(old(Contents()), key), error, Contents())
    {
      if !Hex(key, 64) {
        return Some(I.InvalidBinding);
      }
      rows := rows - I.PointersOf(rows, key);
      bindings := bindings - {key};
      error := None;
    }

    method Refresh(key: string, seen: I.Binding, observed: I.Observation) returns (error: Option<I.InboxError>)
      modifies this`head, this`rows, this`bindings
      ensures Answers(old(Contents()), I.Refresh(old(Contents()), key, seen, observed), error, Contents())
    {
      if !Hex(key, 64) {
        return Some(I.InvalidBinding);
      }
      if key !in bindings {
        return Some(I.BindingNotFound);
      }
      var current := bindings[key];
      if current.repository != seen.repository {
        return Some(I.BindingChanged);
      }
      // The binding is not the one the caller looked at.
      if current.instance != seen.instance {
        return Some(I.InstanceChanged);
      }
      if current.observed != seen.observed || current.replaced != seen.replaced || current.regressed != seen.regressed {
        return Some(I.ObservationChanged);
      }
      if current.observed == Some(observed) {
        return None;
      }
      var replaced, regressed := current.replaced, current.regressed;
      if current.observed.Some? {
        if current.observed.value.store != observed.store {
          replaced := true;
        } else if observed.head < current.observed.value.head {
          regressed := true;
        }
      }
      var before := rows;
      rows := rows - I.PointersOf(rows, key);
      error := Insert(I.Entry(Pointer(key, current.instance), false));
      if error.Some? {
        rows := before;
        return;
      }
      bindings := bindings[key := I.Binding(current.repository, current.instance, Some(observed), replaced, regressed)];
    }

    method ClearAnomalies(key: string) returns (error: Option<I.InboxError>, cleared: (bool, bool))
      modifies this`bindings
      ensures Answers(old(Contents()), I.ClearAnomalies(old(Contents()), key), error, Contents())
      ensures error.None? ==> key in old(bindings) && cleared == (old(bindings)[key].replaced, old(bindings)[key].regressed)
    {
      cleared := (false, false);
      if !Hex(key, 64) {
        return Some(I.InvalidBinding), cleared;
      }
      if key !in bindings {
        return Some(I.BindingNotFound), cleared;
      }
      cleared := (bindings[key].replaced, bindings[key].regressed);
      bindings := bindings[key := bindings[key].(replaced := false, regressed := false)];
      error := None;
    }

    method Activate(r: I.Request) returns (error: Option<I.InboxError>)
      modifies this`activation
      ensures Answers(old(Contents()), I.Activate(old(Contents()), r), error, Contents())
    {
      if !Hex(r.evidence.target, 64) || !Hex(r.evidence.nonce, 32) {
        return Some(I.InvalidDigest);
      }
      if r.Rebuild? && (!r.accepted || !Hex(r.previous, 32)) {
        return Some(I.RebuildUnconfirmed);
      }
      if activation.Some? && activation.value.target != r.evidence.target {
        return Some(I.TargetFixed);
      }
      if activation != Some(r.evidence) {
        if r.Rebuild? {
          if activation.None? || activation.value.nonce != r.previous {
            return Some(I.ActivationChanged);
          }
        } else if activation.Some? {
          return Some(I.NonceFixed);
        }
        activation := Some(r.evidence);
      }
      error := None;
    }
  }
}
