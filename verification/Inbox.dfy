/** The bridge's inbox: received messages, the acknowledgement watermark, the repository
    bindings with their memory pointers, and the journal activation evidence. The operations
    are functions here; `InboxStore` performs them on its tables in place. */
module Inbox {
  import opened Common
  import opened JournalModel

  const MAX_MESSAGES: nat := 1000
  const MAX_BINDINGS: nat := 16

  // A frame is an ordinary message (`user`), a control frame kept as inert data, or a pointer.
  datatype Entry = Entry(source: Source, user: bool)

  datatype Observation = Observation(store: string, head: int)

  datatype Binding = Binding(repository: string, instance: string, observed: Option<Observation>,
                             replaced: bool, regressed: bool)

  datatype Contents = Contents(head: int, rows: map<int, Entry>, ack: int, activation: Option<Evidence>,
                               bindings: map<string, Binding>)

  const EMPTY := Contents(0, map[], 0, None, map[])

  datatype InboxError =
    | ActivationChanged | BindingCapacity | BindingChanged | BindingNotFound | InboxFull | InstanceChanged
    | InvalidBinding | InvalidDigest | InvalidThrough | NonceFixed | ObservationChanged | RebuildUnconfirmed
    | SequenceExhausted | TargetFixed

  datatype Reply = Done(inbox: Contents) | Denied(error: InboxError)

  /* ----- what the tables always satisfy ----- */

  predicate Points(e: Entry, key: string) {
    e.source.Pointer? && e.source.binding == key
  }

  predicate RowFits(i: Contents, q: int, e: Entry) {
    && i.ack < q <= i.head && WellFormed(e.source)
    && (e.source.Pointer? ==> e.source.binding in i.bindings && i.bindings[e.source.binding].instance == e.source.instance)
  }

  predicate BindingFits(key: string, b: Binding) {
    && Hex(key, 64) && Hex(b.instance, 32) && b.instance != NIL_INSTANCE
    && (b.observed.Some? ==> Hex(b.observed.value.store, 32) && 0 <= b.observed.value.head <= MAX_SEQUENCE)
  }

  predicate OnePointer(i: Contents, p: int, q: int) {
    p in i.rows && q in i.rows && i.rows[p].source.Pointer? && Points(i.rows[q], i.rows[p].source.binding) ==> p == q
  }

  ghost predicate Coherent(i: Contents) {
    && 0 <= i.ack <= i.head <= MAX_SEQUENCE
    && (forall q {:trigger RowFits(i, q, i.rows[q])} :: q in i.rows ==> RowFits(i, q, i.rows[q]))
    && (forall p, q {:trigger OnePointer(i, p, q)} :: OnePointer(i, p, q))
    && |i.bindings| <= MAX_BINDINGS
    && (forall k {:trigger BindingFits(k, i.bindings[k])} :: k in i.bindings ==> BindingFits(k, i.bindings[k]))
    && (i.activation.Some? ==> Hex(i.activation.value.target, 64) && Hex(i.activation.value.nonce, 32))
  }

  /* ----- operations ----- */

  function Peers(rows: map<int, Entry>): set<int> {
    set q | q in rows && rows[q].source == Peer
  }

  function PointersOf(rows: map<int, Entry>, key: string): set<int> {
    set q | q in rows && Points(rows[q], key)
  }

  // Sequences are allocated once and never reused, even after the row is gone.
  function Append(i: Contents, e: Entry): Reply {
    if i.head >= MAX_SEQUENCE then Denied(SequenceExhausted)
    else Done(i.(head := i.head + 1, rows := i.rows[i.head + 1 := e]))
  }

  function Store(i: Contents, user: bool): Reply {
    if |Peers(i.rows)| >= MAX_MESSAGES then Denied(InboxFull) else Append(i, Entry(Peer, user))
  }

  function Acknowledge(i: Contents, through: int): Reply {
    if through < 0 then Denied(InvalidThrough)
    else
      var limit := Min(through, i.head);
      Done(i.(rows := map q | q in i.rows && q > limit :: i.rows[q], ack := Max(limit, i.ack)))
  }

  function Bind(i: Contents, key: string, repository: string, instance: string): Reply {
    if key in i.bindings then Done(i)
    else if |i.bindings| >= MAX_BINDINGS then Denied(BindingCapacity)
    else Done(i.(bindings := i.bindings[key := Binding(repository, instance, None, false, false)]))
  }

  // The pointer rows go with their binding; the watermark stays where it is.
  function Unbind(i: Contents, key: string): Reply {
    if !Hex(key, 64) then Denied(InvalidBinding)
    else Done(i.(rows := i.rows - PointersOf(i.rows, key), bindings := i.bindings - {key}))
  }

  // What `Refresh` is asked to apply: a binding as its caller last read it, and what the
  // memory service reported since.
  function Refresh(i: Contents, key: string, seen: Binding, observed: Observation): Reply {
    if !Hex(key, 64) then Denied(InvalidBinding)
    else if key !in i.bindings then Denied(BindingNotFound)
    else
      var current := i.bindings[key];
      if current.repository != seen.repository then Denied(BindingChanged)
      else if current.instance != seen.instance then Denied(InstanceChanged)
      else if current != seen then Denied(ObservationChanged)
      else if current.observed == Some(observed) then Done(i)
      else
        var replaced := current.observed.Some? && current.observed.value.store != observed.store;
        var regressed := current.observed.Some? && current.observed.value.store == observed.store
                         && observed.head < current.observed.value.head;
        match Append(i.(rows := i.rows - PointersOf(i.rows, key)), Entry(Pointer(key, current.instance), false))
        case Denied(e) => Denied(e)
        case Done(t) =>
          Done(t.(bindings := t.bindings[key := current.(observed := Some(observed), replaced := current.replaced || replaced,
                                                         regressed := current.regressed || regressed)]))
  }

  function ClearAnomalies(i: Contents, key: string): Reply {
    if !Hex(key, 64) then Denied(InvalidBinding)
    else if key !in i.bindings then Denied(BindingNotFound)
    else Done(i.(bindings := i.bindings[key := i.bindings[key].(replaced := false, regressed := false)]))
  }

  // A plain request, or an explicit rebuild that names the nonce it replaces.
  datatype Request = Plain(evidence: Evidence) | Rebuild(evidence: Evidence, previous: string, accepted: bool)

  function Activate(i: Contents, r: Request): Reply {
    if !Hex(r.evidence.target, 64) || !Hex(r.evidence.nonce, 32) then Denied(InvalidDigest)
    else if r.Rebuild? && (!r.accepted || !Hex(r.previous, 32)) then Denied(RebuildUnconfirmed)
    else if i.activation.Some? && i.activation.value.target != r.evidence.target then Denied(TargetFixed)
    else if i.activation == Some(r.evidence) then Done(i)
    else if r.Rebuild? && (i.activation.None? || i.activation.value.nonce != r.previous) then Denied(ActivationChanged)
    else if r.Plain? && i.activation.Some? then Denied(NonceFixed)
    else Done(i.(activation := Some(r.evidence)))
  }

  datatype Act =
    | Storing(user: bool)
    | Acknowledging(through: int)
    | Attaching(key: string, repository: string, instance: string)
    | Unbinding(key: string)
    | Refreshing(key: string, seen: Binding, observed: Observation)
    | Clearing(key: string)
    | Activating(request: Request)

  function Perform(i: Contents, a: Act): Reply {
    match a
    case Storing(user) => Store(i, user)
    case Acknowledging(through) => Acknowledge(i, through)
    case Attaching(key, repository, instance) => Bind(i, key, repository, instance)
    case Unbinding(key) => Unbind(i, key)
    case Refreshing(key, seen, observed) => Refresh(i, key, seen, observed)
    case Clearing(key) => ClearAnomalies(i, key)
    case Activating(request) => Activate(i, request)
  }

  // What the callers of the tables guarantee: keys are digests, instances are freshly minted
  // identifiers, and an observation was checked when it was read from the memory service.
  predicate WellFormedAct(a: Act) {
    match a
    case Attaching(key, _, instance) => Hex(key, 64) && Hex(instance, 32) && instance != NIL_INSTANCE
    case Refreshing(_, _, observed) => Hex(observed.store, 32) && 0 <= observed.head <= MAX_SEQUENCE
    case _ => true
  }
}
