/** What each request does to the inbox, table by table: when it is refused, what it changes, and
    that it changes nothing else. */
module InboxEffects {
  import opened Common
  import opened JournalModel
  import opened Inbox

  // Tables a request may leave alone.
  predicate SameRows(i: Contents, t: Contents) {
    t.head == i.head && t.rows == i.rows && t.ack == i.ack
  }

  // A message is stored as what it is, under the next sequence, unless a thousand messages wait or
  // no sequence is left; pointers do not count.
  lemma StoreEffect(i: Contents, user: bool)
    ensures var r := Store(i, user); var messages := set q | q in i.rows && !i.rows[q].source.Pointer?;
      && (r == Denied(InboxFull) <==> |messages| >= 1000)
      && (r == Denied(SequenceExhausted) <==> |messages| < 1000 && i.head >= MAX_SEQUENCE)
      && (r.Done? ==>
            && r.inbox.head == i.head + 1 && r.inbox.head in r.inbox.rows
            && r.inbox.rows[r.inbox.head].user == user && !r.inbox.rows[r.inbox.head].source.Pointer?
            && (forall q :: q in r.inbox.rows && q != r.inbox.head ==> q in i.rows && r.inbox.rows[q] == i.rows[q])
            && (forall q :: q in i.rows ==> q in r.inbox.rows)
            && r.inbox.ack == i.ack && r.inbox.bindings == i.bindings && r.inbox.activation == i.activation)
      && (r.Denied? ==> r.error in {InboxFull, SequenceExhausted})
  {
    assert Peers(i.rows) == set q | q in i.rows && !i.rows[q].source.Pointer?;
  }

  // The watermark rises to the position asked for, no farther than the head and never back; the
  // rows up to that position go, and no others.
  lemma AcknowledgeEffect(i: Contents, through: int)
    ensures var r := Acknowledge(i, through);
      && (r.Denied? <==> through < 0) && (r.Denied? ==> r.error == InvalidThrough)
      && (r.Done? ==>
            var t := r.inbox;
            && t.ack == (if through <= i.ack || i.head <= i.ack then i.ack else if through <= i.head then through else i.head)
            && (forall q :: q in t.rows <==> q in i.rows && (q > through || q > i.head))
            && (forall q :: q in t.rows ==> t.rows[q] == i.rows[q])
            && t.head == i.head && t.bindings == i.bindings && t.activation == i.activation)
  {}

  // A key is bound once, sixteen at most; a new binding has observed nothing yet.
  lemma BindEffect(i: Contents, key: string, repository: string, instance: string)
    ensures var r := Bind(i, key, repository, instance);
      && (r.Denied? <==> key !in i.bindings && |i.bindings| >= 16) && (r.Denied? ==> r.error == BindingCapacity)
      && (key in i.bindings ==> r == Done(i))
      && (r.Done? && key !in i.bindings ==>
            var t := r.inbox;
            && t.bindings.Keys == i.bindings.Keys + {key}
            && t.bindings[key].repository == repository && t.bindings[key].instance == instance
            && t.bindings[key].observed.None? && !t.bindings[key].replaced && !t.bindings[key].regressed
            && (forall k :: k in i.bindings ==> t.bindings[k] == i.bindings[k])
            && SameRows(i, t) && t.activation == i.activation)
  {}

  // Unbinding takes the binding and its pointers, and leaves messages, watermark and every other
  // binding alone. A key that is not bound loses nothing.
  lemma UnbindEffect(i: Contents, key: string)
    ensures var r := Unbind(i, key);
      && (r.Denied? <==> !Hex(key, 64)) && (r.Denied? ==> r.error == InvalidBinding)
      && (r.Done? ==>
            var t := r.inbox;
            && (forall q :: q in t.rows <==> q in i.rows && !(i.rows[q].source.Pointer? && i.rows[q].source.binding == key))
            && (forall q :: q in t.rows ==> t.rows[q] == i.rows[q])
            && t.bindings.Keys == i.bindings.Keys - {key} && (forall k :: k in t.bindings ==> t.bindings[k] == i.bindings[k])
            && t.head == i.head && t.ack == i.ack && t.activation == i.activation)
  {}

  // Why a refresh is refused: in this order, and for nothing else.
  lemma RefreshRefused(i: Contents, key: string, seen: Binding, observed: Observation)
    ensures var r := Refresh(i, key, seen, observed);
      && (!Hex(key, 64) <==> r == Denied(InvalidBinding))
      && (Hex(key, 64) && key !in i.bindings <==> r == Denied(BindingNotFound))
      && (Hex(key, 64) && key in i.bindings ==>
            var current := i.bindings[key];
            && (r == Denied(BindingChanged) <==> current.repository != seen.repository)
            && (r == Denied(InstanceChanged) <==> current.repository == seen.repository && current.instance != seen.instance)
            && (r == Denied(ObservationChanged) <==>
                  current.repository == seen.repository && current.instance == seen.instance
                  && !(current.observed == seen.observed && current.replaced == seen.replaced && current.regressed == seen.regressed))
            && (r == Denied(SequenceExhausted) <==> current == seen && current.observed != Some(observed) && i.head >= MAX_SEQUENCE)
            && (r.Done? <==> current == seen && (current.observed == Some(observed) || i.head < MAX_SEQUENCE)))
  {}

  // An accepted refresh records what was observed. Anything new, a first observation included,
  // leaves exactly one pointer of the binding: at the new head, for its current instance.
  lemma RefreshEffect(i: Contents, key: string, seen: Binding, observed: Observation)
    requires Refresh(i, key, seen, observed).Done?
    ensures var t := Refresh(i, key, seen, observed).inbox;
      && key in i.bindings && key in t.bindings
      && t.bindings[key].observed == Some(observed)
      && (i.bindings[key].observed == Some(observed) ==> t == i)
      && (i.bindings[key].observed != Some(observed) ==>
            && t.head == i.head + 1 && t.head in t.rows
            && t.rows[t.head].source == Pointer(key, i.bindings[key].instance) && !t.rows[t.head].user
            && (forall q :: q in t.rows && t.rows[q].source.Pointer? && t.rows[q].source.binding == key ==> q == t.head))
      && (forall q :: q in i.rows && q <= i.head && !(i.rows[q].source.Pointer? && i.rows[q].source.binding == key) ==>
            q in t.rows && t.rows[q] == i.rows[q])
      && (forall q :: q in t.rows && q <= i.head ==> q in i.rows && t.rows[q] == i.rows[q])
      && t.bindings.Keys == i.bindings.Keys && (forall k :: k in i.bindings && k != key ==> t.bindings[k] == i.bindings[k])
      && t.ack == i.ack && t.activation == i.activation
  {
    hide Hex;
  }

  // The anomaly flags: replaced is raised exactly by another store, regressed exactly by the same
  // store with a lower head, and neither is ever lowered by a refresh. All else of the binding stays.
  lemma RefreshFlags(i: Contents, key: string, seen: Binding, observed: Observation)
    requires Refresh(i, key, seen, observed).Done?
    ensures var b, c := i.bindings[key], Refresh(i, key, seen, observed).inbox.bindings[key];
      && c.repository == b.repository && c.instance == b.instance
      && (c.replaced <==> b.replaced || (b.observed.Some? && b.observed.value.store != observed.store))
      && (c.regressed <==>
            || b.regressed
            || (b.observed.Some? && b.observed.value.store == observed.store && observed.head < b.observed.value.head))
  {
    hide Hex;
  }

  lemma ClearEffect(i: Contents, key: string)
    ensures var r := ClearAnomalies(i, key);
      && (r == Denied(InvalidBinding) <==> !Hex(key, 64))
      && (r == Denied(BindingNotFound) <==> Hex(key, 64) && key !in i.bindings)
      && (r.Done? <==> Hex(key, 64) && key in i.bindings)
      && (r.Done? ==>
            var t := r.inbox; var b, c := i.bindings[key], t.bindings[key];
            && !c.replaced && !c.regressed
            && c.repository == b.repository && c.instance == b.instance && c.observed == b.observed
            && t.bindings.Keys == i.bindings.Keys && (forall k :: k in i.bindings && k != key ==> t.bindings[k] == i.bindings[k])
            && SameRows(i, t) && t.activation == i.activation)
  {}

  // Activation: the first evidence is taken, the same again is fine, and another nonce for the same
  // target only by a confirmed rebuild that names the nonce it replaces.
  lemma ActivateEffect(i: Contents, r: Request)
    ensures var a := Activate(i, r); var e, held := r.evidence, i.activation;
      && (a.Done? ==> a.inbox == i.(activation := Some(e)))
      && (a == Denied(InvalidDigest) <==> !Hex(e.target, 64) || !Hex(e.nonce, 32))
      && (a.Done? <==>
            && Hex(e.target, 64) && Hex(e.nonce, 32)
            && (r.Rebuild? ==> r.accepted && Hex(r.previous, 32))
            && (held.None? ==> r.Plain?)
            && (held.Some? ==>
                  held.value.target == e.target
                  && (held.value.nonce == e.nonce || (r.Rebuild? && held.value.nonce == r.previous))))
  {
    hide Hex;
  }
}
