/** The inbox over every sequence of requests: its tables stay coherent, sequences are allocated
    once, and a row leaves only because the watermark covers it or its pointer was superseded. */
module InboxHistory {
  import opened Common
  import opened JournalModel
  import opened Inbox

  // The inbox together with everything it ever stored and every binding instance ever minted.
  datatype Chronicle = Chronicle(inbox: Contents, log: map<int, Entry>, minted: set<string>)

  const DAWN := Chronicle(EMPTY, map[], {})

  // Instances are universally unique: a fresh one was never minted before.
  predicate Allowed(c: Chronicle, a: Act) {
    WellFormedAct(a) && (a.Attaching? ==> a.instance !in c.minted)
  }

  function Grown(log: map<int, Entry>, i: Contents, t: Contents): map<int, Entry> {
    if t.head > i.head && t.head in t.rows then log[t.head := t.rows[t.head]] else log
  }

  // What joins the log: a stored message, as the kind it is, or the pointer of a refreshed binding,
  // under the sequence it was given; no other request adds to it, and nothing in it is ever changed.
  lemma LogGains(c: Chronicle, a: Act, q: int)
    requires forall x :: x in c.log || x in c.inbox.rows ==> x <= c.inbox.head
    ensures var d := Follow(c, a);
      && (q in c.log && q <= c.inbox.head ==> q in d.log && d.log[q] == c.log[q])
      && (q in d.log && q !in c.log ==>
            && q == c.inbox.head + 1 == d.inbox.head
            && (|| (a.Storing? && d.log[q] == Entry(Peer, a.user))
                || (a.Refreshing? && a.key in c.inbox.bindings && d.log[q] == Entry(Pointer(a.key, c.inbox.bindings[a.key].instance), false))))
      && (a.Storing? && Perform(c.inbox, a).Done? && Allowed(c, a) ==> c.inbox.head + 1 in d.log)
  {
    hide Hex;
  }

  function Follow(c: Chronicle, a: Act): Chronicle {
    if !Allowed(c, a) then c
    else
      match Perform(c.inbox, a)
      case Denied(_) => c
      case Done(t) =>
        Chronicle(t, Grown(c.log, c.inbox, t), if a.Attaching? then c.minted + {a.instance} else c.minted)
  }

  function FollowAll(c: Chronicle, acts: seq<Act>): Chronicle
    decreases |acts|
  {
    if acts == [] then c else FollowAll(Follow(c, acts[0]), acts[1..])
  }

  // Why a pointer may be gone without being acknowledged: its binding lifetime ended, or a
  // newer pointer of the same lifetime replaced it.
  predicate Superseded(i: Contents, q: int, source: Source)
    requires source.Pointer?
  {
    || !(source.binding in i.bindings && i.bindings[source.binding].instance == source.instance)
    || exists p :: p in PointersOf(i.rows, source.binding) && p > q
  }

  predicate Gone(i: Contents, q: int, e: Entry) {
    q <= i.ack || (e.source.Pointer? && Superseded(i, q, e.source))
  }

  predicate LogFits(c: Chronicle, q: int) {
    && (q in c.log <==> 1 <= q <= c.inbox.head)
    && (q in c.inbox.rows ==> q in c.log && c.log[q] == c.inbox.rows[q])
    && (q in c.log ==>
          && WellFormed(c.log[q].source)
          && (c.log[q].source.Pointer? ==> !c.log[q].user && c.log[q].source.instance in c.minted)
          && (q !in c.inbox.rows ==> Gone(c.inbox, q, c.log[q])))
  }

  predicate InstanceFits(c: Chronicle, key: string) {
    && (key in c.inbox.bindings ==> c.inbox.bindings[key].instance in c.minted)
  }

  ghost predicate Kept(c: Chronicle) {
    && Coherent(c.inbox)
    && (forall q {:trigger LogFits(c, q)} :: LogFits(c, q))
    && (forall k {:trigger InstanceFits(c, k)} :: InstanceFits(c, k))
  }

  lemma DawnKept()
    ensures Kept(DAWN)
  {
    assert forall q {:trigger LogFits(DAWN, q)} :: LogFits(DAWN, q);
  }

  /* ----- one request ----- */

  // A row appended at the new head, after dropping rows, keeps the tables coherent.
  lemma AppendCoherent(i: Contents, e: Entry)
    requires Coherent(i) && Append(i, e).Done?
    requires RowFits(i.(head := i.head + 1), i.head + 1, e)
    requires e.source.Pointer? ==> PointersOf(i.rows, e.source.binding) == {}
    ensures Coherent(Append(i, e).inbox)
  {
    var t := Append(i, e).inbox;
    forall q | q in t.rows ensures RowFits(t, q, t.rows[q]) {
      assert q in i.rows ==> RowFits(i, q, i.rows[q]);
    }
    forall p, q ensures OnePointer(t, p, q) {
      assert OnePointer(i, p, q);
      if e.source.Pointer? {
        assert p !in PointersOf(i.rows, e.source.binding) && q !in PointersOf(i.rows, e.source.binding);
      }
      assert i.head + 1 in i.rows ==> RowFits(i, i.head + 1, i.rows[i.head + 1]);
    }
  }

  lemma FewerRowsCoherent(i: Contents, t: Contents)
    requires Coherent(i) && t == i.(rows := t.rows, ack := t.ack)
    requires i.ack <= t.ack <= i.head
    requires forall q :: q in t.rows ==> q in i.rows && t.rows[q] == i.rows[q] && t.ack < q
    ensures Coherent(t)
  {
    forall q | q in t.rows ensures RowFits(t, q, t.rows[q]) { assert RowFits(i, q, i.rows[q]); }
    forall p, q ensures OnePointer(t, p, q) { assert OnePointer(i, p, q); }
  }

  // Changing a binding's observation, or adding a binding, leaves every row fitting.
  lemma BindingCoherent(i: Contents, key: string, b: Binding)
    requires Coherent(i) && BindingFits(key, b)
    requires key in i.bindings ==> i.bindings[key].instance == b.instance
    requires key !in i.bindings ==> |i.bindings| < MAX_BINDINGS
    ensures Coherent(i.(bindings := i.bindings[key := b]))
  {
    var t := i.(bindings := i.bindings[key := b]);
    assert t.bindings.Keys == i.bindings.Keys + {key};
    forall q | q in t.rows ensures RowFits(t, q, t.rows[q]) { assert RowFits(i, q, i.rows[q]); }
    forall p, q ensures OnePointer(t, p, q) { assert OnePointer(i, p, q); }
    forall k | k in t.bindings ensures BindingFits(k, t.bindings[k]) {
      assert k != key ==> BindingFits(k, i.bindings[k]);
    }
  }

  lemma UnbindCoherent(i: Contents, key: string)
    requires Coherent(i) && Hex(key, 64)
    ensures Coherent(Unbind(i, key).inbox)
  {
    var t := Unbind(i, key).inbox;
    forall q | q in t.rows ensures RowFits(t, q, t.rows[q]) {
      assert q !in PointersOf(i.rows, key);
      assert RowFits(i, q, i.rows[q]);
    }
    forall p, q ensures OnePointer(t, p, q) { assert OnePointer(i, p, q); }
    SubsetSize(t.bindings.Keys, i.bindings.Keys);
    forall k | k in t.bindings ensures BindingFits(k, t.bindings[k]) { assert BindingFits(k, i.bindings[k]); }
  }

  function Trimmed(i: Contents, key: string): Contents {
    i.(rows := i.rows - PointersOf(i.rows, key))
  }

  lemma TrimmedCoherent(i: Contents, key: string)
    requires Coherent(i)
    ensures Coherent(Trimmed(i, key)) && PointersOf(Trimmed(i, key).rows, key) == {}
  {
    forall q | q in Trimmed(i, key).rows ensures i.ack < q { assert RowFits(i, q, i.rows[q]); }
    FewerRowsCoherent(i, Trimmed(i, key));
  }

  lemma RefreshCoherent(i: Contents, key: string, seen: Binding, observed: Observation)
    requires Coherent(i) && Refresh(i, key, seen, observed).Done?
    requires Hex(observed.store, 32) && 0 <= observed.head <= MAX_SEQUENCE
    ensures Coherent(Refresh(i, key, seen, observed).inbox)
  {
    hide Coherent;
    if i.bindings[key].observed != Some(observed) {
      BindingsFit(i, key);
      TrimmedCoherent(i, key);
      var e := Entry(Pointer(key, i.bindings[key].instance), false);
      var mid := Trimmed(i, key);
      HeadRoom(mid);
      AppendCoherent(mid, e);
      var t := Refresh(i, key, seen, observed).inbox;
      RoomFor(mid);
      BindingCoherent(Append(mid, e).inbox, key, t.bindings[key]);
    }
  }

  lemma BindingsFit(i: Contents, key: string)
    requires Coherent(i) && key in i.bindings
    ensures BindingFits(key, i.bindings[key])
  {}

  lemma HeadRoom(i: Contents)
    requires Coherent(i)
    ensures 0 <= i.ack <= i.head
  {}

  lemma RoomFor(i: Contents)
    requires Coherent(i)
    ensures |i.bindings| <= MAX_BINDINGS
  {}

  lemma PerformCoherent(i: Contents, a: Act)
    requires Coherent(i) && WellFormedAct(a) && Perform(i, a).Done?
    ensures Coherent(Perform(i, a).inbox)
  {
    hide Coherent, BindingFits, Refresh;
    match a
    case Storing(user) =>
      HeadRoom(i);
      AppendCoherent(i, Entry(Peer, user));
    case Acknowledging(through) =>
      AcknowledgeCoherent(i, through);
    case Attaching(key, repository, instance) =>
      if key !in i.bindings {
        FreshBindingFits(key, repository, instance);
        BindingCoherent(i, key, Binding(repository, instance, None, false, false));
      }
    case Unbinding(key) => UnbindCoherent(i, key);
    case Refreshing(key, seen, observed) => RefreshCoherent(i, key, seen, observed);
    case Clearing(key) =>
      BindingsFit(i, key);
      ClearedFits(key, i.bindings[key]);
      BindingCoherent(i, key, i.bindings[key].(replaced := false, regressed := false));
    case Activating(request) => ActivateCoherent(i, request);
  }

  lemma FreshBindingFits(key: string, repository: string, instance: string)
    requires Hex(key, 64) && Hex(instance, 32) && instance != NIL_INSTANCE
    ensures BindingFits(key, Binding(repository, instance, None, false, false))
  {}

  lemma ClearedFits(key: string, b: Binding)
    requires BindingFits(key, b)
    ensures BindingFits(key, b.(replaced := false, regressed := false))
  {}

  lemma AcknowledgeCoherent(i: Contents, through: int)
    requires Coherent(i) && through >= 0
    ensures Coherent(Acknowledge(i, through).inbox)
  {
    var t := Acknowledge(i, through).inbox;
    forall q | q in t.rows ensures t.ack < q { assert RowFits(i, q, i.rows[q]); }
    FewerRowsCoherent(i, t);
  }

  lemma ActivateCoherent(i: Contents, r: Request)
    requires Coherent(i) && Activate(i, r).Done?
    ensures Coherent(Activate(i, r).inbox)
  {
    var t := Activate(i, r).inbox;
    forall q | q in t.rows ensures RowFits(t, q, t.rows[q]) { assert RowFits(i, q, i.rows[q]); }
    forall p, q ensures OnePointer(t, p, q) { assert OnePointer(i, p, q); }
  }

  /* ----- the log ----- */

  // What one request does to the row at q and to the reasons a missing row is missing.
  predicate Shift(i: Contents, t: Contents, q: int) {
    && i.head <= t.head <= i.head + 1 && i.ack <= t.ack
    && (q in t.rows && q <= i.head ==> q in i.rows && t.rows[q] == i.rows[q])
    && (q in t.rows ==> q <= t.head)
    && (t.head > i.head ==> t.head in t.rows)
  }

  lemma RowsBetween(i: Contents, q: int)
    requires Coherent(i)
    ensures 0 <= i.ack <= i.head && (q in i.rows ==> i.ack < q <= i.head)
  {
    assert q in i.rows ==> RowFits(i, q, i.rows[q]);
  }

  lemma PerformShifts(i: Contents, a: Act, q: int)
    requires Coherent(i) && WellFormedAct(a) && Perform(i, a).Done?
    ensures Shift(i, Perform(i, a).inbox, q)
  {
    hide Coherent, WellFormedAct, Peers, Activate, Refresh, Hex;
    PerformCoherent(i, a);
    RowsBetween(i, q);
    RowsBetween(Perform(i, a).inbox, q);
    match a
    case Refreshing(key, seen, observed) => RefreshShifts(i, key, seen, observed, q);
    case Activating(request) => ActivateRows(i, request);
    case _ =>
  }

  lemma RefreshShifts(i: Contents, key: string, seen: Binding, observed: Observation, q: int)
    requires Refresh(i, key, seen, observed).Done? && 0 <= i.ack <= i.head
    requires q in i.rows ==> i.ack < q <= i.head
    ensures Shift(i, Refresh(i, key, seen, observed).inbox, q)
  {
    hide Hex, PointersOf;
  }

  lemma ActivateRows(i: Contents, r: Request)
    requires Activate(i, r).Done?
    ensures Activate(i, r).inbox == i.(activation := Activate(i, r).inbox.activation)
  {}

  // A row that leaves is acknowledged or superseded.
  lemma LeavesGone(i: Contents, a: Act, q: int)
    requires Coherent(i) && WellFormedAct(a) && Perform(i, a).Done?
    requires q in i.rows && q !in Perform(i, a).inbox.rows
    ensures Gone(Perform(i, a).inbox, q, i.rows[q])
  {
    var t := Perform(i, a).inbox;
    assert RowFits(i, q, i.rows[q]);
    if a.Refreshing? {
      assert q in PointersOf(i.rows, a.key);
      assert i.head + 1 in PointersOf(t.rows, a.key);
    } else if a.Unbinding? {
      assert q in PointersOf(i.rows, a.key);
    }
  }

  // Once gone, a row stays gone for a reason that still holds.
  lemma StaysGone(c: Chronicle, a: Act, q: int, e: Entry)
    requires Kept(c) && Allowed(c, a) && Perform(c.inbox, a).Done?
    requires 1 <= q <= c.inbox.head && Gone(c.inbox, q, e)
    requires e.source.Pointer? ==> e.source.instance in c.minted
    ensures Gone(Perform(c.inbox, a).inbox, q, e)
  {
    var i := c.inbox;
    var t := Perform(i, a).inbox;
    PerformShifts(i, a, q);
    if t.ack < q {
      assert e.source.Pointer? && Superseded(i, q, e.source);
      StaysSuperseded(c, a, q, e.source);
    }
  }

  lemma StaysSuperseded(c: Chronicle, a: Act, q: int, source: Source)
    requires Kept(c) && Allowed(c, a) && Perform(c.inbox, a).Done?
    requires source.Pointer? && source.instance in c.minted && 1 <= q <= c.inbox.head
    requires Superseded(c.inbox, q, source)
    requires Perform(c.inbox, a).inbox.ack < q
    ensures Superseded(Perform(c.inbox, a).inbox, q, source)
  {
    var i := c.inbox;
    var t := Perform(i, a).inbox;
    var key := source.binding;
    if key in t.bindings && t.bindings[key].instance == source.instance {
      KeepsInstance(c, a, key);
      var p :| p in PointersOf(i.rows, key) && p > q;
      StaysPointed(i, a, key, p, q);
    }
  }

  // Only binding mints an instance, so an instance minted before is one the binding had before.
  lemma KeepsInstance(c: Chronicle, a: Act, key: string)
    requires Kept(c) && Allowed(c, a) && Perform(c.inbox, a).Done?
    requires key in Perform(c.inbox, a).inbox.bindings
    requires Perform(c.inbox, a).inbox.bindings[key].instance in c.minted
    ensures key in c.inbox.bindings && c.inbox.bindings[key].instance == Perform(c.inbox, a).inbox.bindings[key].instance
  {
    hide Coherent, LogFits;
  }

  lemma StaysPointed(i: Contents, a: Act, key: string, p: int, q: int)
    requires Coherent(i) && Perform(i, a).Done?
    requires p in PointersOf(i.rows, key) && p > q
    requires key in Perform(i, a).inbox.bindings && Perform(i, a).inbox.ack < q
    ensures exists p' :: p' in PointersOf(Perform(i, a).inbox.rows, key) && p' > q
  {
    var t := Perform(i, a).inbox;
    assert RowFits(i, p, i.rows[p]);
    if p in t.rows {
      KeepsRow(i, a, p);
      assert p in PointersOf(t.rows, key);
    } else {
      assert a.Refreshing? by { LeavesBy(i, a, key, p); }
      assert a.key == key;
      assert i.head + 1 in PointersOf(t.rows, key);
    }
  }

  lemma KeepsRow(i: Contents, a: Act, p: int)
    requires Coherent(i) && Perform(i, a).Done? && p in i.rows && p in Perform(i, a).inbox.rows
    ensures Perform(i, a).inbox.rows[p] == i.rows[p]
  {
    assert RowFits(i, p, i.rows[p]);
  }

  lemma LeavesBy(i: Contents, a: Act, key: string, p: int)
    requires Perform(i, a).Done?
    requires p in PointersOf(i.rows, key) && p !in Perform(i, a).inbox.rows
    requires key in Perform(i, a).inbox.bindings && Perform(i, a).inbox.ack < p
    ensures a.Refreshing? && a.key == key
  {}

  lemma LogStep(c: Chronicle, a: Act, q: int)
    requires Kept(c) && Allowed(c, a) && Perform(c.inbox, a).Done?
    ensures LogFits(Follow(c, a), q)
  {
    var i := c.inbox;
    var t := Perform(i, a).inbox;
    var d := Follow(c, a);
    assert LogFits(c, q);
    PerformShifts(i, a, q);
    PerformCoherent(i, a);
    if q in c.log && q !in t.rows {
      if q in i.rows {
        LeavesGone(i, a, q);
      } else {
        StaysGone(c, a, q, c.log[q]);
      }
    }
    if q == t.head && t.head > i.head {
      NewRow(c, a);
    }
    hide Perform, Gone, Coherent;
  }

  lemma NewRow(c: Chronicle, a: Act)
    requires Kept(c) && Allowed(c, a) && Perform(c.inbox, a).Done?
    requires Perform(c.inbox, a).inbox.head > c.inbox.head
    ensures var t := Perform(c.inbox, a).inbox; var e := t.rows[t.head];
      && t.head in t.rows && WellFormed(e.source)
      && (e.source.Pointer? ==> !e.user && e.source.instance in c.minted)
  {
    if a.Refreshing? {
      assert BindingFits(a.key, c.inbox.bindings[a.key]);
      assert InstanceFits(c, a.key);
    }
  }

  lemma InstanceStep(c: Chronicle, a: Act, key: string)
    requires Kept(c) && Allowed(c, a) && Perform(c.inbox, a).Done?
    ensures InstanceFits(Follow(c, a), key)
  {
    hide Coherent, LogFits;
    assert InstanceFits(c, key);
  }

  lemma FollowKept(c: Chronicle, a: Act)
    requires Kept(c)
    ensures Kept(Follow(c, a))
  {
    hide Coherent, LogFits, InstanceFits, Perform;
    if Allowed(c, a) && Perform(c.inbox, a).Done? {
      PerformCoherent(c.inbox, a);
      forall q ensures LogFits(Follow(c, a), q) { LogStep(c, a, q); }
      forall k ensures InstanceFits(Follow(c, a), k) { InstanceStep(c, a, k); }
    }
  }

  // Over every sequence of requests from an empty inbox: the tables stay coherent, every
  // sequence up to the head was allocated exactly once, and a stored row that is no longer
  // there was acknowledged or, being a pointer, superseded.
  lemma {:induction false} InboxStaysHonest(c: Chronicle, acts: seq<Act>)
    requires Kept(c)
    ensures Kept(FollowAll(c, acts))
    decreases |acts|
  {
    if acts != [] {
      FollowKept(c, acts[0]);
      InboxStaysHonest(Follow(c, acts[0]), acts[1..]);
    }
  }
}
