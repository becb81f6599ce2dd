/** Requests as the class serves them are runs of the service: whatever a request commits, in as many
    transactions as it takes, is what some sequence of acts leads to. So everything proved over runs
    holds of the class. */
module MemoryService {
  import opened Common
  import opened MemoryModel
  import opened MemoryBudget
  import opened MemoryRuns
  import opened MemoryExpiry
  import opened MemoryIndex
  import opened MemoryLog
  import opened MemoryReaders
  import opened MemoryReserve
  import opened MemoryStore

  // A world whose serving process holds this store, with its clock no later than now.
  predicate Hosts(w: World, s: Store, fts: bool, now: int) {
    w.store == s && w.process == Running(fts) && w.clock <= now
  }

  // From w, without freezing anything, these acts lead to a world that holds t.
  ghost predicate LeadsTo(w: World, acts: seq<Act>, t: Store, fts: bool, now: int) {
    var v := Play(w, acts); Hosts(v, t, fts, now) && v.record.minted == w.record.minted
  }

  lemma Nothing(w: World, s: Store, fts: bool, now: int)
    requires Hosts(w, s, fts, now)
    ensures LeadsTo(w, [], s, fts, now)
  {}

  lemma OneAct(w: World, a: Act)
    ensures Play(w, [a]) == Do(w, a)
  {
    hide Do;
    assert [a][1..] == [];
  }

  lemma Chain(w: World, first: seq<Act>, s: Store, rest: seq<Act>, t: Store, fts: bool, now: int)
    requires LeadsTo(w, first, s, fts, now) && LeadsTo(Play(w, first), rest, t, fts, now)
    ensures LeadsTo(w, first + rest, t, fts, now)
  {
    hide Play;
    PlayOn(w, first, rest);
  }

  /* ----- reclamation ----- */

  function BatchActs(fits: bool, now: int): seq<Act> {
    if fits then [Expiring(now)] else [Invalidating, Expiring(now)]
  }

  lemma BatchLeads(w: World, fits: bool, s: Store, fts: bool, now: int)
    requires Hosts(w, s, fts, now)
    ensures LeadsTo(w, BatchActs(fits, now), BatchWith(s, now, fts, fits), fts, now)
  {
    hide ExpireBatch;
    if fits {
      OneAct(w, Expiring(now));
    } else {
      OneAct(w, Invalidating);
      OneAct(Do(w, Invalidating), Expiring(now));
      PlayOn(w, [Invalidating], [Expiring(now)]);
      assert [Invalidating] + [Expiring(now)] == BatchActs(fits, now);
    }
  }

  lemma {:induction false} BatchesLead(w: World, fits: seq<bool>, s: Store, fts: bool, now: int) returns (acts: seq<Act>)
    requires Hosts(w, s, fts, now)
    ensures LeadsTo(w, acts, ExpireWith(s, now, fts, fits), fts, now)
    decreases |fits|
  {
    hide BatchWith, Play, Hosts, BatchActs;
    if fits == [] {
      acts := [];
      Nothing(w, s, fts, now);
    } else {
      BatchLeads(w, fits[0], s, fts, now);
      var first := BatchActs(fits[0], now);
      var next := BatchWith(s, now, fts, fits[0]);
      LeadsHosts(w, first, next, fts, now);
      var rest := BatchesLead(Play(w, first), fits[1..], next, fts, now);
      acts := first + rest;
      Chain(w, first, next, rest, ExpireWith(s, now, fts, fits), fts, now);
    }
  }

  lemma LeadsHosts(w: World, acts: seq<Act>, t: Store, fts: bool, now: int)
    requires LeadsTo(w, acts, t, fts, now)
    ensures Hosts(Play(w, acts), t, fts, now) && Play(w, acts).record.minted == w.record.minted
  {}

  lemma SweepLeads(w: World, s: Store, fts: bool, now: int)
    requires Hosts(w, s, fts, now)
    ensures LeadsTo(w, [Sweeping(now)], Sweep(s, now), fts, now)
  {
    hide Sweep;
    OneAct(w, Sweeping(now));
  }

  // Admission starts from a state that a run leads to.
  lemma AdmissionLeads(w: World, s: Store, a: Store, fts: bool, now: int) returns (acts: seq<Act>)
    requires Hosts(w, s, fts, now) && AdmittedFrom(s, a, now, fts)
    ensures LeadsTo(w, acts, a, fts, now)
  {
    hide Sweep, ExpireWith, ExpiredTo, Play;
    if a == s {
      acts := [];
      Nothing(w, s, fts, now);
    } else {
      var fits :| ExpiredTo(s, ExpireWith(s, now, fts, fits), now, fts) && a == Sweep(ExpireWith(s, now, fts, fits), now);
      var first := BatchesLead(w, fits, s, fts, now);
      var u := ExpireWith(s, now, fts, fits);
      LeadsHosts(w, first, u, fts, now);
      SweepLeads(Play(w, first), u, fts, now);
      acts := first + [Sweeping(now)];
      Chain(w, first, u, [Sweeping(now)], a, fts, now);
    }
  }

  // Between expiry and the sweep only rows of the log have gone.
  lemma Between(s: Store, a: Store, fts: bool, now: int) returns (u: Store)
    requires Reclaimed(s, a, now, fts)
    ensures a == Sweep(u, now) && s.floor <= u.floor && u.head == s.head
    ensures u.readers == s.readers && u.graves == s.graves && u.shots == s.shots && u.idem == s.idem
  {
    hide ExpireWith, Sweep;
    var fits :| ExpiredTo(s, ExpireWith(s, now, fts, fits), now, fts) && a == Sweep(ExpireWith(s, now, fts, fits), now);
    u := ExpireWith(s, now, fts, fits);
    OneShotTables(s, now, fts);
    OneShotFloor(s, now, fts);
    hide OneShot;
  }

  // Reclamation brings no key, takes only snapshots past their lifetime, and leaves an attended
  // reader alone.
  lemma AdmissionKeeps(s: Store, a: Store, fts: bool, now: int)
    requires AdmittedFrom(s, a, now, fts)
    ensures forall k :: k in a.idem ==> k in s.idem
    ensures forall k :: k in a.readers ==> k in s.readers
    ensures forall k :: k in a.shots <==> k in s.shots && (a == s || !ShotLapsed(s.shots[k], now))
    ensures forall k :: k in a.shots ==> a.shots[k] == s.shots[k]
    ensures s.floor <= a.floor && a.head == s.head
  {
    hide ShotLapsed, ReaderIdle, Reclaimed;
    if a != s {
      var u := Between(s, a, fts, now);
    }
  }

  lemma OneShotFloor(s: Store, now: int, fts: bool)
    ensures s.floor <= OneShot(s, now, fts).floor
  {
    hide Highest, LapsedRows;
  }

  /* ----- notes ----- */

  lemma StillProceeds(s: Store, a: Store, n: Note, fts: bool, now: int)
    requires AdmittedFrom(s, a, now, fts) && Precheck(s, n, now).Proceed?
    ensures Precheck(a, n, now).Proceed?
  {
    AdmissionKeeps(s, a, fts, now);
    hide AdmittedFrom, ArgumentError;
  }

  // Whatever a note's request leaves behind, a run leads there.
  lemma NoteIsARun(w: World, s: Store, admitted: Store, t: Store, n: Note, now: int, fts: bool, error: Option<MemoryError>, reply: Noted)
    returns (acts: seq<Act>)
    requires Hosts(w, s, fts, now) && n.weight >= 0 && NoteServed(s, admitted, t, n, now, fts, error, reply)
    ensures LeadsTo(w, acts, t, fts, now)
  {
    hide AdmittedFrom, Append, Room, Enforced, NoteCharge, Play;
    if t == s {
      acts := [];
      Nothing(w, s, fts, now);
    } else {
      acts := AdmissionLeads(w, s, admitted, fts, now);
      if t != admitted {
        LeadsHosts(w, acts, admitted, fts, now);
        StillProceeds(s, admitted, n, fts, now);
        hide Precheck;
        var v := Play(w, acts);
        OneAct(v, Noting(n, now));
        assert Appends(v, n, now);
        assert LeadsTo(v, [Noting(n, now)], t, fts, now);
        Chain(w, acts, admitted, [Noting(n, now)], t, fts, now);
        acts := acts + [Noting(n, now)];
      }
    }
  }

  /* ----- readers ----- */

  // Reclamation leaves room for a reader that had room before.
  lemma AdmissionCounts(s: Store, a: Store, c: string, fts: bool, now: int)
    requires AdmittedFrom(s, a, now, fts) && c !in s.readers && Register(s, c, now).Commit?
    ensures c !in a.readers && Register(a, c, now).Commit?
  {
    hide Reclaimed, Sweep;
    if a != s {
      var u := Between(s, a, fts, now);
      SweepCounts(u, now);
      SweptGrave(u, c, now);
    }
  }

  lemma SweptGrave(s: Store, c: string, now: int)
    requires c !in s.readers && c !in s.graves
    ensures c !in Sweep(s, now).readers && c !in Sweep(s, now).graves && |Sweep(s, now).readers| <= |s.readers|
  {
    hide ShotLapsed, ReaderIdle;
    var t := Sweep(s, now);
    assert t.readers.Keys <= s.readers.Keys;
    SubsetSize(t.readers.Keys, s.readers.Keys);
    assert |t.readers| == |t.readers.Keys| && |s.readers| == |s.readers.Keys|;
  }

  lemma RegisteringLeads(w: World, s: Store, c: string, fts: bool, now: int)
    requires Hosts(w, s, fts, now) && c !in s.readers && Register(s, c, now).Commit? && Room(s, RegisterCharge(c), 0, false)
    ensures LeadsTo(w, [Registering(c, now)], s.(readers := s.readers[c := Registered(now)]), fts, now)
  {
    hide Room;
    OneAct(w, Registering(c, now));
  }

  lemma KnownLeads(w: World, s: Store, t: Store, c: string, fts: bool, now: int) returns (acts: seq<Act>)
    requires Hosts(w, s, fts, now) && RegisteredFrom(s, t, c, now, fts)
    ensures LeadsTo(w, acts, t, fts, now) && c in t.readers
  {
    hide AdmittedFrom, Room, Enforced, Play;
    if c in s.readers {
      acts := [];
      Nothing(w, s, fts, now);
    } else {
      var a :| AdmittedFrom(s, a, now, fts) && Room(a, RegisterCharge(c), 0, false) && t == a.(readers := a.readers[c := Registered(now)]);
      acts := AdmissionLeads(w, s, a, fts, now);
      AdmissionKeeps(s, a, fts, now);
      AdmissionCounts(s, a, c, fts, now);
      LeadsHosts(w, acts, a, fts, now);
      hide LeadsTo, Hosts, Register;
      RegisteringLeads(Play(w, acts), a, c, fts, now);
      Chain(w, acts, a, [Registering(c, now)], t, fts, now);
      acts := acts + [Registering(c, now)];
    }
  }

  lemma TouchLeads(w: World, s: Store, c: string, fts: bool, now: int)
    requires Hosts(w, s, fts, now) && c in s.readers
    ensures LeadsTo(w, [Touching(c, now)], Touch(s, c, now), fts, now) && c in Touch(s, c, now).readers
  {
    OneAct(w, Touching(c, now));
  }

  lemma AttendLeads(w: World, s: Store, c: string, fts: bool, now: int) returns (acts: seq<Act>)
    requires Hosts(w, s, fts, now) && c in s.readers
    ensures LeadsTo(w, acts, Attended(s, c, now), fts, now)
  {
    acts := [Touching(c, now)];
    TouchLeads(w, s, c, fts, now);
    var u := Touch(s, c, now);
    hide Unusable, Play;
    if u.readers[c].snapshot.Some? && Unusable(u, c, u.readers[c].snapshot.value, now) {
      var v := Play(w, acts);
      OneAct(v, Clearing(c, now));
      assert LeadsTo(v, [Clearing(c, now)], Clear(u, c), fts, now);
      Chain(w, acts, u, [Clearing(c, now)], Clear(u, c), fts, now);
      acts := acts + [Clearing(c, now)];
    }
  }

  // A run that may freeze one snapshot under this name.
  ghost predicate Reaches(w: World, acts: seq<Act>, t: Store, sid: string, fts: bool, now: int) {
    var v := Play(w, acts); Hosts(v, t, fts, now) && v.record.minted.Keys <= w.record.minted.Keys + {sid}
  }

  lemma LeadsReaches(w: World, acts: seq<Act>, t: Store, sid: string, fts: bool, now: int)
    requires LeadsTo(w, acts, t, fts, now)
    ensures Reaches(w, acts, t, sid, fts, now)
  {}

  lemma ReachesOn(w: World, first: seq<Act>, s: Store, rest: seq<Act>, t: Store, sid: string, fts: bool, now: int)
    requires Reaches(w, first, s, sid, fts, now) && Reaches(Play(w, first), rest, t, sid, fts, now)
    ensures Reaches(w, first + rest, t, sid, fts, now)
  {
    hide Play;
    PlayOn(w, first, rest);
  }

  // A reclamation in between takes away nothing that the freeze was allowed for.
  lemma StillFreezes(v: World, s: Store, a: Store, c: string, sid: string, items: seq<Item>, pruned: set<string>, fts: bool, now: int)
    requires AdmittedFrom(s, a, now, fts) && v.store == a && sid !in v.record.minted
    requires c in s.readers && !ReaderIdle(s.readers[c], now) && s.readers[c].snapshot.None? && NeedsSnapshot(s, c)
    requires |HeldShots(s, c, now)| < MAX_SNAPSHOTS && FrozenList(s, items, now)
    requires c in a.readers && Prunable(a, c, pruned, now) && Room(a, FreezeCharge(c, sid, items), 0, false)
    ensures Freezes(v, c, sid, items, pruned, now)
  {
    hide Room, FrozenList, Prunable, Reclaimed, ShotLapsed, FreezeCharge;
    AdmissionKeeps(s, a, fts, now);
    ReclaimedReader(s, a, c, now, fts);
    HeldStay(s, a, c, now);
    if a != s {
      ReclaimedKeepsFrozen(s, a, items, now, fts);
    }
    hide HeldShots;
  }

  lemma HeldStay(s: Store, a: Store, c: string, now: int)
    requires forall k :: k in a.shots <==> k in s.shots && (a == s || !ShotLapsed(s.shots[k], now))
    requires forall k :: k in a.shots ==> a.shots[k] == s.shots[k]
    ensures HeldShots(a, c, now) == HeldShots(s, c, now)
  {
    hide ShotLapsed;
  }

  lemma FreezeLeads(w: World, s: Store, t: Store, c: string, sid: string, fts: bool, now: int) returns (acts: seq<Act>)
    requires Hosts(w, s, fts, now) && c in s.readers && !ReaderIdle(s.readers[c], now) && sid !in w.record.minted
    requires ServedFrom(s, t, c, sid, now, fts)
    ensures Reaches(w, acts, t, sid, fts, now)
  {
    hide AdmittedFrom, ReaderIdle, NeedsSnapshot, HeldShots, FreezesTo, Play;
    if s.readers[c].snapshot.Some? || !NeedsSnapshot(s, c) {
      acts := [];
      Nothing(w, s, fts, now);
      LeadsReaches(w, acts, s, sid, fts, now);
    } else {
      var a, items, pruned :| AdmittedFrom(s, a, now, fts) && FreezesTo(s, a, t, c, sid, items, pruned, now);
      var first := AdmissionLeads(w, s, a, fts, now);
      LeadsHosts(w, first, a, fts, now);
      LeadsReaches(w, first, a, sid, fts, now);
      var v := Play(w, first);
      FreezesHere(v, s, a, t, c, sid, items, pruned, fts, now);
      ReachesOn(w, first, a, [Freezing(c, sid, items, pruned, now)], t, sid, fts, now);
      acts := first + [Freezing(c, sid, items, pruned, now)];
    }
  }

  lemma FreezesHere(v: World, s: Store, a: Store, t: Store, c: string, sid: string, items: seq<Item>, pruned: set<string>, fts: bool, now: int)
    requires Hosts(v, a, fts, now) && sid !in v.record.minted && AdmittedFrom(s, a, now, fts) && FreezesTo(s, a, t, c, sid, items, pruned, now)
    requires c in s.readers && !ReaderIdle(s.readers[c], now) && s.readers[c].snapshot.None? && NeedsSnapshot(s, c)
    requires |HeldShots(s, c, now)| < MAX_SNAPSHOTS
    ensures Reaches(v, [Freezing(c, sid, items, pruned, now)], t, sid, fts, now)
  {
    hide AdmittedFrom, ReaderIdle, NeedsSnapshot, HeldShots, Room, FrozenList, Prunable, Enforced, FreezeCharge;
    StillFreezes(v, s, a, c, sid, items, pruned, fts, now);
    hide Freezes;
    OneAct(v, Freezing(c, sid, items, pruned, now));
  }

  lemma PageLeads(w: World, s: Store, t: Store, c: string, sid: string, token: int, claimed: Option<string>, now: int, fts: bool,
                  wire: (int, Entry) -> nat, page: Page) returns (acts: seq<Act>)
    requires Hosts(w, s, fts, now) && c in s.readers && (s.readers[c].snapshot.None? ==> !NeedsSnapshot(s, c))
    requires PageFrom(s, c, token, claimed, now, wire) == Commit(t, page)
    ensures Reaches(w, acts, t, sid, fts, now)
  {
    hide PageAt, DeltaOf, RowsAbove, NeedsSnapshot, PagesOf, Span, ToldOf, Members;
    if s.readers[c].snapshot.Some? {
      acts := [Paging(c, token, claimed, now)];
      OneAct(w, acts[0]);
    } else {
      RowsSized(s, s.readers[c].cursor);
      var sizes := Sizes(s, RowsAbove(s, s.readers[c].cursor), wire);
      acts := [Streaming(c, sizes)];
      assert Streams(w, c, sizes);
      hide Streams;
      OneAct(w, acts[0]);
    }
  }

  // Whatever a sync request leaves behind, a run leads there that freezes at most the snapshot this
  // request was given a name for.
  lemma SyncIsARun(w: World, s: Store, known: Store, served: Store, t: Store, c: string, sid: string, token: int, claimed: Option<string>,
                   now: int, fts: bool, wire: (int, Entry) -> nat, error: Option<MemoryError>, page: Option<Page>) returns (acts: seq<Act>)
    requires Hosts(w, s, fts, now) && sid !in w.record.minted
    requires SyncServed(s, known, served, t, c, sid, token, claimed, now, fts, wire, error, page)
    ensures Reaches(w, acts, t, sid, fts, now)
  {
    hide RegisteredFrom, Attended, PageServed, Play, Hosts;
    var first := KnownLeads(w, s, known, c, fts, now);
    LeadsHosts(w, first, known, fts, now);
    var second := AttendLeads(Play(w, first), known, c, fts, now);
    var reader := Attended(known, c, now);
    Chain(w, first, known, second, reader, fts, now);
    LeadsHosts(w, first + second, reader, fts, now);
    LeadsReaches(w, first + second, reader, sid, fts, now);
    NotIdle(known, c, now);
    var third := ServingLeads(Play(w, first + second), reader, served, t, c, sid, token, claimed, now, fts, wire, error, page);
    ReachesOn(w, first + second, reader, third, t, sid, fts, now);
    acts := first + second + third;
  }

  lemma NotIdle(s: Store, c: string, now: int)
    requires c in s.readers
    ensures !ReaderIdle(Attended(s, c, now).readers[c], now)
  {
    hide Unusable;
  }

  lemma ServingLeads(w: World, s: Store, served: Store, t: Store, c: string, sid: string, token: int, claimed: Option<string>,
                     now: int, fts: bool, wire: (int, Entry) -> nat, error: Option<MemoryError>, page: Option<Page>) returns (acts: seq<Act>)
    requires Hosts(w, s, fts, now) && sid !in w.record.minted && c in s.readers && !ReaderIdle(s.readers[c], now)
    requires PageServed(s, served, t, c, sid, token, claimed, now, fts, wire, error, page)
    ensures Reaches(w, acts, t, sid, fts, now)
  {
    hide AdmittedFrom, ReaderIdle, NeedsSnapshot, HeldShots, ServedFrom, NoRoomFor, Play, PageFrom;
    if ServedFrom(s, served, c, sid, now, fts) && c in served.readers && (served.readers[c].snapshot.None? ==> !NeedsSnapshot(served, c))
       && !(error.Some? && t == served && FreezeRefused(s, served, c, sid, now, fts, error.value)) {
      acts := FreezeLeads(w, s, served, c, sid, fts, now);
      if PageFrom(served, c, token, claimed, now, wire).Commit? {
        ReachesHosts(w, acts, served, sid, fts, now);
        var rest := PageLeads(Play(w, acts), served, t, c, sid, token, claimed, now, fts, wire, page.value);
        ReachesOn(w, acts, served, rest, t, sid, fts, now);
        acts := acts + rest;
      }
    } else if t == s {
      acts := [];
      Nothing(w, s, fts, now);
      LeadsReaches(w, acts, s, sid, fts, now);
    } else {
      acts := AdmissionLeads(w, s, t, fts, now);
      LeadsReaches(w, acts, t, sid, fts, now);
    }
  }

  lemma ReachesHosts(w: World, acts: seq<Act>, t: Store, sid: string, fts: bool, now: int)
    requires Reaches(w, acts, t, sid, fts, now)
    ensures Hosts(Play(w, acts), t, fts, now)
  {}

  // A request whose reader could not be registered.
  lemma UnregisteredIsARun(w: World, s: Store, t: Store, c: string, now: int, fts: bool, e: MemoryError) returns (acts: seq<Act>)
    requires Hosts(w, s, fts, now) && Unregistered(s, t, c, now, fts, e)
    ensures LeadsTo(w, acts, t, fts, now)
  {
    hide AdmittedFrom, Room, Enforced, Register, Play;
    if t == s {
      acts := [];
      Nothing(w, s, fts, now);
    } else {
      acts := AdmissionLeads(w, s, t, fts, now);
    }
  }

  /* ----- acknowledgements ----- */

  lemma AckLeads(w: World, s: Store, c: string, sid: Option<string>, through: int, fts: bool, now: int, t: Store, reply: Acked)
    returns (acts: seq<Act>)
    requires Hosts(w, s, fts, now) && c in s.readers && AckFrom(s, c, sid, through, now) == Commit(t, reply)
    ensures LeadsTo(w, acts, t, fts, now)
  {
    hide AckSnapshot, AckThrough, ToldOf;
    acts := [if sid.Some? && sid.value != "" then AckingSnapshot(c, sid.value, now) else AckingThrough(c, through)];
    OneAct(w, acts[0]);
  }

  // Whatever an acknowledgement leaves behind, a run leads there.
  lemma AckIsARun(w: World, s: Store, known: Store, t: Store, c: string, sid: Option<string>, through: int, now: int, fts: bool,
                  error: Option<MemoryError>, reply: Acked) returns (acts: seq<Act>)
    requires Hosts(w, s, fts, now) && AckServed(s, known, t, c, sid, through, now, fts, error, reply)
    ensures LeadsTo(w, acts, t, fts, now)
  {
    hide RegisteredFrom, AckFrom, Play, Hosts, Touch;
    var first := KnownLeads(w, s, known, c, fts, now);
    LeadsHosts(w, first, known, fts, now);
    TouchLeads(Play(w, first), known, c, fts, now);
    var touched := Touch(known, c, now);
    Chain(w, first, known, [Touching(c, now)], touched, fts, now);
    acts := first + [Touching(c, now)];
    if AckFrom(touched, c, sid, through, now).Commit? {
      LeadsHosts(w, acts, touched, fts, now);
      var rest := AckLeads(Play(w, acts), touched, c, sid, through, fts, now, t, reply);
      Chain(w, acts, touched, rest, t, fts, now);
      acts := acts + rest;
    }
  }

  /* ----- every request, one after another ----- */

  datatype Request =
    | NoteRequest(note: Note, now: int)
    | SyncRequest(c: string, sid: string, token: int, claimed: Option<string>, now: int)
    | AckRequest(c: string, named: Option<string>, through: int, now: int)
    | ReclaimRequest(now: int)

  // What the class does with a request, as its methods promise.
  ghost predicate Answered(s: Store, t: Store, r: Request, fts: bool, wire: (int, Entry) -> nat) {
    match r
    case NoteRequest(n, now) => exists admitted, error, reply :: NoteServed(s, admitted, t, n, now, fts, error, reply)
    case SyncRequest(c, sid, token, claimed, now) =>
      || (exists e :: Unregistered(s, t, c, now, fts, e))
      || (exists known, served, error, page :: SyncServed(s, known, served, t, c, sid, token, claimed, now, fts, wire, error, page))
    case AckRequest(c, named, through, now) =>
      || (exists e :: Unregistered(s, t, c, now, fts, e))
      || (exists known, error, reply :: AckServed(s, known, t, c, named, through, now, fts, error, reply))
    case ReclaimRequest(now) => Reclaimed(s, t, now, fts)
  }

  // A request the caller may make: a note weighs something or nothing, and a name for a snapshot is
  // new.
  predicate Makes(r: Request, minted: set<string>) {
    (r.NoteRequest? ==> r.note.weight >= 0) && (r.SyncRequest? ==> r.sid !in minted)
  }

  function NameOf(r: Request): set<string> {
    if r.SyncRequest? then {r.sid} else {}
  }

  lemma RequestIsARun(w: World, s: Store, t: Store, r: Request, fts: bool, wire: (int, Entry) -> nat) returns (acts: seq<Act>)
    requires Hosts(w, s, fts, r.now) && Makes(r, w.record.minted.Keys) && Answered(s, t, r, fts, wire)
    ensures Hosts(Play(w, acts), t, fts, r.now) && Play(w, acts).record.minted.Keys <= w.record.minted.Keys + NameOf(r)
  {
    hide NoteServed, SyncServed, AckServed, Unregistered, Reclaimed, Play;
    match r
    case NoteRequest(n, now) =>
      var admitted, error, reply :| NoteServed(s, admitted, t, n, now, fts, error, reply);
      acts := NoteIsARun(w, s, admitted, t, n, now, fts, error, reply);
    case SyncRequest(c, sid, token, claimed, now) =>
      if e :| Unregistered(s, t, c, now, fts, e) {
        acts := UnregisteredIsARun(w, s, t, c, now, fts, e);
      } else {
        var known, served, error, page :| SyncServed(s, known, served, t, c, sid, token, claimed, now, fts, wire, error, page);
        acts := SyncIsARun(w, s, known, served, t, c, sid, token, claimed, now, fts, wire, error, page);
      }
    case AckRequest(c, named, through, now) =>
      if e :| Unregistered(s, t, c, now, fts, e) {
        acts := UnregisteredIsARun(w, s, t, c, now, fts, e);
      } else {
        var known, error, reply :| AckServed(s, known, t, c, named, through, now, fts, error, reply);
        acts := AckIsARun(w, s, known, t, c, named, through, now, fts, error, reply);
      }
    case ReclaimRequest(now) =>
      acts := AdmissionLeads(w, s, t, fts, now);
  }

  // A service's life: the stores between requests, each answered as the class answers it, at times
  // that never go back and under snapshot names that are never used twice.
  ghost predicate Life(stores: seq<Store>, requests: seq<Request>, fts: bool, wire: (int, Entry) -> nat) {
    && |stores| == |requests| + 1 && stores[0] == Opened(NEW, fts)
    && (forall k :: 0 <= k < |requests| ==> Answered(stores[k], stores[k + 1], requests[k], fts, wire) && requests[k].now >= 0)
    && (forall k :: 0 <= k < |requests| ==> requests[k].NoteRequest? ==> requests[k].note.weight >= 0)
    && (forall j, k :: 0 <= j < k < |requests| ==> requests[j].now <= requests[k].now)
    && (forall j, k :: 0 <= j < k < |requests| && requests[j].SyncRequest? && requests[k].SyncRequest? ==> requests[j].sid != requests[k].sid)
  }

  function Names(requests: seq<Request>): set<string> {
    set k | 0 <= k < |requests| && requests[k].SyncRequest? :: requests[k].sid
  }

  // Where any life of the class has got to, some run of the service has got to as well: budgets,
  // replay, cursors, snapshots, retries and the index are as those runs were proved to keep them.
  lemma {:induction false} LivesAreRuns(stores: seq<Store>, requests: seq<Request>, fts: bool, wire: (int, Entry) -> nat) returns (acts: seq<Act>)
    requires Life(stores, requests, fts, wire)
    ensures var w := Play(DAWN, acts);
      && w.store == stores[|stores| - 1] && w.process == Running(fts)
      && w.clock <= (if requests == [] then 0 else requests[|requests| - 1].now)
      && w.record.minted.Keys <= Names(requests)
    decreases |requests|
  {
    hide Answered, Play;
    if requests == [] {
      acts := if fts then [Start(true), Settle] else [Start(false)];
      Opens(fts);
    } else {
      var n := |requests| - 1;
      var before := LivesAreRuns(stores[..n + 1], requests[..n], fts, wire);
      var w := Play(DAWN, before);
      var r := requests[n];
      assert r.SyncRequest? ==> r.sid !in Names(requests[..n]);
      var rest := RequestIsARun(w, stores[n], stores[n + 1], r, fts, wire);
      acts := before + rest;
      PlayOn(DAWN, before, rest);
      assert Names(requests[..n]) + NameOf(r) <= Names(requests);
    }
  }

  // For one: whatever it was asked, the class never holds more than its limits, never leaves a hole
  // above its boundary, trusts only an index that agrees, and issues no reader what is not there.
  lemma LivesKeep(stores: seq<Store>, requests: seq<Request>, fts: bool, wire: (int, Entry) -> nat, q: int, c: string)
    requires Life(stores, requests, fts, wire)
    ensures var s := stores[|stores| - 1];
      && |s.entries| <= 5000 && Usage(s) <= 33554432 && |s.readers| <= 256 && |s.readers| + |s.graves| <= 1280
      && (s.floor < q <= s.head ==> q in s.entries) && (q in s.entries ==> 1 <= q <= s.head)
      && (IndexUsable(s, fts) ==> s.search == map p | p in s.entries :: s.entries[p].body)
      && (c in s.readers ==> 0 <= s.readers[c].cursor <= s.readers[c].issued <= s.head)
  {
    hide Life, Play, Usage;
    var acts := LivesAreRuns(stores, requests, fts, wire);
    BudgetsHold(acts);
    NoHoles(acts, q);
    TrustedIndexAgrees(acts);
    CursorCovered(acts, c, 0);
  }

  lemma Opens(fts: bool)
    ensures Play(DAWN, if fts then [Start(true), Settle] else [Start(false)]) == World(Opened(NEW, fts), Running(fts), 0, BLANK)
  {
    if fts {
      OneAct(DAWN, Start(true));
      OneAct(Do(DAWN, Start(true)), Settle);
      PlayOn(DAWN, [Start(true)], [Settle]);
      assert [Start(true)] + [Settle] == [Start(true), Settle];
    } else {
      OneAct(DAWN, Start(false));
    }
  }
}
