/** net/TimerQueue and net/Timer: deadline-ordered timers, in integer microseconds
    of a clock that never runs backwards. */
module TimerQueues {
  import opened Text

  type TimerId = nat

  const MICROS_PER_SECOND := 1_000_000

  datatype Timer = Timer(expiration: int, repeat: bool, interval: int)

  datatype Entry = Entry(deadline: int, id: TimerId)

  /** `heap` holds the Timer objects not yet deleted. A created timer waits in
      `inFlight` until `addTimer` runs; `expired` is the rest of the batch and
      `running` the entry whose callback has the floor. `cutoff` is the clock
      reading of the last `getExpiredTimers`. */
  datatype Queue = Queue(heap: map<TimerId, Timer>, created: set<TimerId>, inFlight: multiset<TimerId>,
                         timers: seq<Entry>, expired: seq<Entry>, running: Option<Entry>,
                         rejected: multiset<TimerId>, freed: multiset<TimerId>, clock: int, cutoff: int)

  function NewQueue(now: int): Queue {
    Queue(map[], {}, multiset{}, [], [], None, multiset{}, multiset{}, now, now)
  }

  // ------------------------------------------------------------ specification

  /** `multimap::insert`: behind the entries with the same deadline. */
  function Insert(s: seq<Entry>, e: Entry): (r: seq<Entry>)
    ensures |r| == |s| + 1
  {
    if s == [] || e.deadline < s[0].deadline then [e] + s else [s[0]] + Insert(s[1..], e)
  }

  /** `lower_bound`: how many entries have a deadline before `now`. */
  function Due(s: seq<Entry>, now: int): (k: nat)
    ensures k <= |s|
  {
    if s == [] || s[0].deadline >= now then 0 else 1 + Due(s[1..], now)
  }

  datatype Event =
    | Create(id: TimerId, timer: Timer)
    | Add(id: TimerId, now: int)
    | Expire(now: int)
    | Begin(now: int)
    | Finish(nowReset: int, nowAdd: int)

  predicate Possible(q: Queue, e: Event) {
    match e
    case Create(id, _) => id !in q.created
    case Add(id, now) => id in q.inFlight && id in q.heap && q.clock <= now
    case Expire(now) => q.expired == [] && q.running.None? && q.clock <= now
    case Begin(now) => q.expired != [] && q.running.None? && q.expired[0].id in q.heap && q.clock <= now
    case Finish(nowReset, nowAdd) =>
      q.running.Some? && q.running.value.id in q.heap && q.clock <= nowReset <= nowAdd
  }

  /** `addTimer`, for a timer that is nowhere else. */
  function Added(q: Queue, id: TimerId, now: int): Queue
    requires id in q.heap
  {
    var deadline := q.heap[id].expiration;
    if deadline < now then q.(rejected := q.rejected + multiset{id}, clock := now)
    else q.(timers := Insert(q.timers, Entry(deadline, id)), clock := now)
  }

  function Rearmed(t: Timer, now: int): Timer {
    t.(expiration := now + MICROS_PER_SECOND * t.interval)
  }

  function Step(q: Queue, e: Event): Queue
    requires Possible(q, e)
  {
    match e
    case Create(id, timer) =>
      q.(heap := q.heap[id := timer], created := q.created + {id}, inFlight := q.inFlight + multiset{id})
    case Add(id, now) => Added(q.(inFlight := q.inFlight - multiset{id}), id, now)
    case Expire(now) =>
      if q.timers == [] then q
      else
        var k := Due(q.timers, now);
        q.(expired := q.timers[..k], timers := q.timers[k..], clock := now, cutoff := now)
    case Begin(now) =>
      var entry := q.expired[0];
      q.(expired := q.expired[1..], running := Some(entry), clock := now)
    case Finish(nowReset, nowAdd) =>
      var id := q.running.value.id;
      var idle := q.(running := None, clock := nowAdd);
      if q.heap[id].repeat then Added(idle.(heap := q.heap[id := Rearmed(q.heap[id], nowReset)]), id, nowAdd)
      else idle.(heap := q.heap - {id}, freed := q.freed + multiset{id})
  }

  // ----------------------------------------------------------- the multimap

  predicate Sorted(s: seq<Entry>) {
    forall i, j | 0 <= i < j < |s| :: s[i].deadline <= s[j].deadline
  }

  predicate NoneBefore(s: seq<Entry>, time: int) {
    forall i | 0 <= i < |s| :: s[i].deadline >= time
  }

  predicate AllBefore(s: seq<Entry>, time: int) {
    forall i | 0 <= i < |s| :: s[i].deadline < time
  }

  lemma {:induction false} InsertSorted(s: seq<Entry>, e: Entry, time: int)
    requires Sorted(s) && NoneBefore(s, time) && e.deadline >= time
    ensures Sorted(Insert(s, e)) && NoneBefore(Insert(s, e), time)
  {
    if s != [] && e.deadline >= s[0].deadline {
      var first := s[0].deadline;
      assert NoneBefore(s[1..], first) && NoneBefore(s[1..], time);
      InsertSorted(s[1..], e, first);
      InsertSorted(s[1..], e, time);
    }
  }

  lemma {:induction false} DueBoundary(s: seq<Entry>, now: int)
    ensures var k := Due(s, now);
            (k > 0 ==> s[k - 1].deadline < now) && (k < |s| ==> s[k].deadline >= now)
  {
    if s != [] && s[0].deadline < now { DueBoundary(s[1..], now); }
  }

  lemma DueTaken(s: seq<Entry>, now: int)
    requires Sorted(s)
    ensures AllBefore(s[..Due(s, now)], now)
  {
    DueBoundary(s, now);
    var k := Due(s, now);
    forall i | 0 <= i < k ensures s[..k][i].deadline < now { assert i < k - 1 ==> s[i].deadline <= s[k - 1].deadline; }
  }

  lemma DueLeft(s: seq<Entry>, now: int)
    requires Sorted(s)
    ensures NoneBefore(s[Due(s, now)..], now)
  {
    DueBoundary(s, now);
    var k := Due(s, now);
    forall i | 0 <= i < |s| - k ensures s[k..][i].deadline >= now {
      assert 0 < i ==> s[k].deadline <= s[k + i].deadline;
    }
  }

  /** The due entries are exactly those before `now`. */
  lemma DueSplits(s: seq<Entry>, now: int)
    requires Sorted(s)
    ensures var k := Due(s, now);
            && AllBefore(s[..k], now) && NoneBefore(s[k..], now)
            && Sorted(s[..k]) && Sorted(s[k..]) && s[..k] + s[k..] == s
  {
    DueTaken(s, now);
    DueLeft(s, now);
    SlicesSorted(s, Due(s, now));
  }

  lemma SlicesSorted(s: seq<Entry>, k: nat)
    requires Sorted(s) && k <= |s|
    ensures Sorted(s[..k]) && Sorted(s[k..])
  {
  }

  /** How often `x` occurs among the entries. */
  function Occ(s: seq<Entry>, x: TimerId): nat {
    if s == [] then 0 else (if s[0].id == x then 1 else 0) + Occ(s[1..], x)
  }

  lemma {:induction false} OccInsert(s: seq<Entry>, e: Entry, x: TimerId)
    ensures Occ(Insert(s, e), x) == Occ(s, x) + (if e.id == x then 1 else 0)
  {
    if s == [] || e.deadline < s[0].deadline {
      assert ([e] + s)[1..] == s;
    } else {
      OccInsert(s[1..], e, x);
      assert ([s[0]] + Insert(s[1..], e))[1..] == Insert(s[1..], e);
    }
  }

  lemma {:induction false} OccSplit(s: seq<Entry>, k: nat, x: TimerId)
    requires k <= |s|
    ensures Occ(s, x) == Occ(s[..k], x) + Occ(s[k..], x)
  {
    if k == 0 {
      assert s[..0] == [] && s[0..] == s;
    } else {
      OccSplit(s[1..], k - 1, x);
      assert s[..k][1..] == s[1..][..k - 1] && s[k..] == s[1..][k - 1..];
    }
  }

  lemma {:induction false} OccMember(s: seq<Entry>, i: nat)
    requires i < |s|
    ensures Occ(s, s[i].id) >= 1
  {
    if i > 0 { OccMember(s[1..], i - 1); }
  }

  // ------------------------------------------------------------ conservation

  function RunningIs(q: Queue, x: TimerId): nat {
    if q.running.Some? && q.running.value.id == x then 1 else 0
  }

  /** In how many places timer `x` is: on its way, queued, due, running, rejected
      or freed. */
  function Places(q: Queue, x: TimerId): nat {
    q.inFlight[x] + Occ(q.timers, x) + Occ(q.expired, x) + RunningIs(q, x) + q.rejected[x] + q.freed[x]
  }

  /** Every created timer is in exactly one place, no other is anywhere, and an
      object exists exactly from its creation until it is freed. */
  ghost predicate Conserved(q: Queue) {
    && (forall x :: Places(q, x) == if x in q.created then 1 else 0)
    && (forall x :: x in q.heap <==> x in q.created && q.freed[x] == 0)
  }

  lemma AddedPlaces(q: Queue, id: TimerId, now: int, x: TimerId)
    requires id in q.heap
    ensures Places(Added(q, id, now), x) == Places(q, x) + (if id == x then 1 else 0)
  {
    OccInsert(q.timers, Entry(q.heap[id].expiration, id), x);
  }

  /** No timer is lost or duplicated by any step. */
  lemma StepKeepsPlaces(q: Queue, e: Event, x: TimerId)
    requires Possible(q, e)
    ensures Places(Step(q, e), x) == Places(q, x) + (if e.Create? && e.id == x then 1 else 0)
  {
    match e
    case Create(id, timer) =>
    case Add(id, now) =>
      AddedPlaces(q.(inFlight := q.inFlight - multiset{id}), id, now, x);
    case Expire(now) =>
      OccSplit(q.timers, Due(q.timers, now), x);
    case Begin(now) =>
    case Finish(nowReset, nowAdd) => FinishKeepsPlaces(q, nowReset, nowAdd, x);
  }

  lemma FinishKeepsPlaces(q: Queue, nowReset: int, nowAdd: int, x: TimerId)
    requires Possible(q, Finish(nowReset, nowAdd))
    ensures Places(Step(q, Finish(nowReset, nowAdd)), x) == Places(q, x)
  {
    var id := q.running.value.id;
    if q.heap[id].repeat {
      AddedPlaces(q.(running := None, clock := nowAdd, heap := q.heap[id := Rearmed(q.heap[id], nowReset)]),
                  id, nowAdd, x);
    }
  }

  lemma StepConserves(q: Queue, e: Event)
    requires Conserved(q) && Possible(q, e)
    ensures Conserved(Step(q, e))
  {
    var q' := Step(q, e);
    forall x ensures Places(q', x) == if x in q'.created then 1 else 0 { StepKeepsPlaces(q, e, x); }
    forall x ensures x in q'.heap <==> x in q'.created && q'.freed[x] == 0 {
      assert Places(q, x) == if x in q.created then 1 else 0;
    }
  }

  /** What waits, is due or runs still has its object, and waits only once. */
  lemma NeverFreedWhileQueued(q: Queue)
    requires Conserved(q)
    ensures forall i | 0 <= i < |q.timers| :: q.timers[i].id in q.heap
    ensures forall i | 0 <= i < |q.expired| :: q.expired[i].id in q.heap
    ensures q.running.Some? ==> q.running.value.id in q.heap
    ensures forall i, j | 0 <= i < j < |q.timers| :: q.timers[i].id != q.timers[j].id
  {
    forall i | 0 <= i < |q.timers| ensures q.timers[i].id in q.heap {
      OccMember(q.timers, i);
      assert Places(q, q.timers[i].id) >= 1;
    }
    forall i | 0 <= i < |q.expired| ensures q.expired[i].id in q.heap {
      OccMember(q.expired, i);
      assert Places(q, q.expired[i].id) >= 1;
    }
    if q.running.Some? { assert Places(q, q.running.value.id) >= 1; }
    forall i, j | 0 <= i < j < |q.timers| ensures q.timers[i].id != q.timers[j].id {
      var id := q.timers[i].id;
      OccSplit(q.timers, j, id);
      assert q.timers[..j][i] == q.timers[i] && q.timers[j..][0] == q.timers[j];
      OccMember(q.timers[..j], i);
      OccMember(q.timers[j..], 0);
      assert Places(q, id) <= 1;
    }
  }

  // ------------------------------------------------------------ what is observed

  /** One callback run: of which timer, when it was due, when it ran, and after how
      many expiries of the timer descriptor. */
  datatype Shot = Shot(id: TimerId, due: int, at: int, round: nat)

  /** What the events alone say: each timer as it was created, and when it is due: at
      first as created, then a whole number of seconds after each of its runs. */
  datatype Watch = Watch(made: map<TimerId, Timer>, due: map<TimerId, int>, current: Option<TimerId>,
                         rounds: nat, shots: seq<Shot>)

  const NEW_WATCH := Watch(map[], map[], None, 0, [])

  /** Of the queue it takes only which timer's callback is run. */
  function Watched(w: Watch, q: Queue, e: Event): Watch
    requires Possible(q, e)
  {
    match e
    case Create(id, timer) => w.(made := w.made[id := timer], due := w.due[id := timer.expiration])
    case Add(_, _) => w
    case Expire(_) => w.(rounds := w.rounds + 1)
    case Begin(now) =>
      var id := q.expired[0].id;
      w.(current := Some(id), shots := w.shots + [Shot(id, if id in w.due then w.due[id] else 0, now, w.rounds)])
    case Finish(nowReset, _) =>
      if w.current.Some? && w.current.value in w.made && w.made[w.current.value].repeat then
        var id := w.current.value;
        w.(current := None, due := w.due[id := nowReset + 1_000_000 * w.made[id].interval])
      else w.(current := None)
  }

  // -------------------------------------------------- queued under the right time

  predicate EntryDue(e: Entry, heap: map<TimerId, Timer>) {
    e.id in heap && e.deadline == heap[e.id].expiration
  }

  predicate AllDue(s: seq<Entry>, heap: map<TimerId, Timer>) {
    forall i | 0 <= i < |s| :: EntryDue(s[i], heap)
  }

  /** Whatever is queued, due or running is so under its own expiration. */
  predicate DueInv(q: Queue) {
    AllDue(q.timers, q.heap) && AllDue(q.expired, q.heap) && (q.running.Some? ==> EntryDue(q.running.value, q.heap))
  }

  predicate AsMade(heap: map<TimerId, Timer>, w: Watch, id: TimerId) {
    id in heap && id in w.made && id in w.due && heap[id] == w.made[id].(expiration := w.due[id])
  }

  /** And the timers on the heap are as the events made them. */
  predicate WatchInv(q: Queue, w: Watch) {
    && w.made.Keys == q.created && w.due.Keys == q.created
    && (forall id | id in q.heap :: AsMade(q.heap, w, id))
    && w.current == (if q.running.Some? then Some(q.running.value.id) else None)
  }

  lemma {:induction false} InsertDue(s: seq<Entry>, e: Entry, heap: map<TimerId, Timer>)
    requires AllDue(s, heap) && EntryDue(e, heap)
    ensures AllDue(Insert(s, e), heap)
  {
    if s != [] && e.deadline >= s[0].deadline { InsertDue(s[1..], e, heap); }
  }

  /** Changing one timer does not concern entries of others. */
  lemma OthersDue(s: seq<Entry>, heap: map<TimerId, Timer>, heap': map<TimerId, Timer>, id: TimerId)
    requires AllDue(s, heap) && Occ(s, id) == 0
    requires forall x | x in heap && x != id :: x in heap' && heap'[x] == heap[x]
    ensures AllDue(s, heap')
  {
    forall i | 0 <= i < |s| ensures EntryDue(s[i], heap') {
      OccMember(s, i);
      assert EntryDue(s[i], heap);
    }
  }

  lemma AddedDue(q: Queue, id: TimerId, now: int)
    requires DueInv(q) && id in q.heap
    ensures DueInv(Added(q, id, now))
  {
    if q.heap[id].expiration >= now { InsertDue(q.timers, Entry(q.heap[id].expiration, id), q.heap); }
  }

  lemma CreateDue(q: Queue, id: TimerId, timer: Timer)
    requires Conserved(q) && DueInv(q) && Possible(q, Create(id, timer))
    ensures DueInv(Step(q, Create(id, timer)))
  {
    assert Places(q, id) == 0;
    OthersDue(q.timers, q.heap, q.heap[id := timer], id);
    OthersDue(q.expired, q.heap, q.heap[id := timer], id);
  }

  lemma FinishDue(q: Queue, nowReset: int, nowAdd: int)
    requires Conserved(q) && DueInv(q) && Possible(q, Finish(nowReset, nowAdd))
    ensures DueInv(Step(q, Finish(nowReset, nowAdd)))
  {
    var id := q.running.value.id;
    var heap := if q.heap[id].repeat then q.heap[id := Rearmed(q.heap[id], nowReset)] else q.heap - {id};
    assert Places(q, id) == 1;
    OthersDue(q.timers, q.heap, heap, id);
    OthersDue(q.expired, q.heap, heap, id);
    if q.heap[id].repeat { AddedDue(q.(running := None, clock := nowAdd, heap := heap), id, nowAdd); }
  }

  lemma StepKeepsDue(q: Queue, e: Event)
    requires Conserved(q) && DueInv(q) && Possible(q, e)
    ensures DueInv(Step(q, e))
  {
    match e
    case Create(id, timer) => CreateDue(q, id, timer);
    case Add(id, now) => AddedDue(q.(inFlight := q.inFlight - multiset{id}), id, now);
    case Expire(now) =>
    case Begin(now) =>
    case Finish(nowReset, nowAdd) => FinishDue(q, nowReset, nowAdd);
  }

  lemma FinishKeepsWatch(q: Queue, w: Watch, nowReset: int, nowAdd: int)
    requires WatchInv(q, w) && Possible(q, Finish(nowReset, nowAdd))
    ensures WatchInv(Step(q, Finish(nowReset, nowAdd)), Watched(w, q, Finish(nowReset, nowAdd)))
  {
    var q', w' := Step(q, Finish(nowReset, nowAdd)), Watched(w, q, Finish(nowReset, nowAdd));
    assert AsMade(q.heap, w, q.running.value.id);
    forall id | id in q'.heap ensures AsMade(q'.heap, w', id) { assert AsMade(q.heap, w, id); }
  }

  lemma StepKeepsWatch(q: Queue, w: Watch, e: Event)
    requires WatchInv(q, w) && Possible(q, e)
    ensures WatchInv(Step(q, e), Watched(w, q, e))
  {
    match e
    case Create(id, timer) =>
      var q', w' := Step(q, e), Watched(w, q, e);
      forall x | x in q'.heap ensures AsMade(q'.heap, w', x) { assert x != id ==> AsMade(q.heap, w, x); }
    case Finish(nowReset, nowAdd) => FinishKeepsWatch(q, w, nowReset, nowAdd);
    case _ =>
  }

  // ------------------------------------------------------------- global order

  /** Earlier shots come first: due times never decrease, and strictly increase from
      one expiry to the next. */
  predicate Ordered(a: Shot, b: Shot) {
    a.round <= b.round && a.due <= b.due && (a.round < b.round ==> a.due < b.due)
  }

  /** Nothing that still waits is due before what has been taken. */
  predicate QueueInv(q: Queue) {
    && q.cutoff <= q.clock
    && Sorted(q.timers) && NoneBefore(q.timers, q.cutoff)
    && Sorted(q.expired) && AllBefore(q.expired, q.cutoff)
  }

  predicate ShotsInv(q: Queue, w: Watch) {
    && (forall i, j | 0 <= i < j < |w.shots| :: Ordered(w.shots[i], w.shots[j]))
    && (forall i | 0 <= i < |w.shots| :: ShotPast(w.shots[i], q.cutoff, w.rounds))
    && (forall i, j | 0 <= i < |w.shots| && 0 <= j < |q.expired| :: NotAfter(w.shots[i], q.expired[j], w.rounds))
  }

  predicate ShotPast(f: Shot, cutoff: int, rounds: nat) {
    f.due < f.at && f.due < cutoff && f.round <= rounds
  }

  predicate NotAfter(f: Shot, e: Entry, rounds: nat) {
    f.due <= e.deadline && (f.round < rounds ==> f.due < e.deadline)
  }

  lemma AddedOrders(q: Queue, id: TimerId, now: int)
    requires QueueInv(q) && id in q.heap && q.clock <= now
    ensures QueueInv(Added(q, id, now))
  {
    if q.heap[id].expiration >= now { InsertSorted(q.timers, Entry(q.heap[id].expiration, id), q.cutoff); }
  }

  lemma StepKeepsQueue(q: Queue, e: Event)
    requires QueueInv(q) && Possible(q, e)
    ensures QueueInv(Step(q, e))
  {
    match e
    case Create(id, timer) =>
    case Add(id, now) => AddedOrders(q.(inFlight := q.inFlight - multiset{id}), id, now);
    case Expire(now) => DueSplits(q.timers, now);
    case Begin(now) =>
    case Finish(nowReset, nowAdd) =>
      var id := q.running.value.id;
      if q.heap[id].repeat {
        AddedOrders(q.(running := None, clock := nowAdd, heap := q.heap[id := Rearmed(q.heap[id], nowReset)]),
                    id, nowAdd);
      }
  }

  /** `getExpiredTimers` takes the timers due before now, in order, and no other. */
  lemma ExpireTakesDue(q: Queue, w: Watch, now: int)
    requires QueueInv(q) && DueInv(q) && WatchInv(q, w) && Possible(q, Expire(now))
    ensures var q' := Step(q, Expire(now));
            && q'.expired + q'.timers == q.timers
            && (forall i | 0 <= i < |q'.expired| :: q'.expired[i].id in w.due && w.due[q'.expired[i].id] < now)
            && (forall i | 0 <= i < |q'.timers| :: q'.timers[i].id in w.due && w.due[q'.timers[i].id] >= now)
  {
    var k := Due(q.timers, now);
    DueSplits(q.timers, now);
    var taken, left := q.timers[..k], q.timers[k..];
    assert Step(q, Expire(now)).expired == taken && Step(q, Expire(now)).timers == left;
    SliceTimed(taken, q.heap, w);
    SliceTimed(left, q.heap, w);
    forall i | 0 <= i < |taken| ensures taken[i].id in w.due && w.due[taken[i].id] < now {
      assert taken[i].deadline < now;
    }
    forall i | 0 <= i < |left| ensures left[i].id in w.due && w.due[left[i].id] >= now {
      assert left[i].deadline >= now;
    }
  }

  lemma SliceTimed(s: seq<Entry>, heap: map<TimerId, Timer>, w: Watch)
    requires AllDue(s, heap) && forall id | id in heap :: AsMade(heap, w, id)
    ensures forall i | 0 <= i < |s| :: s[i].id in w.due && w.due[s[i].id] == s[i].deadline
  {
    forall i | 0 <= i < |s| ensures s[i].id in w.due && w.due[s[i].id] == s[i].deadline {
      assert EntryDue(s[i], heap) && AsMade(heap, w, s[i].id);
    }
  }

  lemma ExpireKeepsShots(q: Queue, w: Watch, now: int)
    requires QueueInv(q) && ShotsInv(q, w) && Possible(q, Expire(now))
    ensures ShotsInv(Step(q, Expire(now)), Watched(w, q, Expire(now)))
  {
    var q', w' := Step(q, Expire(now)), Watched(w, q, Expire(now));
    forall i | 0 <= i < |w'.shots| ensures ShotPast(w'.shots[i], q'.cutoff, w'.rounds) {
      assert ShotPast(w.shots[i], q.cutoff, w.rounds);
    }
    forall i, j | 0 <= i < |w'.shots| && 0 <= j < |q'.expired| ensures NotAfter(w'.shots[i], q'.expired[j], w'.rounds) {
      assert q'.expired[j] == q.timers[j] && ShotPast(w.shots[i], q.cutoff, w.rounds);
    }
  }

  lemma BeginKeepsShots(q: Queue, w: Watch, now: int, entry: Entry)
    requires QueueInv(q) && ShotsInv(q, w) && Possible(q, Begin(now)) && entry == q.expired[0]
    requires entry.id in w.due && entry.deadline == w.due[entry.id]
    ensures ShotsInv(Step(q, Begin(now)), Watched(w, q, Begin(now)))
  {
    var q', w' := Step(q, Begin(now)), Watched(w, q, Begin(now));
    forall i | 0 <= i < |w'.shots| ensures ShotPast(w'.shots[i], q'.cutoff, w'.rounds) {
      assert i < |w.shots| ==> ShotPast(w.shots[i], q.cutoff, w.rounds);
    }
    forall i, j | 0 <= i < |w'.shots| && 0 <= j < |q'.expired| ensures NotAfter(w'.shots[i], q'.expired[j], w'.rounds) {
      assert q'.expired[j] == q.expired[j + 1];
      assert i < |w.shots| ==> NotAfter(w.shots[i], q.expired[j + 1], w.rounds);
    }
    forall i, j | 0 <= i < j < |w'.shots| ensures Ordered(w'.shots[i], w'.shots[j]) {
      assert w'.shots[i] == w.shots[i] && NotAfter(w.shots[i], entry, w.rounds);
      assert ShotPast(w.shots[i], q.cutoff, w.rounds);
    }
  }

  lemma StepKeepsShots(q: Queue, w: Watch, e: Event)
    requires QueueInv(q) && DueInv(q) && WatchInv(q, w) && ShotsInv(q, w) && Possible(q, e)
    ensures ShotsInv(Step(q, e), Watched(w, q, e))
  {
    match e
    case Expire(now) => ExpireKeepsShots(q, w, now);
    case Begin(now) =>
      assert EntryDue(q.expired[0], q.heap) && AsMade(q.heap, w, q.expired[0].id);
      BeginKeepsShots(q, w, now, q.expired[0]);
    case _ =>
  }

  // ------------------------------------------------------------- whole runs

  predicate ShotTimer(q: Queue, w: Watch, f: Shot) {
    && f.id in q.created && f.id in w.made
    && (!w.made[f.id].repeat ==> q.freed[f.id] > 0 || RunningIs(q, f.id) == 1)
  }

  /** A one-shot that has run is running its only time or is gone. */
  predicate OnceInv(q: Queue, w: Watch) {
    && (forall i | 0 <= i < |w.shots| :: ShotTimer(q, w, w.shots[i]))
    && (forall i, j | 0 <= i < j < |w.shots| && w.shots[i].id == w.shots[j].id ::
          w.shots[i].id in w.made && w.made[w.shots[i].id].repeat)
  }

  lemma StaysShot(q: Queue, w: Watch, e: Event, f: Shot)
    requires Conserved(q) && WatchInv(q, w) && ShotTimer(q, w, f) && Possible(q, e)
    ensures ShotTimer(Step(q, e), Watched(w, q, e), f)
  {
    var id := f.id;
    assert Places(q, id) == 1;
    if e.Begin? { assert q.running.None?; }
    if e.Finish? { assert AsMade(q.heap, w, q.running.value.id); }
  }

  lemma StepFiresOnce(q: Queue, w: Watch, e: Event)
    requires Conserved(q) && WatchInv(q, w) && OnceInv(q, w) && Possible(q, e)
    ensures OnceInv(Step(q, e), Watched(w, q, e))
  {
    var q', w' := Step(q, e), Watched(w, q, e);
    forall i | 0 <= i < |w'.shots| ensures ShotTimer(q', w', w'.shots[i]) {
      if i < |w.shots| {
        assert ShotTimer(q, w, w.shots[i]);
        StaysShot(q, w, e, w.shots[i]);
      } else {
        assert Places(q, q.expired[0].id) >= 1 by { OccMember(q.expired, 0); }
      }
    }
    if e.Begin? {
      var id := q.expired[0].id;
      OccMember(q.expired, 0);
      assert Places(q, id) <= 1;
      forall i, j | 0 <= i < j < |w'.shots| && w'.shots[i].id == w'.shots[j].id
        ensures w'.shots[i].id in w'.made && w'.made[w'.shots[i].id].repeat
      {
        assert ShotTimer(q, w, w.shots[i]);
      }
    } else {
      assert forall i | 0 <= i < |w.shots| :: ShotTimer(q, w, w.shots[i]);
    }
  }

  ghost predicate Inv(q: Queue, w: Watch) {
    Conserved(q) && QueueInv(q) && DueInv(q) && WatchInv(q, w) && ShotsInv(q, w) && OnceInv(q, w)
  }

  predicate PossibleRun(q: Queue, run: seq<Event>)
    decreases |run|
  {
    run == [] || (Possible(q, run[0]) && PossibleRun(Step(q, run[0]), run[1..]))
  }

  function After(q: Queue, run: seq<Event>): Queue
    requires PossibleRun(q, run)
    decreases |run|
  {
    if run == [] then q else After(Step(q, run[0]), run[1..])
  }

  function WatchAll(w: Watch, q: Queue, run: seq<Event>): Watch
    requires PossibleRun(q, run)
    decreases |run|
  {
    if run == [] then w else WatchAll(Watched(w, q, run[0]), Step(q, run[0]), run[1..])
  }

  lemma StepKeeps(q: Queue, w: Watch, e: Event)
    requires Inv(q, w) && Possible(q, e)
    ensures Inv(Step(q, e), Watched(w, q, e))
  {
    StepConserves(q, e);
    StepKeepsQueue(q, e);
    StepKeepsDue(q, e);
    StepKeepsWatch(q, w, e);
    StepKeepsShots(q, w, e);
    StepFiresOnce(q, w, e);
  }

  lemma {:induction false} RunKeeps(q: Queue, w: Watch, run: seq<Event>)
    requires Inv(q, w) && PossibleRun(q, run)
    ensures Inv(After(q, run), WatchAll(w, q, run))
    decreases |run|
  {
    if run != [] {
      StepKeeps(q, w, run[0]);
      RunKeeps(Step(q, run[0]), Watched(w, q, run[0]), run[1..]);
    }
  }

  /** Over a whole run, whatever callbacks add in between: callbacks run in the order
      in which their timers are due, strictly later from one expiry to the next, never
      at or before the time they are due; and a timer created without repetition runs
      once. Due is what the timer was created for, and after each run of a repeating
      one its whole seconds from then. */
  lemma GlobalTimerOrder(start: int, run: seq<Event>)
    requires PossibleRun(NewQueue(start), run)
    ensures var w := WatchAll(NEW_WATCH, NewQueue(start), run);
            && (forall i | 0 <= i < |w.shots| :: w.shots[i].due < w.shots[i].at)
            && (forall i, j | 0 <= i < j < |w.shots| :: Ordered(w.shots[i], w.shots[j]))
            && (forall i, j | 0 <= i < j < |w.shots| && w.shots[i].id == w.shots[j].id ::
                  w.shots[i].id in w.made && w.made[w.shots[i].id].repeat)
  {
    RunKeeps(NewQueue(start), NEW_WATCH, run);
    var q, w := After(NewQueue(start), run), WatchAll(NEW_WATCH, NewQueue(start), run);
    forall i | 0 <= i < |w.shots| ensures w.shots[i].due < w.shots[i].at {
      assert ShotPast(w.shots[i], q.cutoff, w.rounds);
    }
  }

  /** And at every moment of it, whatever is queued, due or running is there under the
      time at which it is due. */
  lemma QueuedWhenDue(start: int, run: seq<Event>)
    requires PossibleRun(NewQueue(start), run)
    ensures var q, w := After(NewQueue(start), run), WatchAll(NEW_WATCH, NewQueue(start), run);
            && (forall i | 0 <= i < |q.timers| :: At(q, w, q.timers[i]))
            && (forall i | 0 <= i < |q.expired| :: At(q, w, q.expired[i]))
            && (q.running.Some? ==> At(q, w, q.running.value))
  {
    RunKeeps(NewQueue(start), NEW_WATCH, run);
    var q, w := After(NewQueue(start), run), WatchAll(NEW_WATCH, NewQueue(start), run);
    SliceTimed(q.timers, q.heap, w);
    SliceTimed(q.expired, q.heap, w);
    assert forall i | 0 <= i < |q.timers| :: EntryDue(q.timers[i], q.heap);
    assert forall i | 0 <= i < |q.expired| :: EntryDue(q.expired[i], q.heap);
    assert q.running.Some? ==> AsMade(q.heap, w, q.running.value.id);
  }

  predicate At(q: Queue, w: Watch, e: Entry) {
    e.id in q.heap && e.id in w.due && e.deadline == q.heap[e.id].expiration == w.due[e.id]
  }

  /** Over a whole run every created timer is in exactly one place, and whatever is
      queued, due or running still has its object. */
  lemma TimersConserved(start: int, run: seq<Event>)
    requires PossibleRun(NewQueue(start), run)
    ensures var q, w := After(NewQueue(start), run), WatchAll(NEW_WATCH, NewQueue(start), run);
            && (forall x :: Places(q, x) == if x in w.made then 1 else 0)
            && (forall x | x in w.made :: x in q.heap <==> q.freed[x] == 0)
            && (forall i | 0 <= i < |q.timers| :: q.timers[i].id in q.heap)
            && (forall i, j | 0 <= i < j < |q.timers| :: q.timers[i].id != q.timers[j].id)
  {
    RunKeeps(NewQueue(start), NEW_WATCH, run);
    NeverFreedWhileQueued(After(NewQueue(start), run));
  }

  /** A timer handed over is queued exactly when it is not yet past. */
  lemma AddedIff(q: Queue, w: Watch, id: TimerId, now: int)
    requires Inv(q, w) && Possible(q, Add(id, now))
    ensures id in w.due
    ensures var q' := Step(q, Add(id, now));
            && Occ(q'.timers, id) == (if w.due[id] < now then 0 else 1)
            && q'.rejected[id] == (if w.due[id] < now then 1 else 0)
  {
    assert Places(q, id) == 1 && AsMade(q.heap, w, id);
    OccInsert(q.timers, Entry(q.heap[id].expiration, id), id);
  }

  /** A timer created to repeat, when its callback has run, waits for its next turn
      exactly when the clock has not passed the new time by the time `addTimer` looks;
      if it has, the timer is neither queued nor freed again. */
  lemma RearmedIff(q: Queue, w: Watch, nowReset: int, nowAdd: int)
    requires Inv(q, w) && Possible(q, Finish(nowReset, nowAdd))
    requires w.current.Some? && w.current.value in w.made && w.made[w.current.value].repeat
    ensures var id := w.current.value;
            var late := nowAdd - nowReset > 1_000_000 * w.made[id].interval;
            var q' := Step(q, Finish(nowReset, nowAdd));
            && Occ(q'.timers, id) == (if late then 0 else 1)
            && q'.rejected[id] == (if late then 1 else 0)
            && id in q'.heap
  {
    var id := q.running.value.id;
    assert Places(q, id) == 1 && AsMade(q.heap, w, id);
    OccInsert(q.timers, Entry(nowReset + MICROS_PER_SECOND * q.heap[id].interval, id), id);
  }

  /** Such a run, for a repeater whose interval of less than a second became 0: one
      microsecond between the two clock readings, and nobody knows the timer any more. */
  lemma RepeaterLost(id: TimerId, t: Timer)
    requires t == Timer(5, true, 0)
    ensures var run := [Create(id, t), Add(id, 0), Expire(6), Begin(6), Finish(6, 7)];
            && PossibleRun(NewQueue(0), run)
            && var q := After(NewQueue(0), run);
               && q.rejected[id] == 1 && id in q.heap && q.freed[id] == 0
               && q.timers == [] && q.expired == [] && q.running == None
  {
    var e := Entry(5, id);
    var q1 := Step(NewQueue(0), Create(id, t));
    var q2 := Step(q1, Add(id, 0));
    assert q2.timers == [e];
    assert [e][1..] == [] && Due([e], 6) == 1;
    var q3 := Step(q2, Expire(6));
    assert q3.expired == [e] && q3.timers == [];
    var q4 := Step(q3, Begin(6));
    var q5 := Step(q4, Finish(6, 7));
    assert After(q5, []) == q5;
    Prepend(q4, Finish(6, 7), []);
    Prepend(q3, Begin(6), [Finish(6, 7)]);
    Prepend(q2, Expire(6), [Begin(6), Finish(6, 7)]);
    Prepend(q1, Add(id, 0), [Expire(6), Begin(6), Finish(6, 7)]);
    Prepend(NewQueue(0), Create(id, t), [Add(id, 0), Expire(6), Begin(6), Finish(6, 7)]);
  }

  lemma Prepend(q: Queue, e: Event, rest: seq<Event>)
    requires Possible(q, e) && PossibleRun(Step(q, e), rest)
    ensures PossibleRun(q, [e] + rest) && After(q, [e] + rest) == After(Step(q, e), rest)
  {
    assert ([e] + rest)[1..] == rest;
  }

  // ----------------------------------------------------------- implementation

  /** One turn of the loop in `resetTimers`: when the callback runs, the timers it
      adds, and the two clock readings behind it. */
  datatype Turn = Turn(at: int, adds: seq<Event>, nowReset: int, nowAdd: int)

  predicate TurnOk(t: Turn) {
    forall i | 0 <= i < |t.adds| :: t.adds[i].Create? || t.adds[i].Add?
  }

  function TurnEvents(t: Turn): seq<Event> {
    [Begin(t.at)] + t.adds + [Finish(t.nowReset, t.nowAdd)]
  }

  function TurnsEvents(turns: seq<Turn>): seq<Event> {
    if turns == [] then [] else TurnEvents(turns[0]) + TurnsEvents(turns[1..])
  }

  lemma {:induction false} RunSplits(q: Queue, a: seq<Event>, b: seq<Event>)
    requires PossibleRun(q, a + b)
    ensures PossibleRun(q, a) && PossibleRun(After(q, a), b)
    ensures After(q, a + b) == After(After(q, a), b)
    decreases |a|
  {
    if a == [] {
      assert a + b == b;
    } else {
      assert (a + b)[1..] == a[1..] + b;
      RunSplits(Step(q, a[0]), a[1..], b);
    }
  }

  /** The place is behind everything that is not later. */
  lemma {:induction false} InsertAt(s: seq<Entry>, k: nat, e: Entry)
    requires k <= |s| && (k < |s| ==> e.deadline < s[k].deadline)
    requires forall i | 0 <= i < k :: s[i].deadline <= e.deadline
    ensures Insert(s, e) == s[..k] + [e] + s[k..]
  {
    if k > 0 {
      InsertAt(s[1..], k - 1, e);
      assert s[1..][..k - 1] == s[1..k] && s[1..][k - 1..] == s[k..];
      assert s[..k] == [s[0]] + s[1..k];
    }
  }

  class TimerQueue {
    var heap: map<TimerId, Timer>
    var timers: seq<Entry>
    var expiredTimers: seq<Entry>
    ghost var created: set<TimerId>
    ghost var inFlight: multiset<TimerId>
    ghost var running: Option<Entry>
    ghost var rejected: multiset<TimerId>
    ghost var freed: multiset<TimerId>
    ghost var clock: int
    ghost var cutoff: int

    ghost function View(): Queue
      reads this
    {
      Queue(heap, created, inFlight, timers, expiredTimers, running, rejected, freed, clock, cutoff)
    }

    constructor (ghost now: int)
      ensures View() == NewQueue(now)
    {
      heap, timers, expiredTimers := map[], [], [];
      created, inFlight, running, rejected, freed := {}, multiset{}, None, multiset{}, multiset{};
      clock, cutoff := now, now;
    }

    /** `new Timer`, before `addTimerInLoop` hands it over. */
    method NewTimer(id: TimerId, timer: Timer)
      requires Possible(View(), Create(id, timer))
      modifies this
      ensures View() == Step(old(View()), Create(id, timer))
    {
      heap := heap[id := timer];
      created := created + {id};
      inFlight := inFlight + multiset{id};
    }

    method AddTimer(id: TimerId, now: int) returns (ok: bool)
      requires id in heap
      modifies this
      ensures View() == Added(old(View()), id, now)
      ensures ok <==> heap[id].expiration >= now
    {
      clock := now;
      var deadline := heap[id].expiration;
      if deadline < now {
        rejected := rejected + multiset{id};
        return false;
      }
      InsertEntry(Entry(deadline, id));
      ok := true;
    }

    /** The multimap's insertion. */
    method InsertEntry(e: Entry)
      modifies `timers
      ensures timers == Insert(old(timers), e)
    {
      var k := 0;
      while k < |timers| && timers[k].deadline <= e.deadline
        invariant 0 <= k <= |timers|
        invariant forall i | 0 <= i < k :: timers[i].deadline <= e.deadline
      {
        k := k + 1;
      }
      InsertAt(timers, k, e);
      timers := timers[..k] + [e] + timers[k..];
    }

    /** `addTimer` for a timer that was on its way. */
    method AddInFlight(id: TimerId, now: int) returns (ok: bool)
      requires Possible(View(), Add(id, now))
      modifies this
      ensures View() == Step(old(View()), Add(id, now))
    {
      inFlight := inFlight - multiset{id};
      ok := AddTimer(id, now);
    }

    method GetExpiredTimers(now: int)
      requires Possible(View(), Expire(now))
      modifies this
      ensures View() == Step(old(View()), Expire(now))
      ensures timers != [] ==> timers[0].deadline >= now
    {
      expiredTimers := [];
      if timers != [] {
        var k := LowerBound(now);
        expiredTimers, timers := timers[..k], timers[k..];
        clock, cutoff := now, now;
      }
    }

    method LowerBound(now: int) returns (k: nat)
      ensures k <= |timers| && k == Due(timers, now)
      ensures k < |timers| ==> timers[k].deadline >= now
    {
      k := 0;
      while k < |timers| && timers[k].deadline < now
        invariant 0 <= k <= |timers|
        invariant Due(timers, now) == k + Due(timers[k..], now)
      {
        assert timers[k..][1..] == timers[k + 1..];
        k := k + 1;
      }
    }

    /** The timer channel's read callback: one whole batch. */
    method HandleRead(now: int, turns: seq<Turn>)
      requires Possible(View(), Expire(now)) && |turns| == |Step(View(), Expire(now)).expired|
      requires forall i | 0 <= i < |turns| :: TurnOk(turns[i])
      requires PossibleRun(Step(View(), Expire(now)), TurnsEvents(turns))
      modifies this
      ensures View() == After(Step(old(View()), Expire(now)), TurnsEvents(turns)) && expiredTimers == []
    {
      GetExpiredTimers(now);
      ResetTimers(turns);
    }

    /** `resetTimers`: run each expired timer, then re-arm it or free it. */
    method ResetTimers(turns: seq<Turn>)
      requires |turns| == |expiredTimers| && (forall i | 0 <= i < |turns| :: TurnOk(turns[i]))
      requires PossibleRun(View(), TurnsEvents(turns))
      modifies this
      ensures View() == After(old(View()), TurnsEvents(turns)) && expiredTimers == []
    {
      var i := 0;
      while i < |turns|
        invariant 0 <= i <= |turns| && |expiredTimers| == |turns| - i
        invariant PossibleRun(View(), TurnsEvents(turns[i..]))
        invariant After(View(), TurnsEvents(turns[i..])) == After(old(View()), TurnsEvents(turns))
      {
        assert turns[i..][1..] == turns[i + 1..];
        RunSplits(View(), TurnEvents(turns[i]), TurnsEvents(turns[i + 1..]));
        TakeTurn(turns[i]);
        i := i + 1;
      }
      assert turns[i..] == [];
    }

    method TakeTurn(t: Turn)
      requires TurnOk(t) && PossibleRun(View(), TurnEvents(t))
      modifies this
      ensures View() == After(old(View()), TurnEvents(t))
      ensures |expiredTimers| == |old(expiredTimers)| - 1
    {
      assert TurnEvents(t)[1..] == t.adds + [Finish(t.nowReset, t.nowAdd)];
      RunSplits(Step(View(), Begin(t.at)), t.adds, [Finish(t.nowReset, t.nowAdd)]);
      var entry := BeginFirst(t.at);
      RunCallback(t.adds);
      assert [Finish(t.nowReset, t.nowAdd)][1..] == [];
      FinishFirst(entry, t.nowReset, t.nowAdd);
    }

    method BeginFirst(now: int) returns (entry: Entry)
      requires Possible(View(), Begin(now))
      modifies this
      ensures View() == Step(old(View()), Begin(now)) && running == Some(entry)
    {
      entry := expiredTimers[0];
      expiredTimers := expiredTimers[1..];
      running, clock := Some(entry), now;
    }

    /** A callback may create timers and add them; nothing else of the queue is open to it. */
    method RunCallback(adds: seq<Event>)
      requires (forall i | 0 <= i < |adds| :: adds[i].Create? || adds[i].Add?) && PossibleRun(View(), adds)
      modifies this
      ensures View() == After(old(View()), adds)
      ensures expiredTimers == old(expiredTimers) && running == old(running)
    {
      var i := 0;
      while i < |adds|
        invariant 0 <= i <= |adds|
        invariant expiredTimers == old(expiredTimers) && running == old(running)
        invariant PossibleRun(View(), adds[i..])
        invariant After(View(), adds[i..]) == After(old(View()), adds)
        decreases |adds| - i
      {
        assert adds[i..][1..] == adds[i + 1..];
        OneAdd(adds[i]);
        i := i + 1;
      }
      assert adds[i..] == [];
    }

    method OneAdd(e: Event)
      requires (e.Create? || e.Add?) && Possible(View(), e)
      modifies this
      ensures View() == Step(old(View()), e)
      ensures expiredTimers == old(expiredTimers) && running == old(running)
    {
      match e
      case Create(id, timer) => NewTimer(id, timer);
      case Add(id, now) => var _ := AddInFlight(id, now);
    }

    method FinishFirst(entry: Entry, nowReset: int, nowAdd: int)
      requires running == Some(entry) && Possible(View(), Finish(nowReset, nowAdd))
      modifies this
      ensures View() == Step(old(View()), Finish(nowReset, nowAdd)) && expiredTimers == old(expiredTimers)
    {
      var id := entry.id;
      running, clock := None, nowAdd;
      if heap[id].repeat {
        heap := heap[id := Rearmed(heap[id], nowReset)];
        var _ := AddTimer(id, nowAdd);
      } else {
        heap := heap - {id};
        freed := freed + multiset{id};
      }
    }
  }
}
