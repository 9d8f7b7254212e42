/** internal/activation: replay records. Activate, RotateLicenseKey, ExchangeRecoveryToken and RequestRecovery
    all look a request up, lock its credential, look it up again, and store the answer in the transaction that
    changes state. Requests, their crashes and the cleanup of expired records interleave freely; each request
    works with the time it read when it began. */
module Idempotency {
  import opened Basics

  type Credential = string
  type RequestHash = string
  type Response = string

  const LIFETIME: int := 24 * HOUR

  /** What a request locks: its credential, each endpoint in its own way. */
  datatype Resource = Resource(scope: string, credential: Credential)

  datatype Key = Key(resource: Resource, name: string)

  datatype Record = Record(requestHash: RequestHash, response: Response, createdAt: Time) {
    function ExpiresAt(): Time { createdAt + LIFETIME }
  }

  datatype Lookup = Missing | Conflict | Found(response: Response)

  /** loadIdempotency: only a record that has not expired by `now` is seen. */
  function Load(records: map<Key, Record>, key: Key, requestHash: RequestHash, now: Time): Lookup {
    if key !in records || records[key].ExpiresAt() <= now then Missing
    else if records[key].requestHash != requestHash then Conflict
    else Found(records[key].response)
  }

  /** The upsert of storeAndCommit: None when a live record is in the way. */
  function Store(records: map<Key, Record>, key: Key, record: Record): Option<map<Key, Record>> {
    if key in records && records[key].ExpiresAt() > record.createdAt then None else Some(records[key := record])
  }

  datatype Phase = Waiting | Locked | Cleared

  datatype Request = Request(key: Key, requestHash: RequestHash, now: Time, phase: Phase)

  /** A committed state change: the record it stored, and when it committed. */
  datatype Effect = Effect(key: Key, record: Record, at: Time)

  datatype Replay = Replay(key: Key, requestHash: RequestHash, now: Time, response: Response)

  type RequestId = nat

  datatype World = World(
    clock: Time, records: map<Key, Record>, locks: map<Resource, RequestId>, requests: map<RequestId, Request>,
    effects: seq<Effect>, replays: seq<Replay>)

  ghost predicate Init(w: World) {
    w.records == map[] && w.locks == map[] && w.requests == map[] && w.effects == [] && w.replays == []
  }

  datatype Action =
    | Begin(r: RequestId, key: Key, requestHash: RequestHash)
    | Lock(r: RequestId)
    | Reload(r: RequestId)
    | Commit(r: RequestId, response: Response)
    | Abort(r: RequestId)
    | Wait(clock: Time)
    | CleanUp(key: Key)

  predicate Enabled(w: World, a: Action) {
    match a
    case Begin(r, _, _) => r !in w.requests
    case Lock(r) => r in w.requests && w.requests[r].phase == Waiting && w.requests[r].key.resource !in w.locks
    case Reload(r) => r in w.requests && w.requests[r].phase == Locked
    case Commit(r, _) => r in w.requests && w.requests[r].phase == Cleared
    case Abort(r) => r in w.requests
    case Wait(clock) => clock >= w.clock
    case CleanUp(key) => key in w.records && w.records[key].ExpiresAt() <= w.clock
  }

  function Ended(w: World, r: RequestId): World
    requires r in w.requests
  {
    var held := if w.requests[r].phase == Waiting then {} else {w.requests[r].key.resource};
    w.(requests := w.requests - {r}, locks := w.locks - held)
  }

  function Replayed(w: World, key: Key, requestHash: RequestHash, now: Time, response: Response): World {
    w.(replays := w.replays + [Replay(key, requestHash, now, response)])
  }

  function Next(w: World, a: Action): World
    requires Enabled(w, a)
  {
    match a
    case Begin(r, key, requestHash) =>
      (match Load(w.records, key, requestHash, w.clock)
       case Missing => w.(requests := w.requests[r := Request(key, requestHash, w.clock, Waiting)])
       case Conflict => w
       case Found(response) => Replayed(w, key, requestHash, w.clock, response))
    case Lock(r) =>
      w.(requests := w.requests[r := w.requests[r].(phase := Locked)],
         locks := w.locks[w.requests[r].key.resource := r])
    case Reload(r) =>
      var q := w.requests[r];
      (match Load(w.records, q.key, q.requestHash, q.now)
       case Missing => w.(requests := w.requests[r := q.(phase := Cleared)])
       case Conflict => Ended(w, r)
       case Found(response) => Replayed(Ended(w, r), q.key, q.requestHash, q.now, response))
    case Commit(r, response) =>
      var q := w.requests[r];
      var record := Record(q.requestHash, response, q.now);
      (match Store(w.records, q.key, record)
       case None => Ended(w, r)
       case Some(stored) => Ended(w, r).(records := stored, effects := w.effects + [Effect(q.key, record, w.clock)]))
    case Abort(r) => Ended(w, r)
    case Wait(clock) => w.(clock := clock)
    case CleanUp(key) => w.(records := w.records - {key})
  }

  // ----- the invariant -----

  ghost predicate RequestInv(w: World, r: RequestId)
    requires r in w.requests
  {
    var q := w.requests[r];
    && q.now <= w.clock
    && (q.phase != Waiting <==> q.key.resource in w.locks && w.locks[q.key.resource] == r)
    && (q.phase == Cleared ==> Load(w.records, q.key, q.requestHash, q.now) == Missing)
  }

  predicate HoldsLock(w: World, c: Resource)
    requires c in w.locks
  {
    w.locks[c] in w.requests && w.requests[w.locks[c]].key.resource == c
  }

  ghost predicate RequestsInv(w: World) {
    && (forall r :: r in w.requests ==> RequestInv(w, r))
    && (forall c :: c in w.locks ==> HoldsLock(w, c))
  }

  /** An effect's record is still stored as it was, or its lifetime is over. */
  ghost predicate EffectInv(w: World, e: Effect) {
    e.record.createdAt <= e.at <= w.clock
      && (e.record.ExpiresAt() <= w.clock || (e.key in w.records && w.records[e.key] == e.record))
  }

  /** A replay is the answer of an effect of the same request, alive when it was looked up. */
  ghost predicate ReplayInv(w: World, p: Replay) {
    exists i :: 0 <= i < |w.effects| && w.effects[i].key == p.key && w.effects[i].record.requestHash == p.requestHash
                && w.effects[i].record.response == p.response && p.now < w.effects[i].record.ExpiresAt()
  }

  ghost predicate Stored(w: World, key: Key)
    requires key in w.records
  {
    exists i :: 0 <= i < |w.effects| && w.effects[i].key == key && w.effects[i].record == w.records[key]
  }

  ghost predicate Inv(w: World) {
    && RequestsInv(w)
    && (forall i :: 0 <= i < |w.effects| ==> EffectInv(w, w.effects[i]))
    && (forall i, j :: 0 <= i < j < |w.effects| && w.effects[i].key == w.effects[j].key ==>
          w.effects[i].record.ExpiresAt() <= w.effects[j].at)
    && (forall key :: key in w.records ==> Stored(w, key))
    && (forall i :: 0 <= i < |w.replays| ==> ReplayInv(w, w.replays[i]))
  }

  /** A request that found nothing under the lock of its credential finds nothing when it stores: nobody else
      could store under that credential, and cleanup only removes. So the transaction is never refused. */
  lemma ClearedRequestStores(w: World, r: RequestId, response: Response)
    requires Inv(w) && r in w.requests && w.requests[r].phase == Cleared
    ensures Store(w.records, w.requests[r].key, Record(w.requests[r].requestHash, response, w.requests[r].now)).Some?
  {
  }

  lemma FoundIsReplay(w: World, key: Key, requestHash: RequestHash, now: Time)
    requires Inv(w) && Load(w.records, key, requestHash, now).Found?
    ensures ReplayInv(w, Replay(key, requestHash, now, Load(w.records, key, requestHash, now).response))
  {
  }

  lemma CommitKeepsInv(w: World, r: RequestId, response: Response)
    requires Inv(w) && Enabled(w, Action.Commit(r, response))
    ensures Inv(Next(w, Action.Commit(r, response)))
  {
    ClearedRequestStores(w, r, response);
    CommitKeepsRequests(w, r, response);
    var w' := Next(w, Action.Commit(r, response));
    var q := w.requests[r];
    var effect := Effect(q.key, Record(q.requestHash, response, q.now), w.clock);
    assert RequestInv(w, r) && w'.effects[|w.effects|] == effect;
    hide ReplayInv, RequestsInv, Ended;
    forall i | 0 <= i < |w.effects|
      ensures EffectInv(w', w.effects[i]) && (w.effects[i].key == q.key ==> w.effects[i].record.ExpiresAt() <= w.clock)
    {
      assert EffectInv(w, w.effects[i]);
    }
    forall key | key in w'.records ensures Stored(w', key) {
      if key == q.key {
        assert w'.effects[|w.effects|].record == w'.records[key];
      } else {
        var i :| 0 <= i < |w.effects| && w.effects[i].key == key && w.effects[i].record == w.records[key];
        assert w'.effects[i] == w.effects[i];
      }
    }
    forall i | 0 <= i < |w.replays| ensures ReplayInv(w', w.replays[i]) {
      ReplayStays(w, w', w.replays[i]);
    }
    EndedKeepsTheRest(w, r);
  }

  lemma EndedKeepsTheRest(w: World, r: RequestId)
    requires r in w.requests
    ensures Ended(w, r) == w.(requests := Ended(w, r).requests, locks := Ended(w, r).locks)
  {
  }

  /** What is stored under the lock changes no other request's lookup. */
  lemma CommitKeepsRequests(w: World, r: RequestId, response: Response)
    requires RequestsInv(w) && Enabled(w, Action.Commit(r, response))
    ensures RequestsInv(Next(w, Action.Commit(r, response)))
  {
    var w' := Next(w, Action.Commit(r, response));
    EndingKeepsRequests(w, r);
    forall other | other in w'.requests ensures RequestInv(w', other) {
      assert RequestInv(w, r) && RequestInv(Ended(w, r), other) && RequestInv(w, other);
    }
    forall c | c in w'.locks ensures HoldsLock(w', c) {
      assert HoldsLock(Ended(w, r), c);
    }
  }

  lemma ReplayStays(w: World, w': World, p: Replay)
    requires ReplayInv(w, p) && w.effects <= w'.effects
    ensures ReplayInv(w', p)
  {
  }

  /** Ending a request releases its credential, on which every other request of that credential waits. */
  lemma EndingKeepsRequests(w: World, r: RequestId)
    requires RequestsInv(w) && r in w.requests
    ensures RequestsInv(Ended(w, r))
  {
  }

  lemma LockingKeepsRequests(w: World, r: RequestId)
    requires RequestsInv(w) && Enabled(w, Action.Lock(r))
    ensures RequestsInv(Next(w, Action.Lock(r)))
  {
  }

  /** A request moves on, or a new one begins, while the locks stay as they are. */
  lemma MovingKeepsRequests(w: World, w': World, r: RequestId)
    requires RequestsInv(w) && w'.locks == w.locks && w'.records == w.records && w'.clock == w.clock
    requires r in w'.requests && w'.requests == w.requests[r := w'.requests[r]]
    requires if r in w.requests then
               w'.requests[r].key == w.requests[r].key && Waiting !in {w.requests[r].phase, w'.requests[r].phase}
             else w'.requests[r].phase == Waiting
    requires var q := w'.requests[r];
             q.now <= w.clock && (q.phase == Cleared ==> Load(w.records, q.key, q.requestHash, q.now) == Missing)
    ensures RequestsInv(w')
  {
  }

  lemma OtherStepKeepsRequests(w: World, a: Action)
    requires RequestsInv(w) && Enabled(w, a) && !a.Commit?
    ensures RequestsInv(Next(w, a))
  {
    var w' := Next(w, a);
    if a.Lock? {
      LockingKeepsRequests(w, a.r);
    } else if (a.Abort? || a.Reload?) && a.r !in w'.requests {
      EndingKeepsRequests(w, a.r);
      assert w' == Ended(w, a.r).(replays := w'.replays);
      SameRequests(Ended(w, a.r), w');
    } else if a.Reload? || (a.Begin? && a.r in w'.requests) {
      assert a.Reload? ==> RequestInv(w, a.r);
      MovingKeepsRequests(w, w', a.r);
    } else {
      SameRequests(w, w');
    }
  }

  /** Later, and with fewer records, no request is worse off. */
  lemma SameRequests(w: World, w': World)
    requires RequestsInv(w) && w'.requests == w.requests && w'.locks == w.locks && w'.clock >= w.clock
    requires forall key :: key in w'.records ==> key in w.records && w'.records[key] == w.records[key]
    ensures RequestsInv(w')
  {
  }

  lemma OtherStepKeepsReplays(w: World, a: Action)
    requires Inv(w) && Enabled(w, a) && !a.Commit?
    ensures forall i :: 0 <= i < |Next(w, a).replays| ==> ReplayInv(Next(w, a), Next(w, a).replays[i])
  {
    hide RequestsInv, EffectInv, Stored, ReplayInv, Load;
    var w' := Next(w, a);
    forall i | 0 <= i < |w'.replays| ensures ReplayInv(w', w'.replays[i]) {
      if i < |w.replays| {
        ReplayStays(w, w', w.replays[i]);
      } else {
        var key := if a.Begin? then a.key else w.requests[a.r].key;
        var requestHash := if a.Begin? then a.requestHash else w.requests[a.r].requestHash;
        var now := if a.Begin? then w.clock else w.requests[a.r].now;
        FoundIsReplay(w, key, requestHash, now);
        ReplayStays(w, w', w'.replays[i]);
      }
    }
  }

  /** Every other step stores nothing. */
  lemma OtherStepKeepsInv(w: World, a: Action)
    requires Inv(w) && Enabled(w, a) && !a.Commit?
    ensures Inv(Next(w, a))
  {
    OtherStepKeepsRequests(w, a);
    OtherStepKeepsReplays(w, a);
    hide RequestsInv, ReplayInv, Ended, Load;
    var w' := Next(w, a);
    OnlyCommitsStore(w, a);
    forall key | key in w'.records ensures Stored(w', key) {
      assert Stored(w, key);
    }
    forall i | 0 <= i < |w.effects| ensures EffectInv(w', w'.effects[i]) {
      assert EffectInv(w, w.effects[i]);
    }
  }

  lemma OnlyCommitsStore(w: World, a: Action)
    requires Enabled(w, a) && !a.Commit?
    ensures var w' := Next(w, a);
            && w'.effects == w.effects && w'.clock >= w.clock
            && (a.CleanUp? || w'.records == w.records)
  {
  }

  // ----- every interleaving -----

  ghost predicate Step(w: World, w': World) {
    exists a :: Enabled(w, a) && w' == Next(w, a)
  }

  ghost predicate Run(run: seq<World>) {
    run != [] && Init(run[0]) && forall i :: 0 <= i < |run| - 1 ==> Step(run[i], run[i + 1])
  }

  lemma {:induction false} RunKeepsInv(run: seq<World>, i: nat)
    requires Run(run) && i < |run|
    ensures Inv(run[i])
    decreases i
  {
    hide Inv;
    if i == 0 {
      EmptyInv(run[0]);
    } else {
      RunKeepsInv(run, i - 1);
      assert Step(run[i - 1], run[i]);
      var a :| Enabled(run[i - 1], a) && run[i] == Next(run[i - 1], a);
      if a.Commit? {
        CommitKeepsInv(run[i - 1], a.r, a.response);
      } else {
        OtherStepKeepsInv(run[i - 1], a);
      }
    }
  }

  lemma EmptyInv(w: World)
    requires Init(w)
    ensures Inv(w)
  {
  }

  /** At most one state change per key commits within a record's lifetime. */
  lemma OneEffectPerLifetime(run: seq<World>, n: nat, i: nat, j: nat)
    requires Run(run) && n < |run| && i < j < |run[n].effects| && run[n].effects[i].key == run[n].effects[j].key
    ensures run[n].effects[j].at >= run[n].effects[i].record.createdAt + LIFETIME
  {
    RunKeepsInv(run, n);
  }

  /** Whatever is replayed is the stored answer of a state change for the same key and the same request, looked up
      within its lifetime. */
  lemma ReplaysAreStoredAnswers(run: seq<World>, n: nat, i: nat)
    requires Run(run) && n < |run| && i < |run[n].replays|
    ensures exists m :: 0 <= m < |run[n].effects| && run[n].effects[m].key == run[n].replays[i].key
                        && run[n].effects[m].record.requestHash == run[n].replays[i].requestHash
                        && run[n].effects[m].record.response == run[n].replays[i].response
                        && run[n].replays[i].now < run[n].effects[m].record.ExpiresAt()
  {
    RunKeepsInv(run, n);
    assert ReplayInv(run[n], run[n].replays[i]);
  }

  /** A record that has not expired is never overwritten or removed. */
  lemma LiveRecordStands(run: seq<World>, n: nat, key: Key)
    requires Run(run) && n + 1 < |run| && key in run[n].records && run[n].records[key].ExpiresAt() > run[n].clock
    ensures key in run[n + 1].records && run[n + 1].records[key] == run[n].records[key]
  {
    RunKeepsInv(run, n);
    assert Step(run[n], run[n + 1]);
    var a :| Enabled(run[n], a) && run[n + 1] == Next(run[n], a);
    StepKeepsLiveRecord(run[n], a, key);
  }

  lemma StepKeepsLiveRecord(w: World, a: Action, key: Key)
    requires Inv(w) && Enabled(w, a) && key in w.records && w.records[key].ExpiresAt() > w.clock
    ensures key in Next(w, a).records && Next(w, a).records[key] == w.records[key]
  {
    hide Stored, EffectInv, ReplayInv, HoldsLock;
    if a.Commit? {
      assert RequestInv(w, a.r);
    } else {
      OnlyCommitsStore(w, a);
    }
  }

  /** No request is ever refused because its replay changed while its credential was locked. */
  lemma StoringNeverFails(run: seq<World>, n: nat, r: RequestId, response: Response)
    requires Run(run) && n < |run| && Enabled(run[n], Action.Commit(r, response))
    ensures |Next(run[n], Action.Commit(r, response)).effects| == |run[n].effects| + 1
  {
    RunKeepsInv(run, n);
    ClearedRequestStores(run[n], r, response);
  }

  // ----- what a request is told -----

  /** Within the lifetime of a stored answer, the same request is told that answer and another under its key is told
      of the conflict; neither goes any further. */
  lemma LiveAnswerDecides(run: seq<World>, n: nat, i: nat, r: RequestId, requestHash: RequestHash)
    requires Run(run) && n < |run| && i < |run[n].effects| && r !in run[n].requests
    requires run[n].clock < run[n].effects[i].record.createdAt + LIFETIME
    ensures var w, effect := run[n], run[n].effects[i];
            var after := Next(w, Begin(r, effect.key, requestHash));
            && after.requests == w.requests && after.effects == w.effects && after.records == w.records
            && after.locks == w.locks
            && after.replays == w.replays + (if requestHash == effect.record.requestHash
                                             then [Replay(effect.key, requestHash, w.clock, effect.record.response)]
                                             else [])
  {
    RunKeepsInv(run, n);
    assert EffectInv(run[n], run[n].effects[i]);
  }

  /** So is one that was waiting for the lock while the answer was stored. */
  lemma WaitingRequestIsTold(run: seq<World>, n: nat, i: nat, r: RequestId)
    requires Run(run) && n < |run| && i < |run[n].effects| && Enabled(run[n], Reload(r))
    requires run[n].effects[i].key == run[n].requests[r].key
    requires run[n].clock < run[n].effects[i].record.createdAt + LIFETIME
    ensures var w, q, effect := run[n], run[n].requests[r], run[n].effects[i];
            var after := Next(w, Reload(r));
            && r !in after.requests && q.key.resource !in after.locks
            && after.effects == w.effects && after.records == w.records
            && after.replays == w.replays + (if q.requestHash == effect.record.requestHash
                                             then [Replay(q.key, q.requestHash, q.now, effect.record.response)]
                                             else [])
  {
    RunKeepsInv(run, n);
    assert EffectInv(run[n], run[n].effects[i]) && RequestInv(run[n], r);
  }

  /** A key with no stored answer in its lifetime. */
  ghost predicate Fresh(w: World, key: Key) {
    forall i :: 0 <= i < |w.effects| && w.effects[i].key == key ==> w.effects[i].record.createdAt + LIFETIME <= w.clock
  }

  /** Begun now, and left alone, the request locks its credential, still finds nothing, and commits; all that is left
      of it is its answer and its state change. */
  predicate RunsThrough(w: World, r: RequestId, key: Key, requestHash: RequestHash, response: Response) {
    && Enabled(w, Begin(r, key, requestHash))
    && var begun := Next(w, Begin(r, key, requestHash));
       && Enabled(begun, Lock(r))
       && var locked := Next(begun, Lock(r));
          && Enabled(locked, Reload(r))
          && var cleared := Next(locked, Reload(r));
             && Enabled(cleared, Action.Commit(r, response))
             && var record := Record(requestHash, response, w.clock);
                Next(cleared, Action.Commit(r, response))
                == w.(records := w.records[key := record], effects := w.effects + [Effect(key, record, w.clock)])
  }

  /** A request under a fresh key whose credential nobody has locked goes all the way. */
  lemma FreshRequestCommits(run: seq<World>, n: nat, r: RequestId, key: Key, requestHash: RequestHash,
                            response: Response)
    requires Run(run) && n < |run| && r !in run[n].requests && Fresh(run[n], key) && key.resource !in run[n].locks
    ensures RunsThrough(run[n], r, key, requestHash, response)
  {
    RunKeepsInv(run, n);
    NoLiveRecord(run[n], key);
    hide Inv, Fresh, Run, RunsThrough;
    FreeRequestCommits(run[n], r, key, requestHash, response);
  }

  lemma FreeRequestCommits(w: World, r: RequestId, key: Key, requestHash: RequestHash, response: Response)
    requires r !in w.requests && key.resource !in w.locks
    requires key in w.records ==> w.records[key].ExpiresAt() <= w.clock
    ensures RunsThrough(w, r, key, requestHash, response)
  {
    var request := Request(key, requestHash, w.clock, Waiting);
    var begun := Next(w, Begin(r, key, requestHash));
    assert begun == w.(requests := w.requests[r := request]);
    var locked := Next(begun, Lock(r));
    assert locked.requests == w.requests[r := request.(phase := Locked)];
    var cleared := Next(locked, Reload(r));
    assert cleared.requests == w.requests[r := request.(phase := Cleared)];
    var done := Next(cleared, Action.Commit(r, response));
    assert done.requests == w.requests && done.locks == w.locks;
  }

  lemma NoLiveRecord(w: World, key: Key)
    requires Inv(w) && Fresh(w, key)
    ensures key in w.records ==> w.records[key].ExpiresAt() <= w.clock
  {
    if key in w.records {
      assert Stored(w, key);
    }
  }
}
