/** The idempotency coordinator as a concurrent protocol: any number of clients, interleaved step by step, that retry,
    fail and crash. */
module Idempotency {
  import opened Common

  type Time = int

  datatype Key = Key(user: nat, scope: string, id: nat)

  datatype Response = Response(status: int, body: string)

  /** `payload` is the canonical JSON of the request; its SHA-256 hash is taken to be injective. */
  datatype Request = Request(key: Key, payload: string, ttl: int)

  datatype Record = Record(payload: string, response: Response, expiresAt: Time)

  /** Where one client's database transaction stands. */
  datatype Phase =
    | Idle
    | Waiting(request: Request)
    | Locked(request: Request)
    | Timed(request: Request, now: Time)
    | Running(request: Request, now: Time, supersedes: bool)
    | Executed(request: Request, now: Time, supersedes: bool, response: Response)

  /** One execution whose writes were committed. */
  datatype Effect = Effect(client: nat, key: Key, payload: string, response: Response, startedAt: Time, expiresAt: Time)

  /** One successful reply, fresh or replayed. */
  datatype Answer = Answer(client: nat, key: Key, payload: string, at: Time, response: Response, replayed: bool)

  /** One reply that the key was already used with a different request. */
  datatype Conflict = Conflict(key: Key, payload: string, at: Time)

  /** The committed tables, the advisory locks, the clients, and the history that the theorems speak about. */
  datatype System = System(
    clock: Time,
    locks: map<int, nat>,
    clients: map<nat, Phase>,
    records: map<Key, Record>,
    effects: seq<Effect>,
    answers: seq<Answer>,
    conflicts: seq<Conflict>)

  datatype Event =
    | Begin(client: nat, request: Request)
    | Acquire(client: nat)
    | ReadClock(client: nat)
    | Lookup(client: nat)
    | Operate(client: nat, response: Response)
    | Commit(client: nat)
    | Abort(client: nat)
    | Tick(time: Time)

  function Initial(start: Time): System { System(start, map[], map[], map[], [], [], []) }

  function PhaseOf(s: System, c: nat): Phase { if c in s.clients then s.clients[c] else Idle }

  predicate Holding(p: Phase) { !p.Idle? && !p.Waiting? }

  predicate HasTime(p: Phase) { p.Timed? || p.Running? || p.Executed? }

  /** The transaction ends, committed or rolled back, and with it its advisory lock. */
  function Released(lockOf: Key -> int, s: System, c: nat): System
    requires Holding(PhaseOf(s, c))
  {
    s.(locks := s.locks - {lockOf(PhaseOf(s, c).request.key)}, clients := s.clients[c := Idle])
  }

  /** The reply to a live record: the stored response, or a conflict when the request differs. */
  function Replay(lockOf: Key -> int, s: System, c: nat): System
    requires PhaseOf(s, c).Timed? && PhaseOf(s, c).request.key in s.records
  {
    var request, now := PhaseOf(s, c).request, PhaseOf(s, c).now;
    var record := s.records[request.key];
    var released := Released(lockOf, s, c);
    if record.payload != request.payload then
      released.(conflicts := s.conflicts + [Conflict(request.key, request.payload, now)])
    else
      released.(answers := s.answers + [Answer(c, request.key, request.payload, now, record.response, true)])
  }

  /** The execution that a client is about to commit. */
  function EffectOf(s: System, c: nat): Effect
    requires PhaseOf(s, c).Executed?
  {
    var Executed(request, now, _, response) := PhaseOf(s, c);
    Effect(c, request.key, request.payload, response, now, now + request.ttl)
  }

  /** Inserts the record and publishes the writes of the operation, all at once. */
  function Publish(lockOf: Key -> int, s: System, c: nat): System
    requires PhaseOf(s, c).Executed?
  {
    var Executed(request, now, supersedes, response) := PhaseOf(s, c);
    var released := Released(lockOf, s, c);
    if request.key in s.records && !supersedes then
      released
    else
      released.(records := s.records[request.key := Record(request.payload, response, now + request.ttl)],
                effects := s.effects + [EffectOf(s, c)],
                answers := s.answers + [Answer(c, request.key, request.payload, now, response, false)])
  }

  function Moved(s: System, c: nat, p: Phase): System { s.(clients := s.clients[c := p]) }

  function LookUp(lockOf: Key -> int, s: System, c: nat): System
    requires PhaseOf(s, c).Timed?
  {
    var p := PhaseOf(s, c);
    if p.request.key in s.records && s.records[p.request.key].expiresAt > p.now then Replay(lockOf, s, c)
    else Moved(s, c, Running(p.request, p.now, p.request.key in s.records))
  }

  function Finish(lockOf: Key -> int, s: System, c: nat, response: Response): System
    requires PhaseOf(s, c).Running?
  {
    var p := PhaseOf(s, c);
    if 200 <= response.status <= 599 then Moved(s, c, Executed(p.request, p.now, p.supersedes, response))
    else Released(lockOf, s, c)
  }

  /** One atomic step of one client, or the clock; an event that is not enabled changes nothing. Two keys may share a
      lock id. */
  function Take(lockOf: Key -> int, s: System, e: Event): System {
    match e
    case Tick(time) => if s.clock <= time then s.(clock := time) else s
    case Begin(c, request) => if PhaseOf(s, c).Idle? && request.ttl > 0 then Moved(s, c, Waiting(request)) else s
    case Acquire(c) =>
      var p := PhaseOf(s, c);
      if p.Waiting? && lockOf(p.request.key) !in s.locks
      then Moved(s, c, Locked(p.request)).(locks := s.locks[lockOf(p.request.key) := c])
      else s
    case ReadClock(c) => if PhaseOf(s, c).Locked? then Moved(s, c, Timed(PhaseOf(s, c).request, s.clock)) else s
    case Lookup(c) => if PhaseOf(s, c).Timed? then LookUp(lockOf, s, c) else s
    case Operate(c, response) => if PhaseOf(s, c).Running? then Finish(lockOf, s, c, response) else s
    case Commit(c) => if PhaseOf(s, c).Executed? then Publish(lockOf, s, c) else s
    case Abort(c) => if Holding(PhaseOf(s, c)) then Released(lockOf, s, c) else Moved(s, c, Idle)
  }

  function Run(lockOf: Key -> int, s: System, events: seq<Event>): System {
    if |events| == 0 then s else Take(lockOf, Run(lockOf, s, events[..|events| - 1]), events[|events| - 1])
  }

  // ---- The invariant ----

  ghost predicate LockHeld(lockOf: Key -> int, s: System, c: nat) {
    Holding(PhaseOf(s, c)) ==>
      lockOf(PhaseOf(s, c).request.key) in s.locks && s.locks[lockOf(PhaseOf(s, c).request.key)] == c
  }

  /** What a client that has read the clock knows of the executions of its key. */
  ghost predicate Informed(s: System, c: nat) {
    var p := PhaseOf(s, c);
    && (!p.Idle? ==> p.request.ttl > 0)
    && (HasTime(p) ==>
         && p.now <= s.clock
         && forall i :: 0 <= i < |s.effects| && s.effects[i].key == p.request.key ==> s.effects[i].startedAt <= p.now)
    && (p.Running? || p.Executed? ==>
         && (p.request.key in s.records ==> p.supersedes)
         && forall i :: 0 <= i < |s.effects| && s.effects[i].key == p.request.key ==> s.effects[i].expiresAt <= p.now)
  }

  predicate EffectTimes(s: System, e: Effect) { e.startedAt <= s.clock && e.startedAt < e.expiresAt }

  function RecordOf(e: Effect): Record { Record(e.payload, e.response, e.expiresAt) }

  /** The record of a key is that of its last execution. */
  ghost predicate RecordsFit(s: System) {
    && (forall i :: 0 <= i < |s.effects| ==>
         s.effects[i].key in s.records && s.effects[i].expiresAt <= s.records[s.effects[i].key].expiresAt)
    && (forall k :: k in s.records ==> RecordHasEffect(s, k))
  }

  ghost predicate RecordHasEffect(s: System, k: Key)
    requires k in s.records
  {
    exists i :: 0 <= i < |s.effects| && s.effects[i].key == k && s.records[k] == RecordOf(s.effects[i])
  }

  /** Executions of one key never overlap: the next one starts no earlier than the last one's record expired. */
  ghost predicate Spaced(effects: seq<Effect>) {
    forall i, j :: 0 <= i < j < |effects| && effects[i].key == effects[j].key ==>
      effects[i].expiresAt <= effects[j].startedAt
  }

  predicate Explains(e: Effect, a: Answer) {
    e.key == a.key && e.payload == a.payload && e.response == a.response && e.startedAt <= a.at < e.expiresAt
  }

  predicate Refutes(e: Effect, x: Conflict) {
    e.key == x.key && e.payload != x.payload && e.startedAt <= x.at < e.expiresAt
  }

  ghost predicate Explained(effects: seq<Effect>, a: Answer) {
    exists i :: 0 <= i < |effects| && Explains(effects[i], a)
  }

  ghost predicate Refuted(effects: seq<Effect>, x: Conflict) {
    exists i :: 0 <= i < |effects| && Refutes(effects[i], x)
  }

  ghost predicate Invariant(lockOf: Key -> int, s: System) {
    && (forall c :: LockHeld(lockOf, s, c) && Informed(s, c))
    && (forall i :: 0 <= i < |s.effects| ==> EffectTimes(s, s.effects[i]))
    && RecordsFit(s)
    && Spaced(s.effects)
    && (forall i :: 0 <= i < |s.answers| ==> Explained(s.effects, s.answers[i]))
    && (forall i :: 0 <= i < |s.conflicts| ==> Refuted(s.effects, s.conflicts[i]))
  }

  // ---- Every step keeps the invariant ----

  /** Two clients inside their critical sections have different keys, even different lock ids. */
  lemma Exclusive(lockOf: Key -> int, s: System, c: nat, d: nat)
    requires Invariant(lockOf, s) && Holding(PhaseOf(s, c)) && Holding(PhaseOf(s, d)) && c != d
    ensures lockOf(PhaseOf(s, c).request.key) != lockOf(PhaseOf(s, d).request.key)
  {
    assert LockHeld(lockOf, s, c) && LockHeld(lockOf, s, d);
  }

  /** Moving one client on without touching the tables, when what it then claims is true. */
  lemma MoveKeeps(lockOf: Key -> int, s: System, c: nat, p: Phase, locks: map<int, nat>)
    requires Invariant(lockOf, s)
    requires var s' := s.(clients := s.clients[c := p], locks := locks);
      LockHeld(lockOf, s', c) && Informed(s', c) && forall d :: d != c ==> LockHeld(lockOf, s', d)
    ensures Invariant(lockOf, s.(clients := s.clients[c := p], locks := locks))
  {
    var s' := s.(clients := s.clients[c := p], locks := locks);
    forall d ensures LockHeld(lockOf, s', d) && Informed(s', d) {
      if d != c {
        assert Informed(s, d);
      }
    }
    forall k | k in s'.records ensures RecordHasEffect(s', k) {
      assert RecordHasEffect(s, k);
    }
  }

  lemma ReleaseKeeps(lockOf: Key -> int, s: System, c: nat)
    requires Invariant(lockOf, s) && Holding(PhaseOf(s, c))
    ensures Invariant(lockOf, Released(lockOf, s, c))
  {
    var locks := s.locks - {lockOf(PhaseOf(s, c).request.key)};
    var s' := s.(clients := s.clients[c := Idle], locks := locks);
    assert Released(lockOf, s, c) == s';
    forall d | d != c ensures LockHeld(lockOf, s', d) {
      assert LockHeld(lockOf, s, d);
      if Holding(PhaseOf(s, d)) {
        Exclusive(lockOf, s, c, d);
      }
    }
    MoveKeeps(lockOf, s, c, Idle, locks);
  }

  lemma AcquireKeeps(lockOf: Key -> int, s: System, c: nat)
    requires Invariant(lockOf, s) && PhaseOf(s, c).Waiting? && lockOf(PhaseOf(s, c).request.key) !in s.locks
    ensures Invariant(lockOf, Take(lockOf, s, Acquire(c)))
  {
    var request := PhaseOf(s, c).request;
    var locks := s.locks[lockOf(request.key) := c];
    var s' := s.(clients := s.clients[c := Locked(request)], locks := locks);
    assert Informed(s, c);
    forall d | d != c ensures LockHeld(lockOf, s', d) {
      assert LockHeld(lockOf, s, d);
    }
    MoveKeeps(lockOf, s, c, Locked(request), locks);
  }

  /** Steps inside the critical section that change the client's phase only. */
  lemma AdvanceKeeps(lockOf: Key -> int, s: System, c: nat, p: Phase)
    requires Invariant(lockOf, s) && (Holding(p) ==> Holding(PhaseOf(s, c)) && p.request == PhaseOf(s, c).request)
    requires Informed(s.(clients := s.clients[c := p]), c)
    ensures Invariant(lockOf, s.(clients := s.clients[c := p]))
  {
    var s' := s.(clients := s.clients[c := p], locks := s.locks);
    assert s' == s.(clients := s.clients[c := p]);
    forall d ensures LockHeld(lockOf, s', d) {
      assert LockHeld(lockOf, s, d);
    }
    MoveKeeps(lockOf, s, c, p, s.locks);
  }

  /** Adding replies that the committed executions explain. */
  lemma RepliesKeep(lockOf: Key -> int, s: System, answers: seq<Answer>, conflicts: seq<Conflict>)
    requires Invariant(lockOf, s)
    requires forall j :: 0 <= j < |answers| ==> Explained(s.effects, answers[j])
    requires forall j :: 0 <= j < |conflicts| ==> Refuted(s.effects, conflicts[j])
    ensures Invariant(lockOf, s.(answers := answers, conflicts := conflicts))
  {
    var s' := s.(answers := answers, conflicts := conflicts);
    forall d ensures LockHeld(lockOf, s', d) && Informed(s', d) {
      assert LockHeld(lockOf, s, d) && Informed(s, d);
    }
    forall i | 0 <= i < |s'.effects| ensures EffectTimes(s', s'.effects[i]) {
      assert EffectTimes(s, s.effects[i]);
    }
    forall k | k in s'.records ensures RecordHasEffect(s', k) {
      assert RecordHasEffect(s, k);
    }
  }

  /** The live record behind a replay is that of an execution that the client's clock falls into. */
  lemma ReplayIsExplained(lockOf: Key -> int, s: System, c: nat)
    requires Invariant(lockOf, s) && PhaseOf(s, c).Timed?
    requires PhaseOf(s, c).request.key in s.records
    requires s.records[PhaseOf(s, c).request.key].expiresAt > PhaseOf(s, c).now
    ensures var p := PhaseOf(s, c);
      var record := s.records[p.request.key];
      if record.payload == p.request.payload
      then Explained(s.effects, Answer(c, p.request.key, p.request.payload, p.now, record.response, true))
      else Refuted(s.effects, Conflict(p.request.key, p.request.payload, p.now))
  {
    var p := PhaseOf(s, c);
    var record := s.records[p.request.key];
    assert Informed(s, c) && RecordHasEffect(s, p.request.key);
    var i :| 0 <= i < |s.effects| && s.effects[i].key == p.request.key && record == RecordOf(s.effects[i]);
    if record.payload == p.request.payload {
      assert Explains(s.effects[i], Answer(c, p.request.key, p.request.payload, p.now, record.response, true));
    } else {
      assert Refutes(s.effects[i], Conflict(p.request.key, p.request.payload, p.now));
    }
  }

  lemma ReplayKeeps(lockOf: Key -> int, s: System, c: nat)
    requires Invariant(lockOf, s) && PhaseOf(s, c).Timed?
    requires PhaseOf(s, c).request.key in s.records
    requires s.records[PhaseOf(s, c).request.key].expiresAt > PhaseOf(s, c).now
    ensures Invariant(lockOf, Replay(lockOf, s, c))
  {
    var s' := Replay(lockOf, s, c);
    ReplayIsExplained(lockOf, s, c);
    ReleaseKeeps(lockOf, s, c);
    assert s' == Released(lockOf, s, c).(answers := s'.answers, conflicts := s'.conflicts);
    RepliesKeep(lockOf, Released(lockOf, s, c), s'.answers, s'.conflicts);
  }

  lemma ExplainedLater(effects: seq<Effect>, e: Effect)
    ensures forall a :: Explained(effects, a) ==> Explained(effects + [e], a)
    ensures forall x :: Refuted(effects, x) ==> Refuted(effects + [e], x)
  {
    forall a | Explained(effects, a) ensures Explained(effects + [e], a) {
      var i :| 0 <= i < |effects| && Explains(effects[i], a);
      assert Explains((effects + [e])[i], a);
    }
    forall x | Refuted(effects, x) ensures Refuted(effects + [e], x) {
      var i :| 0 <= i < |effects| && Refutes(effects[i], x);
      assert Refutes((effects + [e])[i], x);
    }
  }

  lemma PublishedRecordsFit(lockOf: Key -> int, s: System, c: nat)
    requires Invariant(lockOf, s) && PhaseOf(s, c).Executed?
    ensures RecordsFit(Publish(lockOf, s, c)) && Spaced(Publish(lockOf, s, c).effects)
  {
    var s', p := Publish(lockOf, s, c), PhaseOf(s, c);
    assert Informed(s, c);
    assert s'.effects == s.effects + [EffectOf(s, c)];
    assert s'.records == s.records[p.request.key := RecordOf(EffectOf(s, c))];
    RecordsFitOneMore(s, s', EffectOf(s, c));
  }

  lemma RecordsFitOneMore(s: System, s': System, e: Effect)
    requires RecordsFit(s) && s'.effects == s.effects + [e] && s'.records == s.records[e.key := RecordOf(e)]
    requires e.key in s.records ==> s.records[e.key].expiresAt <= e.expiresAt
    ensures RecordsFit(s')
  {
    var n := |s.effects|;
    forall k | k in s'.records ensures RecordHasEffect(s', k) {
      if k == e.key {
        assert s'.effects[n] == e;
      } else {
        assert RecordHasEffect(s, k);
        var i :| 0 <= i < n && s.effects[i].key == k && s.records[k] == RecordOf(s.effects[i]);
        assert s'.effects[i] == s.effects[i];
      }
    }
  }

  /** The other clients have other keys, so the new execution tells them nothing. */
  lemma PublishInforms(lockOf: Key -> int, s: System, c: nat, d: nat)
    requires Invariant(lockOf, s) && PhaseOf(s, c).Executed?
    ensures LockHeld(lockOf, Publish(lockOf, s, c), d) && Informed(Publish(lockOf, s, c), d)
  {
    ReleaseKeeps(lockOf, s, c);
    assert Informed(s, c) && Informed(s, d) && LockHeld(lockOf, Released(lockOf, s, c), d);
    if d != c && Holding(PhaseOf(s, d)) {
      Exclusive(lockOf, s, c, d);
    }
  }

  lemma PublishKeeps(lockOf: Key -> int, s: System, c: nat)
    requires Invariant(lockOf, s) && PhaseOf(s, c).Executed?
    ensures Invariant(lockOf, Publish(lockOf, s, c))
  {
    var s', p := Publish(lockOf, s, c), PhaseOf(s, c);
    assert Informed(s, c);
    PublishedRecordsFit(lockOf, s, c);
    var e := EffectOf(s, c);
    assert s'.effects == s.effects + [e];
    ExplainedLater(s.effects, e);
    forall d ensures LockHeld(lockOf, s', d) && Informed(s', d) {
      PublishInforms(lockOf, s, c, d);
    }
    forall i | 0 <= i < |s'.effects| ensures EffectTimes(s', s'.effects[i]) {
      assert i < |s.effects| ==> EffectTimes(s, s.effects[i]);
    }
    forall j | 0 <= j < |s'.answers| ensures Explained(s'.effects, s'.answers[j]) {
      if j < |s.answers| {
        assert Explained(s.effects, s.answers[j]);
      } else {
        assert Explains(s'.effects[|s.effects|], s'.answers[j]);
      }
    }
    forall j | 0 <= j < |s'.conflicts| ensures Refuted(s'.effects, s'.conflicts[j]) {
      assert Refuted(s.effects, s.conflicts[j]);
    }
  }

  lemma TickKeeps(lockOf: Key -> int, s: System, time: Time)
    requires Invariant(lockOf, s) && s.clock <= time
    ensures Invariant(lockOf, s.(clock := time))
  {
    var s' := s.(clock := time);
    forall d ensures LockHeld(lockOf, s', d) && Informed(s', d) {
      assert LockHeld(lockOf, s, d) && Informed(s, d);
    }
    forall i | 0 <= i < |s'.effects| ensures EffectTimes(s', s'.effects[i]) {
      assert EffectTimes(s, s.effects[i]);
    }
    forall k | k in s'.records ensures RecordHasEffect(s', k) {
      assert RecordHasEffect(s, k);
    }
  }

  /** The lookup of a client that finds nothing live: every earlier execution of the key has expired. */
  lemma LookupInforms(lockOf: Key -> int, s: System, c: nat)
    requires Invariant(lockOf, s) && PhaseOf(s, c).Timed?
    requires var p := PhaseOf(s, c); !(p.request.key in s.records && s.records[p.request.key].expiresAt > p.now)
    ensures var p := PhaseOf(s, c);
      Informed(s.(clients := s.clients[c := Running(p.request, p.now, p.request.key in s.records)]), c)
  {
    assert Informed(s, c);
  }

  lemma StepKeepsInvariant(lockOf: Key -> int, s: System, e: Event)
    requires Invariant(lockOf, s)
    ensures Invariant(lockOf, Take(lockOf, s, e))
  {
    if e.Tick? {
      if s.clock <= e.time {
        TickKeeps(lockOf, s, e.time);
      }
    } else {
      ClientStepKeeps(lockOf, s, e);
    }
  }

  lemma ClientStepKeeps(lockOf: Key -> int, s: System, e: Event)
    requires Invariant(lockOf, s) && !e.Tick?
    ensures Invariant(lockOf, Take(lockOf, s, e))
  {
    var p := PhaseOf(s, e.client);
    assert Informed(s, e.client);
    match e
    case Begin(c, request) => if p.Idle? && request.ttl > 0 { AdvanceKeeps(lockOf, s, c, Waiting(request)); }
    case Acquire(c) => if p.Waiting? && lockOf(p.request.key) !in s.locks { AcquireKeeps(lockOf, s, c); }
    case ReadClock(c) => if p.Locked? { ReadClockKeeps(lockOf, s, c); }
    case Lookup(c) => if p.Timed? { LookUpKeeps(lockOf, s, c); }
    case Operate(c, response) => if p.Running? { FinishKeeps(lockOf, s, c, response); }
    case Commit(c) => if p.Executed? { PublishKeeps(lockOf, s, c); }
    case Abort(c) => if Holding(p) { ReleaseKeeps(lockOf, s, c); } else { AdvanceKeeps(lockOf, s, c, Idle); }
  }

  lemma LookUpKeeps(lockOf: Key -> int, s: System, c: nat)
    requires Invariant(lockOf, s) && PhaseOf(s, c).Timed?
    ensures Invariant(lockOf, LookUp(lockOf, s, c))
  {
    var p := PhaseOf(s, c);
    if p.request.key in s.records && s.records[p.request.key].expiresAt > p.now {
      ReplayKeeps(lockOf, s, c);
    } else {
      LookupInforms(lockOf, s, c);
      AdvanceKeeps(lockOf, s, c, Running(p.request, p.now, p.request.key in s.records));
    }
  }

  lemma FinishKeeps(lockOf: Key -> int, s: System, c: nat, response: Response)
    requires Invariant(lockOf, s) && PhaseOf(s, c).Running?
    ensures Invariant(lockOf, Finish(lockOf, s, c, response))
  {
    var p := PhaseOf(s, c);
    assert Informed(s, c);
    if 200 <= response.status <= 599 {
      AdvanceKeeps(lockOf, s, c, Executed(p.request, p.now, p.supersedes, response));
    } else {
      ReleaseKeeps(lockOf, s, c);
    }
  }

  lemma ReadClockKeeps(lockOf: Key -> int, s: System, c: nat)
    requires Invariant(lockOf, s) && PhaseOf(s, c).Locked?
    ensures Invariant(lockOf, s.(clients := s.clients[c := Timed(PhaseOf(s, c).request, s.clock)]))
  {
    assert Informed(s, c);
    forall i | 0 <= i < |s.effects| ensures s.effects[i].startedAt <= s.clock {
      assert EffectTimes(s, s.effects[i]);
    }
    AdvanceKeeps(lockOf, s, c, Timed(PhaseOf(s, c).request, s.clock));
  }

  lemma {:induction false} RunsKeepInvariant(lockOf: Key -> int, start: Time, events: seq<Event>)
    ensures Invariant(lockOf, Run(lockOf, Initial(start), events))
  {
    if |events| > 0 {
      RunsKeepInvariant(lockOf, start, events[..|events| - 1]);
      StepKeepsInvariant(lockOf, Run(lockOf, Initial(start), events[..|events| - 1]), events[|events| - 1]);
    }
  }

  // ---- Exactly once ----

  predicate Within(e: Effect, at: Time) { e.startedAt <= at < e.expiresAt }

  /** In every interleaving, two executions of one key have disjoint lifetimes: while the record of one lives no other
      commits. */
  lemma ExactlyOnce(lockOf: Key -> int, start: Time, events: seq<Event>, i: nat, j: nat, at: Time)
    requires var effects := Run(lockOf, Initial(start), events).effects;
      && i < |effects| && j < |effects| && effects[i].key == effects[j].key
      && Within(effects[i], at) && Within(effects[j], at)
    ensures i == j
  {
    RunsKeepInvariant(lockOf, start, events);
  }

  /** Whoever is answered while an execution's record lives gets that execution's status and body, and had sent its
      payload. */
  lemma AnswersAgree(lockOf: Key -> int, start: Time, events: seq<Event>, i: nat, j: nat)
    requires var s := Run(lockOf, Initial(start), events);
      && i < |s.effects| && j < |s.answers|
      && s.answers[j].key == s.effects[i].key && Within(s.effects[i], s.answers[j].at)
    ensures var s := Run(lockOf, Initial(start), events);
      s.answers[j].response == s.effects[i].response && s.answers[j].payload == s.effects[i].payload
  {
    var s := Run(lockOf, Initial(start), events);
    RunsKeepInvariant(lockOf, start, events);
    assert Explained(s.effects, s.answers[j]);
    var k :| 0 <= k < |s.effects| && Explains(s.effects[k], s.answers[j]);
    ExactlyOnce(lockOf, start, events, i, k, s.answers[j].at);
  }

  /** A conflict is reported only while the key's record lives and holds another payload. */
  lemma ConflictsAreReal(lockOf: Key -> int, start: Time, events: seq<Event>, i: nat, j: nat)
    requires var s := Run(lockOf, Initial(start), events);
      && i < |s.effects| && j < |s.conflicts|
      && s.conflicts[j].key == s.effects[i].key && Within(s.effects[i], s.conflicts[j].at)
    ensures var s := Run(lockOf, Initial(start), events); s.conflicts[j].payload != s.effects[i].payload
  {
    var s := Run(lockOf, Initial(start), events);
    RunsKeepInvariant(lockOf, start, events);
    assert Refuted(s.effects, s.conflicts[j]);
    var k :| 0 <= k < |s.effects| && Refutes(s.effects[k], s.conflicts[j]);
    ExactlyOnce(lockOf, start, events, i, k, s.conflicts[j].at);
  }

  /** A client that has executed is never turned down by the unique constraint: its commit publishes exactly its own
      execution, which lives for the time that its request asked for, and its own reply. */
  lemma CommitsSucceed(lockOf: Key -> int, start: Time, events: seq<Event>, c: nat)
    requires PhaseOf(Run(lockOf, Initial(start), events), c).Executed?
    ensures var s := Run(lockOf, Initial(start), events);
      var p := PhaseOf(s, c);
      var s' := Take(lockOf, s, Commit(c));
      && s'.effects == s.effects
         + [Effect(c, p.request.key, p.request.payload, p.response, p.now, p.now + p.request.ttl)]
      && s'.answers == s.answers + [Answer(c, p.request.key, p.request.payload, p.now, p.response, false)]
      && s'.records == s.records[p.request.key := Record(p.request.payload, p.response, p.now + p.request.ttl)]
  {
    RunsKeepInvariant(lockOf, start, events);
    PublishSucceeds(lockOf, Run(lockOf, Initial(start), events), c);
  }

  lemma PublishSucceeds(lockOf: Key -> int, s: System, c: nat)
    requires Invariant(lockOf, s) && PhaseOf(s, c).Executed?
    ensures var p, s' := PhaseOf(s, c), Publish(lockOf, s, c);
      && s'.effects == s.effects
         + [Effect(c, p.request.key, p.request.payload, p.response, p.now, p.now + p.request.ttl)]
      && s'.answers == s.answers + [Answer(c, p.request.key, p.request.payload, p.now, p.response, false)]
      && s'.records == s.records[p.request.key := Record(p.request.payload, p.response, p.now + p.request.ttl)]
  {
    assert Informed(s, c);
  }

  /** A run that crashes or fails at any point leaves neither a record nor an effect nor an answer, and frees
      its lock. */
  lemma AbortLeavesNothing(lockOf: Key -> int, s: System, c: nat)
    requires Invariant(lockOf, s)
    ensures var s' := Take(lockOf, s, Abort(c));
      && s'.records == s.records && s'.effects == s.effects && s'.answers == s.answers && s'.conflicts == s.conflicts
      && PhaseOf(s', c).Idle?
      && (Holding(PhaseOf(s, c)) ==> lockOf(PhaseOf(s, c).request.key) !in s'.locks)
  {
  }

  // ---- Executions that are not committed ----

  /** Between two states client `c` has published nothing: no execution, no fresh reply, and no record. */
  ghost predicate PublishedNothing(s: System, s': System, c: nat) {
    && s.effects <= s'.effects && s.answers <= s'.answers
    && (forall i :: |s.effects| <= i < |s'.effects| ==> s'.effects[i].client != c)
    && (forall i :: |s.answers| <= i < |s'.answers| && s'.answers[i].client == c ==> s'.answers[i].replayed)
    && s.records.Keys <= s'.records.Keys
    && (forall k :: k in s'.records ==> RecordOfOthers(s, s', c, k))
  }

  /** The record is the old one, or that of an execution that another client has committed since. */
  ghost predicate RecordOfOthers(s: System, s': System, c: nat, k: Key)
    requires k in s'.records
  {
    || (k in s.records && s'.records[k] == s.records[k])
    || exists i :: |s.effects| <= i < |s'.effects|
                   && s'.effects[i].client != c && s'.records[k] == RecordOf(s'.effects[i])
  }

  lemma OtherStepPublishesNothing(lockOf: Key -> int, s: System, e: Event, c: nat)
    requires e != Commit(c)
    ensures PublishedNothing(s, Take(lockOf, s, e), c)
  {
    var s' := Take(lockOf, s, e);
    if e.Commit? && PhaseOf(s, e.client).Executed? && |s'.effects| > |s.effects| {
      assert s'.effects[|s.effects|] == EffectOf(s, e.client);
      assert RecordOf(EffectOf(s, e.client)) == s'.records[PhaseOf(s, e.client).request.key];
    }
  }

  lemma PublishedNothingTransitive(r: System, s: System, t: System, c: nat)
    requires PublishedNothing(r, s, c) && PublishedNothing(s, t, c)
    ensures PublishedNothing(r, t, c)
  {
    forall k | k in t.records ensures RecordOfOthers(r, t, c, k) {
      assert RecordOfOthers(s, t, c, k);
      if k in s.records && t.records[k] == s.records[k] {
        assert RecordOfOthers(r, s, c, k);
        if !(k in r.records && s.records[k] == r.records[k]) {
          var i :| |r.effects| <= i < |s.effects| && s.effects[i].client != c && s.records[k] == RecordOf(s.effects[i]);
          assert t.effects[i] == s.effects[i];
        }
      }
    }
  }

  /** However far a client gets, and however often it tries, fails or crashes: as long as it does not commit, nothing
      that it executed is published, recorded or replied, whatever the other clients do meanwhile. */
  lemma {:induction false} UncommittedLeavesNothing(lockOf: Key -> int, s: System, events: seq<Event>, c: nat)
    requires Commit(c) !in events
    ensures PublishedNothing(s, Run(lockOf, s, events), c)
  {
    if |events| > 0 {
      var front, last := events[..|events| - 1], events[|events| - 1];
      assert last in events;
      UncommittedLeavesNothing(lockOf, s, front, c);
      OtherStepPublishesNothing(lockOf, Run(lockOf, s, front), last, c);
      PublishedNothingTransitive(s, Run(lockOf, s, front), Run(lockOf, s, events), c);
    } else {
      forall k | k in s.records ensures RecordOfOthers(s, s, c, k) {
      }
    }
  }

  // ---- The coordinator as it is written ----

  datatype Reply = Replied(response: Response, replayed: bool) | Conflicted | Failed

  /** One call on its own: what it leaves in the table and what it replies. `None` stands for an operation that
      raises. */
  function AnswersOf(c: nat, request: Request, at: Time, reply: Reply): seq<Answer> {
    if reply.Replied? then [Answer(c, request.key, request.payload, at, reply.response, reply.replayed)] else []
  }

  function ConflictsOf(request: Request, at: Time, reply: Reply): seq<Conflict> {
    if reply.Conflicted? then [Conflict(request.key, request.payload, at)] else []
  }

  function Sequential(
      records: map<Key, Record>, request: Request, now: Time, outcome: Option<Response>)
    : (map<Key, Record>, Reply)
  {
    if request.ttl <= 0 then (records, Failed)
    else if request.key in records && records[request.key].expiresAt > now then
      if records[request.key].payload != request.payload then (records, Conflicted)
      else (records, Replied(records[request.key].response, true))
    else if outcome.None? || !(200 <= outcome.value.status <= 599) then (records, Failed)
    else
      (records[request.key := Record(request.payload, outcome.value, now + request.ttl)], Replied(outcome.value, false))
  }

  class Store {
    var records: map<Key, Record>

    constructor ()
      ensures records == map[]
    {
      records := map[];
    }

    /** Reads, deletes an expired record, runs the operation, and inserts the new record, all in one transaction. */
    method ExecuteIdempotent(request: Request, now: Time, outcome: Option<Response>) returns (reply: Reply)
      modifies this
      ensures (records, reply) == Sequential(old(records), request, now, outcome)
    {
      if request.ttl <= 0 {
        return Failed;
      }
      var begun := records;
      var existing: Option<Record> := if request.key in records then Some(records[request.key]) else None;
      if existing.Some? && existing.value.expiresAt <= now {
        records := records - {request.key};
        existing := None;
      }
      if existing.Some? {
        if existing.value.payload != request.payload {
          return Conflicted;
        }
        return Replied(existing.value.response, true);
      }
      if outcome.None? || !(200 <= outcome.value.status <= 599) {
        records := begun;
        return Failed;
      }
      assert begun[request.key := Record(request.payload, outcome.value, now + request.ttl)]
          == records[request.key := Record(request.payload, outcome.value, now + request.ttl)];
      records := records[request.key := Record(request.payload, outcome.value, now + request.ttl)];
      reply := Replied(outcome.value, false);
    }
  }

  /** A client that is not interrupted takes these steps. */
  function Solo(lockOf: Key -> int, s: System, c: nat, request: Request, outcome: Option<Response>): System {
    var timed := Take(lockOf, Take(lockOf, Take(lockOf, s, Begin(c, request)), Acquire(c)), ReadClock(c));
    SoloFromLookup(lockOf, timed, c, outcome)
  }

  function SoloFromLookup(lockOf: Key -> int, timed: System, c: nat, outcome: Option<Response>): System {
    var looked := Take(lockOf, timed, Lookup(c));
    match outcome
    case Some(response) => Take(lockOf, Take(lockOf, looked, Operate(c, response)), Commit(c))
    case None => Take(lockOf, looked, Abort(c))
  }

  /** The protocol, taken by one client without interruption, is the coordinator as it is written. */
  lemma SoloIsSequential(lockOf: Key -> int, s: System, c: nat, request: Request, outcome: Option<Response>)
    requires PhaseOf(s, c).Idle? && lockOf(request.key) !in s.locks && request.ttl > 0
    ensures var s' := Solo(lockOf, s, c, request, outcome);
      var (records, reply) := Sequential(s.records, request, s.clock, outcome);
      && s'.records == records && s'.locks == s.locks && PhaseOf(s', c).Idle?
      && s'.answers == s.answers + AnswersOf(c, request, s.clock, reply)
      && s'.conflicts == s.conflicts + ConflictsOf(request, s.clock, reply)
      && |s'.effects| == |s.effects| + if reply.Replied? && !reply.replayed then 1 else 0
  {
    AloneUpToLookup(lockOf, s, c, request);
    var timed := Take(lockOf, Take(lockOf, Take(lockOf, s, Begin(c, request)), Acquire(c)), ReadClock(c));
    if Answerable(timed, request) {
      AloneAtLookup(lockOf, timed, c, request, outcome);
    } else {
      AloneFromLookup(lockOf, timed, c, request, outcome);
    }
  }

  /** What the client does from the lookup on, when the steps agree with the written coordinator. */
  ghost predicate AsWritten(lockOf: Key -> int, s: System, c: nat, request: Request, outcome: Option<Response>) {
    var s', (records, reply) := SoloFromLookup(lockOf, s, c, outcome), Sequential(s.records, request, s.clock, outcome);
    && s'.records == records && s'.locks == s.locks - {lockOf(request.key)} && PhaseOf(s', c).Idle?
    && s'.answers == s.answers + AnswersOf(c, request, s.clock, reply)
    && s'.conflicts == s.conflicts + ConflictsOf(request, s.clock, reply)
    && |s'.effects| == |s.effects| + if reply.Replied? && !reply.replayed then 1 else 0
  }

  predicate Answerable(s: System, request: Request) {
    request.key in s.records && s.records[request.key].expiresAt > s.clock
  }

  lemma AloneAtLookup(lockOf: Key -> int, s: System, c: nat, request: Request, outcome: Option<Response>)
    requires PhaseOf(s, c) == Timed(request, s.clock) && request.ttl > 0 && Answerable(s, request)
    ensures AsWritten(lockOf, s, c, request, outcome)
  {
    var looked := Take(lockOf, s, Lookup(c));
    assert PhaseOf(looked, c).Idle?;
  }

  lemma AloneFromLookup(lockOf: Key -> int, s: System, c: nat, request: Request, outcome: Option<Response>)
    requires PhaseOf(s, c) == Timed(request, s.clock) && request.ttl > 0 && !Answerable(s, request)
    ensures AsWritten(lockOf, s, c, request, outcome)
  {
    var looked := Take(lockOf, s, Lookup(c));
    assert PhaseOf(looked, c).Running? && looked.records == s.records && looked.locks == s.locks;
  }

  /** A client that is not disturbed comes to look its key up with the lock held and nothing else changed. */
  lemma AloneUpToLookup(lockOf: Key -> int, s: System, c: nat, request: Request)
    requires PhaseOf(s, c).Idle? && lockOf(request.key) !in s.locks && request.ttl > 0
    ensures var timed := Take(lockOf, Take(lockOf, Take(lockOf, s, Begin(c, request)), Acquire(c)), ReadClock(c));
      && PhaseOf(timed, c) == Timed(request, s.clock)
      && timed.locks - {lockOf(request.key)} == s.locks
      && timed == s.(locks := timed.locks, clients := timed.clients)
  {
    var waiting := Take(lockOf, s, Begin(c, request));
    assert PhaseOf(waiting, c) == Waiting(request) && waiting.locks == s.locks;
    var locked := Take(lockOf, waiting, Acquire(c));
    assert PhaseOf(locked, c) == Locked(request) && locked.locks - {lockOf(request.key)} == s.locks;
  }
}
