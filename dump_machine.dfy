/**
 * The dump actor's shared state as a value, the three atomic steps that the
 * create and info handlers take on it, and what those steps guarantee, one
 * step at a time and over any interleaving of requests and task completions.
 *
 * `gateHeld` stands for the `Mutex<()>` that a create request try-locks; it
 * stays held until the create handler returns, i.e. until the completion of
 * the dump task has been written to the registry. `infos` stands for the
 * `HashMap<String, DumpInfo>` behind the `RwLock`.
 */
module DumpMachine {
  import opened DumpTypes

  datatype ActorState = ActorState(gateHeld: bool, infos: map<string, DumpInfo>)

  /** The state built by the actor's constructor: gate free, registry empty. */
  const Initial: ActorState := ActorState(false, map[])

  /** `uid` names a dump that is still running. */
  predicate Running(s: ActorState, uid: string)
  {
    uid in s.infos && s.infos[uid].status == InProgress
  }

  /**
   * The actor's invariant: at most one dump is in progress, one is in
   * progress exactly when the gate is held, and every record is stored
   * under its own uid.
   */
  ghost predicate Inv(s: ActorState)
  {
    && (s.gateHeld <==> exists u :: Running(s, u))
    && (forall a, b :: Running(s, a) && Running(s, b) ==> a == b)
    && (forall u :: u in s.infos ==> s.infos[u].uid == u)
  }

  /**
   * Accepting a create request: try the gate; when it is held, answer
   * `DumpAlreadyRunning` and change nothing; otherwise take the gate, insert
   * an `InProgress` record under `uid` (replacing any record already stored
   * under that uid, as `HashMap::insert` does) and answer with that record.
   */
  function Begin(s: ActorState, uid: string): (t: (ActorState, DumpResult<DumpInfo>))
    ensures s.gateHeld <==> t.1 == Err(DumpAlreadyRunning)
    ensures s.gateHeld ==> t.0 == s
    ensures !s.gateHeld ==>
      && t.0.gateHeld
      && t.1 == Ok(DumpInfo(uid, InProgress, None))
      && uid in t.0.infos && t.0.infos[uid] == t.1.value
      && t.0.infos.Keys == s.infos.Keys + {uid}
      && (forall u :: u in s.infos && u != uid ==> t.0.infos[u] == s.infos[u])
  {
    var info := DumpInfo.New(uid, InProgress);
    if s.gateHeld then
      (s, Err(DumpAlreadyRunning))
    else
      (ActorState(true, s.infos[uid := info]), Ok(info))
  }

  /** The record a finished dump ends with, given how its task ended. */
  function Completed(info: DumpInfo, outcome: TaskOutcome): (r: DumpInfo)
    ensures r.uid == info.uid
    ensures outcome.Success? ==> r.status == Done && r.error == info.error
    ensures outcome.TaskError? ==> r.status == Failed && r.error == Some(outcome.message)
    ensures outcome.Panicked? ==> r.status == Failed && r.error == Some(PanicMessage)
  {
    match outcome
    case Success => info.MarkDone()
    case TaskError(msg) => info.WithError(msg)
    case Panicked => info.WithError(PanicMessage)
  }

  /**
   * Completing a dump: the entry for `uid` must exist (a missing one is a
   * fatal `expect` in the handler); it is marked done or failed according
   * to the task's outcome, every other entry is left alone, and the gate is
   * released as the handler returns.
   */
  function Finish(s: ActorState, uid: string, outcome: TaskOutcome): (t: ActorState)
    requires uid in s.infos
    ensures !t.gateHeld
    ensures t.infos.Keys == s.infos.Keys
    ensures t.infos[uid] == Completed(s.infos[uid], outcome)
    ensures forall u :: u in s.infos && u != uid ==> t.infos[u] == s.infos[u]
  {
    ActorState(false, s.infos[uid := Completed(s.infos[uid], outcome)])
  }

  /** Answering an info request: a copy of the stored record, or `DumpDoesNotExist(uid)`. */
  function Lookup(s: ActorState, uid: string): (r: DumpResult<DumpInfo>)
    ensures r.Ok? <==> uid in s.infos
    ensures r.Ok? ==> r.value == s.infos[uid]
    ensures r.Err? ==> r.error == DumpDoesNotExist(uid)
  {
    if uid in s.infos then Ok(s.infos[uid]) else Err(DumpDoesNotExist(uid))
  }

  // ---------------------------------------------------------------------
  // One step at a time

  lemma InitialInv()
    ensures Inv(Initial) && !Initial.gateHeld && Initial.infos == map[]
  {
  }

  /** Accepting or rejecting a create request keeps the invariant. */
  lemma BeginPreservesInv(s: ActorState, uid: string)
    requires Inv(s)
    ensures Inv(Begin(s, uid).0)
  {
    var t := Begin(s, uid).0;
    if !s.gateHeld {
      assert Running(t, uid);
      forall a | a in s.infos && a != uid ensures !Running(t, a) {
        assert !Running(s, a);
      }
    }
  }

  /**
   * Completing the running dump keeps the invariant: its record leaves
   * `InProgress` and, since it was the only one in progress, the gate is
   * free again.
   */
  lemma FinishPreservesInv(s: ActorState, uid: string, outcome: TaskOutcome)
    requires Inv(s) && Running(s, uid)
    ensures Inv(Finish(s, uid, outcome))
    ensures Finish(s, uid, outcome).infos[uid].status != InProgress
  {
    var t := Finish(s, uid, outcome);
    forall u | Running(t, u) ensures false {
      assert Running(s, u);
    }
  }

  /** While a dump is accepted and running, a second create request is refused and changes nothing. */
  lemma SecondCreateIsRejected(s: ActorState, first: string, second: string)
    requires Begin(s, first).1.Ok?
    ensures Begin(Begin(s, first).0, second) == (Begin(s, first).0, Err(DumpAlreadyRunning))
  {
  }

  /**
   * A panicking dump task is contained: its record ends `Failed` with the
   * fixed message, and the next create request is accepted.
   */
  lemma PanicIsContained(s: ActorState, uid: string, next: string)
    requires Inv(s) && Running(s, uid)
    ensures Finish(s, uid, Panicked).infos[uid].status == Failed
    ensures Finish(s, uid, Panicked).infos[uid].error == Some(PanicMessage)
    ensures Begin(Finish(s, uid, Panicked), next).1 == Ok(DumpInfo(next, InProgress, None))
  {
  }

  /**
   * A uid that is reused replaces the record stored under it: the source does
   * not check for collisions, so a finished record can return to
   * `InProgress`. The monotonicity lemmas below therefore assume that no
   * accepted create request reuses the uid.
   */
  lemma ReusedUidRestartsRecord(s: ActorState, uid: string)
    requires !s.gateHeld && uid in s.infos && s.infos[uid].status == Done
    ensures Begin(s, uid).0.infos[uid].status == InProgress
  {
  }

  // ---------------------------------------------------------------------
  // Any interleaving of requests and completions

  /** Something the actor can do to its state. */
  datatype Event =
    | CreateDump(uid: string)                         // a create request, with the uid it generated
    | TaskFinished(uid: string, outcome: TaskOutcome) // the spawned task for `uid` ended
    | InfoQuery(uid: string)                          // an info request

  /** A task can only finish for the dump that its create handler started. */
  predicate Enabled(s: ActorState, e: Event)
  {
    e.TaskFinished? ==> Running(s, e.uid)
  }

  function Step(s: ActorState, e: Event): ActorState
    requires Enabled(s, e)
  {
    match e
    case CreateDump(uid) => Begin(s, uid).0
    case TaskFinished(uid, outcome) => Finish(s, uid, outcome)
    case InfoQuery(_) => s
  }

  /** Every event of `evs` is enabled in the state it is applied to. */
  predicate Admissible(s: ActorState, evs: seq<Event>)
    decreases |evs|
  {
    |evs| == 0 || (Enabled(s, evs[0]) && Admissible(Step(s, evs[0]), evs[1..]))
  }

  function Run(s: ActorState, evs: seq<Event>): ActorState
    requires Admissible(s, evs)
    decreases |evs|
  {
    if |evs| == 0 then s else Run(Step(s, evs[0]), evs[1..])
  }

  /** A status may stay as it is or move once from `InProgress` to an end state. */
  predicate StatusMayFollow(before: DumpStatus, after: DumpStatus)
  {
    before == after || (before == InProgress && after != InProgress)
  }

  lemma StepPreservesInv(s: ActorState, e: Event)
    requires Inv(s) && Enabled(s, e)
    ensures Inv(Step(s, e))
  {
    match e
    case CreateDump(uid) => BeginPreservesInv(s, uid);
    case TaskFinished(uid, outcome) => FinishPreservesInv(s, uid, outcome);
    case InfoQuery(_) =>
  }

  /** Mutual exclusion holds after any admissible run of events. */
  lemma {:induction false} RunPreservesInv(s: ActorState, evs: seq<Event>)
    requires Inv(s) && Admissible(s, evs)
    ensures Inv(Run(s, evs))
    decreases |evs|
  {
    if |evs| > 0 {
      StepPreservesInv(s, evs[0]);
      RunPreservesInv(Step(s, evs[0]), evs[1..]);
    }
  }

  /** Records are never removed: the registry's key set only grows. */
  lemma {:induction false} RunKeysGrow(s: ActorState, evs: seq<Event>)
    requires Admissible(s, evs)
    ensures s.infos.Keys <= Run(s, evs).infos.Keys
    decreases |evs|
  {
    if |evs| > 0 {
      RunKeysGrow(Step(s, evs[0]), evs[1..]);
    }
  }

  /**
   * Once a create request has been answered with a record, an info request
   * for its uid finds a record with that uid, whatever happens in between.
   */
  lemma AcceptedDumpIsAlwaysFound(s: ActorState, uid: string, evs: seq<Event>)
    requires Inv(s) && Begin(s, uid).1.Ok?
    requires Admissible(Begin(s, uid).0, evs)
    ensures Lookup(Run(Begin(s, uid).0, evs), uid).Ok?
    ensures Lookup(Run(Begin(s, uid).0, evs), uid).value.uid == uid
  {
    var t := Begin(s, uid).0;
    BeginPreservesInv(s, uid);
    RunKeysGrow(t, evs);
    RunPreservesInv(t, evs);
  }

  /**
   * Every create request in `evs` that carries `u` is refused, i.e. arrives
   * while the gate is held. A uid is generated from the clock with
   * millisecond resolution, so a refused request may well repeat it.
   */
  predicate NoAcceptedReuse(s: ActorState, evs: seq<Event>, u: string)
    decreases |evs|
  {
    || |evs| == 0
    || (&& Enabled(s, evs[0])
        && (evs[0] == CreateDump(u) ==> s.gateHeld)
        && NoAcceptedReuse(Step(s, evs[0]), evs[1..], u))
  }

  lemma StepStatus(s: ActorState, e: Event, u: string)
    requires Enabled(s, e) && u in s.infos && (e == CreateDump(u) ==> s.gateHeld)
    ensures u in Step(s, e).infos
    ensures StatusMayFollow(s.infos[u].status, Step(s, e).infos[u].status)
    ensures s.infos[u].status != InProgress ==> Step(s, e).infos[u] == s.infos[u]
  {
  }

  /**
   * For a uid that no later accepted create request reuses, the observed statuses
   * form one of [InProgress], [InProgress, Done], [InProgress, Failed]
   * (or a suffix): a record never leaves `Done`/`Failed` and never
   * re-enters `InProgress`.
   */
  lemma {:induction false} RunStatusMonotone(s: ActorState, evs: seq<Event>, u: string)
    requires Admissible(s, evs) && u in s.infos && NoAcceptedReuse(s, evs, u)
    ensures u in Run(s, evs).infos
    ensures StatusMayFollow(s.infos[u].status, Run(s, evs).infos[u].status)
    decreases |evs|
  {
    if |evs| > 0 {
      StepStatus(s, evs[0], u);
      RunStatusMonotone(Step(s, evs[0]), evs[1..], u);
    }
  }

  /** A record that reached `Done` or `Failed` is never changed again, unless an accepted create reuses its uid. */
  lemma {:induction false} RunKeepsFinished(s: ActorState, evs: seq<Event>, u: string)
    requires Admissible(s, evs) && u in s.infos && s.infos[u].status != InProgress
    requires NoAcceptedReuse(s, evs, u)
    ensures u in Run(s, evs).infos && Run(s, evs).infos[u] == s.infos[u]
    decreases |evs|
  {
    if |evs| > 0 {
      StepStatus(s, evs[0], u);
      RunKeepsFinished(Step(s, evs[0]), evs[1..], u);
    }
  }
}
