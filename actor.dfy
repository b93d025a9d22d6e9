/**
 * The dump actor as an object: the gate and the registry are fields that its
 * handlers update in place. Each handler step is atomic here and is proved
 * against the step of the same name in DumpMachine.
 */
module Actor {
  import opened DumpTypes
  import opened DumpMachine

  class DumpActor {
    /** Whether the one-slot "dump running" mutex is held. */
    var gateHeld: bool
    /** The registry of status records, keyed by dump uid. */
    var infos: map<string, DumpInfo>

    ghost function State(): ActorState
      reads this
    {
      ActorState(gateHeld, infos)
    }

    ghost predicate Valid()
      reads this
    {
      Inv(State())
    }

    /** A new actor: empty registry, gate free. */
    constructor ()
      ensures Valid() && State() == Initial
    {
      gateHeld := false;
      infos := map[];
      InitialInv();
    }

    /**
     * The accept phase of a create request, with `uid` the identifier the
     * handler generated: refuse when a dump is running, otherwise register
     * the new dump as in progress and answer with its record.
     */
    method BeginDump(uid: string) returns (reply: DumpResult<DumpInfo>)
      requires Valid()
      modifies this
      ensures Valid()
      ensures State() == Begin(old(State()), uid).0
      ensures reply == Begin(old(State()), uid).1
    {
      var info := DumpInfo.New(uid, InProgress);
      if gateHeld {
        reply := Err(DumpAlreadyRunning);
        return;
      }
      gateHeld := true;
      infos := infos[uid := info];
      reply := Ok(info);
      BeginPreservesInv(old(State()), uid);
    }

    /**
     * The completion phase of the create request that began `uid`: record
     * how its task ended and release the gate.
     */
    method FinishDump(uid: string, outcome: TaskOutcome)
      requires Valid() && Running(State(), uid)
      modifies this
      ensures Valid()
      ensures State() == Finish(old(State()), uid, outcome)
      ensures infos[uid].status != InProgress && !gateHeld
    {
      var info := infos[uid];
      match outcome {
        case Success =>
          info := info.MarkDone();
        case TaskError(msg) =>
          info := info.WithError(msg);
        case Panicked =>
          info := info.WithError(PanicMessage);
      }
      infos := infos[uid := info];
      gateHeld := false;
      FinishPreservesInv(old(State()), uid, outcome);
    }

    /** An info request: read-only lookup of `uid`. */
    method QueryInfo(uid: string) returns (r: DumpResult<DumpInfo>)
      ensures r == Lookup(State(), uid)
    {
      if uid in infos {
        r := Ok(infos[uid]);
      } else {
        r := Err(DumpDoesNotExist(uid));
      }
    }
  }
}
