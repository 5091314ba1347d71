/**
 Saving a session with the object service and getting it back
 (frameworks/innerkitsimpl/src/adaptor/flat_object_store.cpp).

 The object service is another process. It keeps the last snapshot it reported as saved for the
 requested device, hands it to whoever creates the session later, and forgets it when a revocation is
 reported as done; what it answers is an argument of each call.
 */
module SaveResume {
  import opened Types
  import opened StorageEngine

  type DeviceId = Text
  type Snapshot = map<Bytes, Bytes>

  /** The status of the request itself and, when that is SUCCESS, the result per device called back. */
  datatype SaveAnswer = SaveAnswer(status: StatusCode, results: map<DeviceId, StatusCode>)

  /** The status of the request itself and, when that is SUCCESS, the result called back. */
  datatype RevokeAnswer = RevokeAnswer(status: StatusCode, result: StatusCode)

  predicate Accepted(answer: SaveAnswer, device: DeviceId) {
    answer.status == SUCCESS && device in answer.results && answer.results[device] == SUCCESS
  }

  /** The engine of this process and the snapshots kept by the service. */
  datatype Saver = Saver(engine: Engine, saved: map<SessionId, Snapshot>) {

    /** `read` is what the database answers to reading the table. */
    function Save(session: SessionId, device: DeviceId, read: StatusCode, answer: SaveAnswer): (Saver, StatusCode) {
      if !engine.isOpened then (this, ERR_DB_NOT_INIT)
      else if session !in engine.delegates then (this, ERR_DB_NOT_EXIST)
      else if read != SUCCESS then (this, read)
      else if answer.status != SUCCESS then (this, answer.status)
      else if !Accepted(answer, device) then (this, ERR_DB_GET_FAIL)
      else (this.(saved := saved[session := engine.delegates[session].entries]), SUCCESS)
    }

    function RevokeSave(session: SessionId, answer: RevokeAnswer): (Saver, StatusCode) {
      if answer.status != SUCCESS then (this, answer.status)
      else if answer.result != SUCCESS then (this, ERR_DB_GET_FAIL)
      else (this.(saved := saved - {session}), SUCCESS)
    }

    /** The table only; the service calls back with the snapshot whenever it pleases. */
    function CreateObject(session: SessionId, dbOk: bool): (Saver, StatusCode) {
      var (engine', status) := engine.CreateTable(session, dbOk);
      (this.(engine := engine'), status)
    }

    /** The service calls back with a snapshot, or with nothing. */
    function Retrieved(session: SessionId, data: Snapshot, dbOk: bool): Saver {
      if data == map[] then this else this.(engine := engine.UpdateItems(session, data, dbOk).0)
    }

    /** What it calls back with is what it keeps. */
    function Resume(session: SessionId, dbOk: bool): Saver {
      Retrieved(session, Kept(session), dbOk)
    }

    function Kept(session: SessionId): Snapshot {
      if session in saved then saved[session] else map[]
    }
  }

  class ObjectService {
    var saved: map<SessionId, Snapshot>

    constructor ()
      ensures saved == map[]
    {
      saved := map[];
    }

    method ObjectStoreSave(session: SessionId, device: DeviceId, data: Snapshot, answer: SaveAnswer)
        returns (status: StatusCode, results: map<DeviceId, StatusCode>)
      modifies this
      ensures status == answer.status && results == answer.results
      ensures saved == if Accepted(answer, device) then old(saved)[session := data] else old(saved)
    {
      if Accepted(answer, device) {
        saved := saved[session := data];
      }
      return answer.status, answer.results;
    }

    method ObjectStoreRevokeSave(session: SessionId, answer: RevokeAnswer)
      returns (status: StatusCode, result: StatusCode)
      modifies this
      ensures status == answer.status && result == answer.result
      ensures saved == if answer.status == SUCCESS == answer.result then old(saved) - {session} else old(saved)
    {
      if answer.status == SUCCESS && answer.result == SUCCESS {
        saved := saved - {session};
      }
      return answer.status, answer.result;
    }
  }

  class FlatObjectStore {
    const storageEngine: FlatObjectStorageEngine
    const service: ObjectService

    ghost function State(): Saver
      reads storageEngine, service
    {
      Saver(storageEngine.State(), service.saved)
    }

    constructor (storageEngine: FlatObjectStorageEngine, service: ObjectService)
      ensures this.storageEngine == storageEngine && this.service == service
    {
      this.storageEngine, this.service := storageEngine, service;
    }

    method Save(session: SessionId, device: DeviceId, read: StatusCode, answer: SaveAnswer) returns (status: StatusCode)
      modifies service
      ensures (State(), status) == old(State()).Save(session, device, read, answer)
    {
      var objectData: Snapshot;
      status, objectData :=
        storageEngine.GetItems(session, read == SUCCESS, if read == SUCCESS then ERR_DB_GET_FAIL else read);
      if status != SUCCESS {
        return status;
      }
      var results;
      status, results := service.ObjectStoreSave(session, device, objectData, answer);
      if status != SUCCESS {
        return status;
      }
      var notified := if device in results then results[device] else ERR_DB_GET_FAIL;
      return if notified == SUCCESS then notified else ERR_DB_GET_FAIL;
    }

    method RevokeSave(session: SessionId, answer: RevokeAnswer) returns (status: StatusCode)
      modifies service
      ensures (State(), status) == old(State()).RevokeSave(session, answer)
    {
      var result;
      status, result := service.ObjectStoreRevokeSave(session, answer);
      if status != SUCCESS {
        return status;
      }
      return if result == SUCCESS then result else ERR_DB_GET_FAIL;
    }

    method CreateObject(session: SessionId, dbOk: bool) returns (status: StatusCode)
      modifies storageEngine
      ensures (State(), status) == old(State()).CreateObject(session, dbOk)
    {
      status := storageEngine.CreateTable(session, dbOk);
    }

    /** The callback that `CreateObject` leaves with the service. */
    method OnRetrieved(session: SessionId, data: Snapshot, dbOk: bool)
      modifies storageEngine
      ensures State() == old(State()).Retrieved(session, data, dbOk)
    {
      if |data| > 0 {
        var _ := storageEngine.UpdateItems(session, data, dbOk);
      }
    }
  }

  // ---- Whole runs ----

  datatype Step =
    | SaveStep(session: SessionId, device: DeviceId, read: StatusCode, answer: SaveAnswer)
    | RevokeStep(session: SessionId, revoked: RevokeAnswer)
    | CreateStep(session: SessionId, dbOk: bool)
    | ResumeStep(session: SessionId, dbOk: bool)
    | PutStep(session: SessionId, key: Bytes, value: Bytes, dbOk: bool)
    | DeleteStep(session: SessionId, dbOk: bool)

  function Apply(st: Saver, step: Step): Saver {
    match step
    case SaveStep(session, device, read, answer) => st.Save(session, device, read, answer).0
    case RevokeStep(session, revoked) => st.RevokeSave(session, revoked).0
    case CreateStep(session, dbOk) => st.CreateObject(session, dbOk).0
    case ResumeStep(session, dbOk) => st.Resume(session, dbOk)
    case PutStep(session, key, value, dbOk) => st.(engine := st.engine.UpdateItem(session, key, value, dbOk).0)
    case DeleteStep(session, dbOk) => st.(engine := st.engine.DeleteTable(session, dbOk).0)
  }

  function Run(st: Saver, steps: seq<Step>): Saver {
    if steps == [] then st else Apply(Run(st, steps[..|steps| - 1]), steps[|steps| - 1])
  }

  /** A successful save or revocation of the session. */
  predicate Replaces(st: Saver, step: Step, session: SessionId) {
    step.session == session &&
    match step
    case SaveStep(_, device, read, answer) => st.Save(session, device, read, answer).1 == SUCCESS
    case RevokeStep(_, revoked) => st.RevokeSave(session, revoked).1 == SUCCESS
    case _ => false
  }

  /** Save reports success exactly when the service reported it for the requested device. */
  lemma SaveSucceeds(st: Saver, session: SessionId, device: DeviceId, read: StatusCode, answer: SaveAnswer)
    ensures st.Save(session, device, read, answer).1 == SUCCESS <==>
            && st.engine.isOpened && session in st.engine.delegates && read == SUCCESS
            && answer.status == SUCCESS && device in answer.results && answer.results[device] == SUCCESS
    ensures st.Save(session, device, read, answer).1 != SUCCESS ==> st.Save(session, device, read, answer).0 == st
  {
  }

  /** The status of a save that fails, layer by layer. */
  lemma SaveFails(st: Saver, session: SessionId, device: DeviceId, read: StatusCode, answer: SaveAnswer)
    ensures var status := st.Save(session, device, read, answer).1;
            && (!st.engine.isOpened ==> status == ERR_DB_NOT_INIT)
            && (st.engine.isOpened && session !in st.engine.delegates ==> status == ERR_DB_NOT_EXIST)
            && (st.engine.isOpened && session in st.engine.delegates && read != SUCCESS ==> status == read)
            && (st.engine.isOpened && session in st.engine.delegates && read == SUCCESS && status != SUCCESS ==>
                status == if answer.status != SUCCESS then answer.status else ERR_DB_GET_FAIL)
  {
  }

  /** What a successful save keeps is the table, for that session only. */
  lemma SaveKeeps(st: Saver, session: SessionId, device: DeviceId, read: StatusCode, answer: SaveAnswer, s: SessionId)
    requires st.Save(session, device, read, answer).1 == SUCCESS
    ensures session in st.engine.delegates
    ensures var st' := st.Save(session, device, read, answer).0;
            && st'.engine == st.engine
            && st'.Kept(s) == if s == session then st.engine.delegates[s].entries else st.Kept(s)
  {
  }

  /**
   Revoking reports success exactly when the service reported it twice; then the snapshot of that session
   is forgotten and no other. Otherwise nothing is, and the status says which answer was the bad one.
   */
  lemma RevokeForgets(st: Saver, session: SessionId, answer: RevokeAnswer, s: SessionId)
    ensures var (st', status) := st.RevokeSave(session, answer);
            && (status == SUCCESS <==> answer.status == SUCCESS && answer.result == SUCCESS)
            && (status != SUCCESS ==>
                st' == st && status == if answer.status != SUCCESS then answer.status else ERR_DB_GET_FAIL)
            && st'.engine == st.engine
            && st'.Kept(s) == if status == SUCCESS && s == session then map[] else st.Kept(s)
  {
  }

  lemma StepKept(st: Saver, step: Step, session: SessionId)
    ensures Apply(st, step).engine.isOpened == st.engine.isOpened
    ensures !Replaces(st, step, session) ==> Apply(st, step).Kept(session) == st.Kept(session)
  {
  }

  /** Nothing but a successful save or revocation of a session changes what is kept for it. */
  lemma {:induction false} KeptOverRun(st: Saver, steps: seq<Step>, session: SessionId)
    requires forall i | 0 <= i < |steps| :: !Replaces(Run(st, steps[..i]), steps[i], session)
    ensures Run(st, steps).Kept(session) == st.Kept(session)
    ensures Run(st, steps).engine.isOpened == st.engine.isOpened
  {
    if steps != [] {
      var front := steps[..|steps| - 1];
      forall i | 0 <= i < |front| ensures !Replaces(Run(st, front[..i]), front[i], session) {
        assert front[..i] == steps[..i];
      }
      KeptOverRun(st, front, session);
      StepKept(Run(st, front), steps[|steps| - 1], session);
    }
  }

  /** What an accepted retrieval does with nothing: an empty snapshot leaves the store as it is. */
  lemma NothingRetrieved(st: Saver, session: SessionId, dbOk: bool)
    requires st.Kept(session) == map[]
    ensures st.Resume(session, dbOk) == st
  {
  }

  /** Saved values win over what is in the table; everything else in it is kept. */
  lemma ResumeOverlays(st: Saver, session: SessionId)
    requires st.engine.isOpened && session in st.engine.delegates
    ensures var table, table' := st.engine.delegates[session], st.Resume(session, true).engine.delegates[session];
            table' == table.(entries := table.entries + st.Kept(session))
    ensures st.Resume(session, true).engine.delegates - {session} == st.engine.delegates - {session}
  {
  }

  /**
   Save, whatever follows short of saving or revoking again, delete, create and resume: the table is
   the saved one again, even when it was empty.
   */
  lemma SaveThenResume(st: Saver, session: SessionId, device: DeviceId, read: StatusCode, answer: SaveAnswer,
                       steps: seq<Step>)
    requires st.Save(session, device, read, answer).1 == SUCCESS
    requires var st' := st.Save(session, device, read, answer).0;
             && (forall i | 0 <= i < |steps| :: !Replaces(Run(st', steps[..i]), steps[i], session))
             && session !in Run(st', steps).engine.delegates
    ensures var later := Run(st.Save(session, device, read, answer).0, steps);
            var (created, status) := later.CreateObject(session, true);
            && status == SUCCESS
            && created.Resume(session, true).engine.delegates[session].entries == st.engine.delegates[session].entries
  {
    var st' := st.Save(session, device, read, answer).0;
    KeptOverRun(st', steps, session);
    var created := Run(st', steps).CreateObject(session, true).0;
    ResumeOverlays(created, session);
    assert map[] + st.engine.delegates[session].entries == st.engine.delegates[session].entries;
  }

  /**
   A revoked save is gone: whatever follows short of saving again, delete, create and resume give an empty
   table.
   */
  lemma RevokeThenResume(st: Saver, session: SessionId, answer: RevokeAnswer, steps: seq<Step>)
    requires st.RevokeSave(session, answer).1 == SUCCESS
    requires var st' := st.RevokeSave(session, answer).0;
             && (forall i | 0 <= i < |steps| :: !Replaces(Run(st', steps[..i]), steps[i], session))
             && Run(st', steps).engine.isOpened && session !in Run(st', steps).engine.delegates
    ensures var later := Run(st.RevokeSave(session, answer).0, steps);
            var (created, status) := later.CreateObject(session, true);
            && status == SUCCESS && session in created.Resume(session, true).engine.delegates
            && created.Resume(session, true).engine.delegates[session].entries == map[]
  {
    var st' := st.RevokeSave(session, answer).0;
    RevokeForgets(st, session, answer, session);
    KeptOverRun(st', steps, session);
    NothingRetrieved(Run(st', steps).CreateObject(session, true).0, session, true);
  }
}
