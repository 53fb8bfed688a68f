/** The `useFormDataWithAPI` hook: the profile form, the calculation session
    record, the backend's result and the persisted `datapay_session` entry.
    Backend calls are asynchronous in the source; here each one is split into the
    part that runs before the call and a `Finish` method that receives the
    call's outcome as a parameter. */
module Session {
  import opened Wrappers
  import opened Form
  import Wizard

  /** The `calculationSession` record. `currentStep` is absent from the initial
      record and is added only by a successful calculation. */
  datatype SessionState = SessionState(
    sessionId: Option<string>,
    calculationId: Option<string>,
    isLoading: bool,
    error: Option<string>,
    currentStep: Option<int>)

  const IdleSession := SessionState(None, None, false, None, None)

  /** The form the hook starts with: five empty sections, frequency 5. */
  const InitialForm := EmptyForm.(digitalHabits := DigitalHabits(None, Some(5)))

  /** The backend's calculation result, kept as the payload it returned. */
  datatype CalcResult = CalcResult(payload: string)

  /** What `localStorage.getItem('datapay_session')` yields. */
  datatype Stored = NoEntry | Unparsable | Entry(sessionId: Option<string>, calculationId: Option<string>)

  /** Outcome of `apiService.startCalculation()`. */
  datatype StartOutcome =
    | StartOk(newSessionId: Option<string>, newCalculationId: Option<string>)
    | StartRejected(rejection: Option<string>)
    | StartThrew(thrownMessage: Option<string>)

  /** Outcome of `apiService.updateCalculation(...)`. */
  datatype PushOutcome = PushOk | PushFailed(failure: Option<string>)

  /** Outcome of `apiService.calculateValue(...)`. */
  datatype CalcOutcome =
    | CalcOk(calcResult: CalcResult)
    | CalcRejected(calcRejection: Option<string>)
    | CalcThrew(calcThrown: Option<string>)

  const StartFailedMessage := "Erro ao inicializar sessão"
  const CalcFailedMessage := "Erro ao calcular o valor dos dados."
  const ConnectionFailedMessage := "Erro de conexão com o servidor. Tente novamente."
  const NoSessionMessage := "Nenhuma sessão ativa"

  /** `message || fallback`: an empty or missing message gives the fallback. */
  function OrDefault(message: Option<string>, fallback: string): (m: string)
    ensures Truthy(message) ==> m == message.value
    ensures !Truthy(message) ==> m == fallback
    ensures fallback != "" ==> m != ""
  {
    if Truthy(message) then message.value else fallback
  }

  /** `isFormComplete()`: `?.length > 0` makes a missing list count as empty. */
  predicate IsFormComplete(f: FormData)
    ensures IsFormComplete(f) ==>
      f.digitalHabits.socialNetworks.Some? && f.consumption.shoppingChannels.Some? && f.health.healthInterests.Some?
    ensures IsFormComplete(f) ==> Wizard.IsStepValid(f, 5) == Some(true)
  {
    && Truthy(f.personalInfo.age) && Truthy(f.personalInfo.gender)
    && HasItems(f.digitalHabits.socialNetworks)
    && HasItems(f.consumption.shoppingChannels)
    && HasItems(f.health.healthInterests)
    && Truthy(f.advanced.incomeRange) && Truthy(f.advanced.professionalArea)
  }

  /** A complete form passes the wizard's tests for steps 2 to 5; step 1 also needs
      a location, which completeness does not ask for. */
  lemma CompleteFormPassesLaterSteps(f: FormData)
    requires IsFormComplete(f)
    ensures forall s :: 2 <= s <= 5 ==> Wizard.IsStepValid(f, s) == Some(true)
    ensures Wizard.IsStepValid(f, 1) == Some(Truthy(f.personalInfo.location))
  {
  }

  /** Neither the initial form nor the cleared one is complete. */
  lemma StartingFormsIncomplete()
    ensures !IsFormComplete(InitialForm) && !IsFormComplete(EmptyForm)
  {
  }

  class CalculationSession {
    var formData: FormData
    var session: SessionState
    var result: Option<CalcResult>
    var storage: Stored

    constructor (saved: Stored)
      ensures formData == InitialForm && session == IdleSession && result == None && storage == saved
    {
      formData := InitialForm;
      session := IdleSession;
      result := None;
      storage := saved;
    }

    /** `initializeSession()` up to the backend call. */
    method StartInitialize()
      modifies this
      ensures session == old(session).(isLoading := true, error := None)
      ensures formData == old(formData) && result == old(result) && storage == old(storage)
    {
      session := session.(isLoading := true, error := None);
    }

    /** `initializeSession()` after the backend answered; `rethrown` is the message of the error it rethrows. */
    method FinishInitialize(outcome: StartOutcome) returns (rethrown: Option<string>)
      modifies this
      ensures formData == old(formData) && result == old(result)
      ensures outcome.StartOk? ==>
        && rethrown == None
        && session == old(session).(sessionId := outcome.newSessionId, calculationId := outcome.newCalculationId, isLoading := false)
        && storage == Entry(outcome.newSessionId, outcome.newCalculationId)
      ensures outcome.StartRejected? ==>
        && rethrown == Some(OrDefault(outcome.rejection, StartFailedMessage))
        && session == old(session).(isLoading := false, error := rethrown)
        && storage == old(storage)
      ensures outcome.StartThrew? ==>
        && rethrown == outcome.thrownMessage
        && session == old(session).(isLoading := false, error := rethrown)
        && storage == old(storage)
    {
      match outcome
      case StartOk(sid, cid) =>
        session := session.(sessionId := sid, calculationId := cid, isLoading := false);
        storage := Entry(sid, cid);
        rethrown := None;
      case StartRejected(msg) =>
        rethrown := Some(OrDefault(msg, StartFailedMessage));
        session := session.(isLoading := false, error := rethrown);
      case StartThrew(msg) =>
        rethrown := msg;
        session := session.(isLoading := false, error := rethrown);
    }

    /** `restoreSession()`: copies only the two ids from a readable entry. */
    method RestoreSession() returns (restored: Option<Stored>)
      modifies this
      ensures formData == old(formData) && result == old(result) && storage == old(storage)
      ensures !storage.Entry? ==> restored == None && session == old(session)
      ensures storage.Entry? ==>
        && restored == Some(storage)
        && session == old(session).(sessionId := storage.sessionId, calculationId := storage.calculationId)
    {
      if storage.Entry? {
        session := session.(sessionId := storage.sessionId, calculationId := storage.calculationId);
        restored := Some(storage);
      } else {
        restored := None;
      }
    }

    /** `updateFormData(section, data)` with `updateBackendData(newFormData)`:
        the merged form is kept whatever the push does; the push happens only with
        a calculation id, and its failure only records the error. */
    method UpdateFormData(patch: Patch, push: PushOutcome) returns (pushed: Option<FormData>)
      modifies this
      ensures formData == UpdateSection(old(formData), patch)
      ensures result == old(result) && storage == old(storage)
      ensures Truthy(old(session).calculationId) <==> pushed == Some(formData)
      ensures !Truthy(old(session).calculationId) ==> pushed == None
      ensures session == if pushed.Some? && push.PushFailed? then old(session).(error := push.failure) else old(session)
    {
      formData := UpdateSection(formData, patch);
      if !Truthy(session.calculationId) {
        pushed := None;
      } else {
        pushed := Some(formData);
        if push.PushFailed? {
          session := session.(error := push.failure);
        }
      }
    }

    /** `calculateFinalValue()` up to the backend call: without a calculation id it
        throws before touching any state; `isLoading` is not consulted. */
    method StartCalculation() returns (started: Result<string, string>)
      modifies this
      ensures formData == old(formData) && result == old(result) && storage == old(storage)
      ensures !Truthy(old(session).calculationId) ==> started == Err(NoSessionMessage) && session == old(session)
      ensures Truthy(old(session).calculationId) ==>
        && started == Ok(old(session).calculationId.value)
        && session == old(session).(isLoading := true, error := None)
    {
      if !Truthy(session.calculationId) {
        started := Err(NoSessionMessage);
      } else {
        started := Ok(session.calculationId.value);
        session := session.(isLoading := true, error := None);
      }
    }

    /** `calculateFinalValue()` after the backend answered; `rethrown` tells whether the error escapes. */
    method FinishCalculation(outcome: CalcOutcome) returns (rethrown: bool)
      modifies this
      ensures formData == old(formData) && storage == old(storage)
      ensures outcome.CalcOk? ==>
        && !rethrown && result == Some(outcome.calcResult)
        && session == old(session).(isLoading := false, currentStep := Some(6))
      ensures outcome.CalcRejected? ==>
        && !rethrown && result == old(result)
        && session == old(session).(isLoading := false, error := Some(OrDefault(outcome.calcRejection, CalcFailedMessage)))
      ensures outcome.CalcThrew? ==>
        && rethrown && result == old(result)
        && session == old(session).(isLoading := false, error := Some(OrDefault(outcome.calcThrown, ConnectionFailedMessage)))
    {
      match outcome
      case CalcOk(r) =>
        result := Some(r);
        session := session.(isLoading := false, currentStep := Some(6));
        rethrown := false;
      case CalcRejected(msg) =>
        session := session.(isLoading := false, error := Some(OrDefault(msg, CalcFailedMessage)));
        rethrown := false;
      case CalcThrew(msg) =>
        session := session.(isLoading := false, error := Some(OrDefault(msg, ConnectionFailedMessage)));
        rethrown := true;
    }

    /** `clearSession()`: every section becomes `{}` (the frequency default is not
        restored), the session record is rebuilt without `currentStep`, the result
        and the persisted entry are dropped. */
    method ClearSession()
      modifies this
      ensures formData == EmptyForm && formData != InitialForm
      ensures session == IdleSession && result == None && storage == NoEntry
    {
      formData := EmptyForm;
      session := IdleSession;
      result := None;
      storage := NoEntry;
    }

    /** `isFormComplete()` on the current form. */
    function FormComplete(): (complete: bool)
      reads this
      ensures complete ==> HasItems(formData.health.healthInterests) && Truthy(formData.advanced.incomeRange)
    {
      IsFormComplete(formData)
    }
  }

  /** A cleared session cannot start a calculation until a new one is initialised. */
  method ClearedSessionCannotCalculate(saved: Stored) returns (started: Result<string, string>)
    ensures started == Err(NoSessionMessage)
  {
    var s := new CalculationSession(saved);
    var _ := s.FinishInitialize(StartOk(Some("s"), Some("c")));
    s.ClearSession();
    started := s.StartCalculation();
  }
}
