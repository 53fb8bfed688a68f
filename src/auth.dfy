/** `AuthContext`: the signed-in user, the loading flag and the two persisted
    entries `token` and `user`; login, registration (with its phone
    normalisation and role checks), logout, and the mapping of backend errors to
    the messages shown. Backend answers are parameters. */
module Auth {
  import opened Wrappers
  import opened Text
  import Form

  datatype User = User(id: int, name: string, role: Option<string>)

  /** The persisted `user` entry: `None` when its text does not parse. */
  datatype StoredUser = UserJson(parsed: Option<User>)

  /** `response.data.data` of a successful call. */
  datatype AuthData = AuthData(token: Option<string>, authUser: Option<User>)

  /** `error.response.data`; `errors` holds the values of the field-to-messages object, in order. */
  datatype ErrorData = ErrorData(message: Option<string>, errors: Option<seq<seq<string>>>)

  /** An error caught by `login`/`register`: one with a response, one with a
      request only, or any other error with its `message`. */
  datatype ApiError =
    | ResponseError(status: int, data: Option<ErrorData>)
    | RequestError
    | PlainError(plainMessage: Option<string>)

  /** What the backend call did. */
  datatype CallOutcome = Answered(body: Option<AuthData>) | Failed(failure: ApiError)

  datatype AuthResult = Success | Failure(error: string)

  const InvalidAnswerMessage := "Resposta da API inválida"
  const ConnectionMessage := "Erro de conexão. Verifique sua internet."
  const PhoneRequiredMessage := "Telefone é obrigatório"
  const PhoneLengthMessage := "Telefone deve ter 10, 11, 12 ou 13 dígitos"
  const PhoneFormatMessage := "Erro na formatação do telefone"
  const CompanyAndCnpjMessage := "Nome da empresa e CNPJ são obrigatórios para empresas"
  const ArchitectCompanyMessage := "Nome da empresa é obrigatório para arquitetos"

  /** The token and user of an answer that carries both, if it does. */
  function AcceptedSession(outcome: CallOutcome): (s: Option<(string, User)>)
    ensures s.Some? <==> outcome.Answered? && outcome.body.Some? && Form.Truthy(outcome.body.value.token) && outcome.body.value.authUser.Some?
    ensures s.Some? ==> s.value == (outcome.body.value.token.value, outcome.body.value.authUser.value)
  {
    if outcome.Answered? && outcome.body.Some? && Form.Truthy(outcome.body.value.token) && outcome.body.value.authUser.Some?
    then Some((outcome.body.value.token.value, outcome.body.value.authUser.value))
    else None
  }

  /** The error a rejected call ends with: the backend's own, or the invalid-answer error. */
  function CaughtError(outcome: CallOutcome): ApiError {
    if outcome.Failed? then outcome.failure else PlainError(Some(InvalidAnswerMessage))
  }

  function ServerErrorMessage(status: int): string {
    "Erro do servidor (" + IntToString(status) + ")"
  }

  /** The messages of `data.errors`, flattened and joined with ", ". */
  function JoinedErrors(errors: seq<seq<string>>): string {
    Join(Flatten(errors), ", ")
  }

  /** The message `login` returns for a caught error. A plain error always gives
      the generic message, its own text is not used. */
  function LoginErrorMessage(e: ApiError): (m: string)
    ensures e.ResponseError? && e.status == 401 ==> m == "Credenciais incorretas"
    ensures m == "" ==>
      && e.ResponseError? && e.status == 422 && e.data.Some? && !Form.Truthy(e.data.value.message)
      && e.data.value.errors.Some? && JoinedErrors(e.data.value.errors.value) == ""
  {
    match e
    case ResponseError(status, data) =>
      if status == 422 then
        if data.Some? && Form.Truthy(data.value.message) then data.value.message.value
        else if data.Some? && data.value.errors.Some? then JoinedErrors(data.value.errors.value)
        else "Email ou senha inválidos"
      else if status == 401 then "Credenciais incorretas"
      else if data.Some? && Form.Truthy(data.value.message) then data.value.message.value
      else ServerErrorMessage(status)
    case RequestError => ConnectionMessage
    case PlainError(_) => "Erro ao fazer login"
  }

  /** The message `register` returns, as written: a 422 answer with field errors
      but no message computes the joined list and drops it, leaving the generic
      message. */
  function RegisterErrorMessage(e: ApiError): (m: string)
    ensures m != ""
    ensures e.ResponseError? && e.status == 422 && e.data.Some? && !Form.Truthy(e.data.value.message) && e.data.value.errors.Some? ==>
      m == "Erro ao criar conta"
  {
    match e
    case ResponseError(status, data) =>
      if status == 422 then
        if data.Some? && Form.Truthy(data.value.message) then data.value.message.value
        else if data.Some? && data.value.errors.Some? then "Erro ao criar conta"
        else "Dados inválidos fornecidos"
      else if data.Some? && Form.Truthy(data.value.message) then data.value.message.value
      else ServerErrorMessage(status)
    case RequestError => ConnectionMessage
    case PlainError(m) => if Form.Truthy(m) then m.value else "Erro ao criar conta"
  }

  /** The message `register` evidently means to return: field errors are joined as `login` does. */
  function RegisterErrorMessageIntended(e: ApiError): (m: string)
    ensures e.ResponseError? && e.status == 422 && e.data.Some? && !Form.Truthy(e.data.value.message) && e.data.value.errors.Some? ==>
      m == JoinedErrors(e.data.value.errors.value)
    ensures !(e.ResponseError? && e.status == 422) ==> m == RegisterErrorMessage(e)
  {
    if e.ResponseError? && e.status == 422 && e.data.Some? && !Form.Truthy(e.data.value.message) && e.data.value.errors.Some?
    then JoinedErrors(e.data.value.errors.value)
    else RegisterErrorMessage(e)
  }

  /** As written, a 422 answer listing field errors reaches the user as the generic
      message, while `login` shows the errors themselves. */
  lemma FieldErrorsDroppedByRegister()
    ensures var e := ResponseError(422, Some(ErrorData(None, Some([["O email já está em uso."]]))));
      && RegisterErrorMessage(e) == "Erro ao criar conta"
      && RegisterErrorMessageIntended(e) == "O email já está em uso."
      && LoginErrorMessage(e) == RegisterErrorMessageIntended(e)
  {
    var e := ResponseError(422, Some(ErrorData(None, Some([["O email já está em uso."]]))));
    assert Flatten([["O email já está em uso."]]) == ["O email já está em uso."];
  }

  /** Away from 401 and 422 responses and plain errors, login and (corrected)
      registration report the same message; a backend message is passed through
      verbatim whatever the status, except 401 for login. */
  lemma ErrorMessagesAgree(e: ApiError)
    ensures e.ResponseError? && e.status != 401 && e.status != 422 ==> LoginErrorMessage(e) == RegisterErrorMessageIntended(e)
    ensures e.RequestError? ==> LoginErrorMessage(e) == RegisterErrorMessageIntended(e) == ConnectionMessage
    ensures e.ResponseError? && e.data.Some? && Form.Truthy(e.data.value.message) ==>
      RegisterErrorMessageIntended(e) == e.data.value.message.value &&
      (e.status != 401 ==> LoginErrorMessage(e) == e.data.value.message.value)
    ensures e.ResponseError? && e.status == 401 ==> LoginErrorMessage(e) == "Credenciais incorretas"
  {
  }

  /** A phone value as `register` receives it. */
  datatype PhoneValue = NoPhone | PhoneNumber(n: int) | PhoneText(s: string)

  predicate PhoneTruthy(p: PhoneValue) {
    match p
    case NoPhone => false
    case PhoneNumber(n) => n != 0
    case PhoneText(s) => s != ""
  }

  /** `String(p)`. */
  function PhoneToString(p: PhoneValue): string
    requires !p.NoPhone?
  {
    match p
    case PhoneNumber(n) => IntToString(n)
    case PhoneText(s) => s
  }

  /** `phone_number`, else `phone`, as text; `None` when neither is truthy. */
  function PhoneString(phoneNumber: PhoneValue, phone: PhoneValue): Option<string> {
    if PhoneTruthy(phoneNumber) then Some(PhoneToString(phoneNumber))
    else if PhoneTruthy(phone) then Some(PhoneToString(phone))
    else None
  }

  /** The phone with the `55` country code prefixed, before its length is checked. */
  function WithCountryCode(clean: string): Result<string, string> {
    if |clean| == 13 then Ok(clean)
    else if |clean| == 11 || |clean| == 10 then Ok("55" + clean)
    else if |clean| == 12 then Ok(if clean[..2] == "55" then "55" + clean[2..] else "55" + clean)
    else Err(PhoneLengthMessage)
  }

  /** The phone normalisation as written: only 13-digit results are accepted. */
  function NormalizePhone(clean: string): (r: Result<string, string>)
    ensures r.Ok? ==> |r.value| == 13 && (r.value == clean || r.value == "55" + clean)
    ensures r.Err? ==> r.error == PhoneLengthMessage || r.error == PhoneFormatMessage
  {
    match WithCountryCode(clean)
    case Err(m) => Err(m)
    case Ok(p) => if |p| != 13 then Err(PhoneFormatMessage) else Ok(p)
  }

  /** As written, only 11 and 13 digits get through; every 10-digit (landline)
      number and every 12-digit number fails the final length check. */
  lemma NormalizePhoneAsWritten(clean: string)
    ensures NormalizePhone(clean).Ok? <==> |clean| == 11 || |clean| == 13
    ensures |clean| == 11 ==> NormalizePhone(clean) == Ok("55" + clean)
    ensures |clean| == 13 ==> NormalizePhone(clean) == Ok(clean)
    ensures |clean| == 10 || |clean| == 12 ==> NormalizePhone(clean) == Err(PhoneFormatMessage)
  {
  }

  /** The normalisation evidently intended: a landline gets `55` and 12 digits. */
  function NormalizePhoneIntended(clean: string): (r: Result<string, string>)
    ensures r.Ok? ==> |r.value| == 12 || |r.value| == 13
    ensures r.Ok? ==> r.value[..2] == "55" || |clean| == 13
  {
    match WithCountryCode(clean)
    case Err(m) => Err(m)
    case Ok(p) => if |p| != 12 && |p| != 13 then Err(PhoneFormatMessage) else Ok(p)
  }

  /** Corrected, every 10- or 11-digit number gets the country code, 13 digits pass
      unchanged, a 12-digit number passes only when it already starts with 55. */
  lemma NormalizePhoneIntendedCases(clean: string)
    ensures |clean| == 10 || |clean| == 11 ==> NormalizePhoneIntended(clean) == Ok("55" + clean)
    ensures |clean| == 13 ==> NormalizePhoneIntended(clean) == Ok(clean)
    ensures |clean| == 12 ==> (NormalizePhoneIntended(clean).Ok? <==> clean[..2] == "55")
    ensures !(10 <= |clean| <= 13) ==> NormalizePhoneIntended(clean) == Err(PhoneLengthMessage)
  {
    if |clean| == 12 && clean[..2] == "55" {
      assert "55" + clean[2..] == clean;
    }
  }

  /** What `register` receives. */
  datatype RegisterData = RegisterData(
    name: string, phoneNumber: PhoneValue, phone: PhoneValue, email: string,
    password: string, passwordConfirmation: string, role: string,
    companyName: Option<string>, cnpj: Option<string>)

  /** The body posted to `/auth/register`. */
  datatype RequestData = RequestData(
    name: string, phoneNumber: int, email: string, password: string,
    passwordConfirmation: string, role: string,
    companyName: Option<string>, cnpj: Option<string>)

  /** The normalised phone, as written or corrected. */
  function PreparePhone(data: RegisterData, intended: bool): Result<string, string> {
    match PhoneString(data.phoneNumber, data.phone)
    case None => Err(PhoneRequiredMessage)
    case Some(s) => if intended then NormalizePhoneIntended(Digits(s)) else NormalizePhone(Digits(s))
  }

  /** The request body, or the message of the error thrown before the call. */
  function BuildRequest(data: RegisterData, phone: Result<string, string>): (r: Result<RequestData, string>)
    ensures phone.Err? ==> r == Err(phone.error)
    ensures r.Ok? <==>
      && phone.Ok?
      && (data.role == "COMPANY" ==> Form.Truthy(data.companyName) && Form.Truthy(data.cnpj))
      && (data.role == "ARCHITECT" ==> Form.Truthy(data.companyName))
    ensures r.Ok? ==> r.value.name == data.name && r.value.email == data.email && r.value.role == data.role
    ensures r.Ok? && data.role == "COMPANY" ==>
      && r.value.companyName == data.companyName && Form.Truthy(r.value.companyName)
      && Form.Truthy(data.cnpj) && r.value.cnpj == Some(Digits(data.cnpj.value))
    ensures r.Ok? && data.role == "ARCHITECT" ==>
      r.value.companyName == data.companyName && Form.Truthy(r.value.companyName) && r.value.cnpj == None
    ensures r.Ok? && data.role != "COMPANY" && data.role != "ARCHITECT" ==> r.value.companyName == None && r.value.cnpj == None
    ensures phone.Ok? && AllDigits(phone.value) && |phone.value| >= 1 && r.Ok? ==> r.value.phoneNumber == DigitsValue(phone.value)
  {
    match phone
    case Err(m) => Err(m)
    case Ok(p) =>
      var number := if AllDigits(p) && |p| >= 1 then DigitsValue(p) else 0;
      var base := RequestData(data.name, number, data.email, data.password, data.passwordConfirmation, data.role, None, None);
      if data.role == "COMPANY" then
        if !Form.Truthy(data.companyName) || !Form.Truthy(data.cnpj) then Err(CompanyAndCnpjMessage)
        else Ok(base.(companyName := data.companyName, cnpj := Some(Digits(data.cnpj.value))))
      else if data.role == "ARCHITECT" then
        if !Form.Truthy(data.companyName) then Err(ArchitectCompanyMessage)
        else Ok(base.(companyName := data.companyName))
      else Ok(base)
  }

  class AuthState {
    var user: Option<User>
    var loading: bool
    var storedToken: Option<string>
    var storedUser: Option<StoredUser>

    /** The provider before its startup effect has run. */
    constructor (token: Option<string>, saved: Option<StoredUser>)
      ensures user == None && loading && storedToken == token && storedUser == saved
    {
      user := None;
      loading := true;
      storedToken := token;
      storedUser := saved;
    }

    /** `isAuthenticated`. */
    predicate IsAuthenticated()
      reads this
    {
      user.Some?
    }

    /** The startup effect: adopt a persisted user when both entries exist, drop
        both when the user entry does not parse, and stop loading. */
    method Startup()
      modifies this
      ensures !loading
      ensures Form.Truthy(old(storedToken)) && old(storedUser).Some? && old(storedUser).value.parsed.Some? ==>
        user == old(storedUser).value.parsed && storedToken == old(storedToken) && storedUser == old(storedUser)
      ensures Form.Truthy(old(storedToken)) && old(storedUser).Some? && old(storedUser).value.parsed.None? ==>
        user == old(user) && storedToken == None && storedUser == None
      ensures !(Form.Truthy(old(storedToken)) && old(storedUser).Some?) ==>
        user == old(user) && storedToken == old(storedToken) && storedUser == old(storedUser)
    {
      if Form.Truthy(storedToken) && storedUser.Some? {
        if storedUser.value.parsed.Some? {
          user := storedUser.value.parsed;
        } else {
          storedToken := None;
          storedUser := None;
        }
      }
      loading := false;
    }

    /** Adopt an accepted answer: persist the token and user and sign in. */
    method Adopt(token: string, u: User)
      modifies this
      ensures user == Some(u) && storedToken == Some(token) && storedUser == Some(UserJson(Some(u)))
      ensures loading == old(loading)
    {
      storedToken := Some(token);
      storedUser := Some(UserJson(Some(u)));
      user := Some(u);
    }

    /** `login(email, password)` once the backend has answered with `outcome`. */
    method Login(outcome: CallOutcome) returns (res: AuthResult)
      modifies this
      ensures loading == old(loading)
      ensures AcceptedSession(outcome).Some? ==>
        var (token, u) := AcceptedSession(outcome).value;
        res == Success && user == Some(u) && storedToken == Some(token) && storedUser == Some(UserJson(Some(u)))
      ensures AcceptedSession(outcome).None? ==>
        res == Failure(LoginErrorMessage(CaughtError(outcome)))
        && user == old(user) && storedToken == old(storedToken) && storedUser == old(storedUser)
    {
      var accepted := AcceptedSession(outcome);
      if accepted.Some? {
        Adopt(accepted.value.0, accepted.value.1);
        res := Success;
      } else {
        res := Failure(LoginErrorMessage(CaughtError(outcome)));
      }
    }

    /** Post a request body, or surface the error thrown before the call, and
        handle the answer `outcome` as for login; `messageOf` maps a caught error
        to the message shown. */
    method Submit(request: Result<RequestData, string>, outcome: CallOutcome, messageOf: ApiError -> string)
      returns (posted: Option<RequestData>, res: AuthResult)
      modifies this
      ensures loading == old(loading)
      ensures request.Err? ==>
        posted == None && res == Failure(request.error)
        && user == old(user) && storedToken == old(storedToken) && storedUser == old(storedUser)
      ensures request.Ok? ==> posted == Some(request.value)
      ensures request.Ok? && AcceptedSession(outcome).Some? ==>
        var (token, u) := AcceptedSession(outcome).value;
        res == Success && user == Some(u) && storedToken == Some(token) && storedUser == Some(UserJson(Some(u)))
      ensures request.Ok? && AcceptedSession(outcome).None? ==>
        res == Failure(messageOf(CaughtError(outcome)))
        && user == old(user) && storedToken == old(storedToken) && storedUser == old(storedUser)
    {
      if request.Err? {
        posted := None;
        res := Failure(request.error);
        return;
      }
      posted := Some(request.value);
      var accepted := AcceptedSession(outcome);
      if accepted.Some? {
        Adopt(accepted.value.0, accepted.value.1);
        res := Success;
      } else {
        res := Failure(messageOf(CaughtError(outcome)));
      }
    }

    /** `register(userData)` as written: errors thrown before the call (among them
        the phone-format error every 10- and 12-digit number meets) surface with
        their own message and nothing is posted (`posted` is `None`); otherwise
        the request body is posted and the answer `outcome` handled as for login,
        a 422 answer with field errors only giving the generic message. */
    method Register(data: RegisterData, outcome: CallOutcome) returns (posted: Option<RequestData>, res: AuthResult)
      modifies this
      ensures loading == old(loading)
      ensures var request := BuildRequest(data, PreparePhone(data, false));
        && (request.Err? ==>
              posted == None && res == Failure(request.error)
              && user == old(user) && storedToken == old(storedToken) && storedUser == old(storedUser))
        && (request.Ok? ==> posted == Some(request.value))
      ensures posted.Some? && AcceptedSession(outcome).Some? ==>
        var (token, u) := AcceptedSession(outcome).value;
        res == Success && user == Some(u) && storedToken == Some(token) && storedUser == Some(UserJson(Some(u)))
      ensures posted.Some? && AcceptedSession(outcome).None? ==>
        res == Failure(RegisterErrorMessage(CaughtError(outcome)))
        && user == old(user) && storedToken == old(storedToken) && storedUser == old(storedUser)
    {
      posted, res := Submit(BuildRequest(data, PreparePhone(data, false)), outcome, RegisterErrorMessage);
    }

    /** `register(userData)` with the phone normalisation and the error mapping
        corrected: landlines are posted with the country code and field errors
        are shown joined. */
    method RegisterIntended(data: RegisterData, outcome: CallOutcome) returns (posted: Option<RequestData>, res: AuthResult)
      modifies this
      ensures loading == old(loading)
      ensures var request := BuildRequest(data, PreparePhone(data, true));
        && (request.Err? ==>
              posted == None && res == Failure(request.error)
              && user == old(user) && storedToken == old(storedToken) && storedUser == old(storedUser))
        && (request.Ok? ==> posted == Some(request.value))
      ensures posted.Some? && AcceptedSession(outcome).Some? ==>
        var (token, u) := AcceptedSession(outcome).value;
        res == Success && user == Some(u) && storedToken == Some(token) && storedUser == Some(UserJson(Some(u)))
      ensures posted.Some? && AcceptedSession(outcome).None? ==>
        res == Failure(RegisterErrorMessageIntended(CaughtError(outcome)))
        && user == old(user) && storedToken == old(storedToken) && storedUser == old(storedUser)
    {
      posted, res := Submit(BuildRequest(data, PreparePhone(data, true)), outcome, RegisterErrorMessageIntended);
    }

    /** `logout()`. */
    method Logout()
      modifies this
      ensures user == None && storedToken == None && storedUser == None && loading == old(loading)
    {
      storedToken := None;
      storedUser := None;
      user := None;
    }
  }

  /** An error thrown before the call (phone, company, CNPJ) reaches the user with
      its own text: the plain-error branch of the register mapping. */
  lemma PreCallErrorsShownVerbatim(m: string)
    requires m != ""
    ensures RegisterErrorMessageIntended(PlainError(Some(m))) == m
    ensures LoginErrorMessage(PlainError(Some(m))) == "Erro ao fazer login"
  {
  }
}
