/** The registration page: the CNPJ check-digit validation, the CNPJ and phone
    input masks, the ordered form validation and the payload handed to `register`. */
module Register {
  import opened Wrappers
  import opened Text
  import Auth
  import Form

  /** An entry of the role list. */
  datatype RoleInfo = RoleInfo(value: string, roleLabel: string, requiresCompany: bool, requiresCnpj: bool)

  const Roles: seq<RoleInfo> := [
    RoleInfo("USER", "Usuário comum", false, false),
    RoleInfo("CUSTOMER", "Cliente", false, false),
    RoleInfo("ARCHITECT", "Arquiteto", true, false),
    RoleInfo("ENGINEER", "Engenheiro", false, false),
    RoleInfo("SERVICE_PROVIDER", "Prestador de serviços", false, false),
    RoleInfo("COMPANY", "Empresa", true, true)
  ]

  /** `roles.find(role => role.value === value)`. */
  function FindRole(roles: seq<RoleInfo>, value: string): (r: Option<RoleInfo>)
    ensures r.Some? ==> r.value in roles && r.value.value == value
    ensures r.None? ==> forall x :: x in roles ==> x.value != value
  {
    if roles == [] then None
    else if roles[0].value == value then Some(roles[0])
    else FindRole(roles[1..], value)
  }

  /** Only COMPANY needs a CNPJ; COMPANY and ARCHITECT need a company name. */
  lemma RoleRequirements(value: string)
    ensures var r := FindRole(Roles, value);
      && (r.Some? && r.value.requiresCnpj <==> value == "COMPANY")
      && (r.Some? && r.value.requiresCompany <==> value == "COMPANY" || value == "ARCHITECT")
  {
  }

  // ----- CNPJ -----

  /** The weight of the digit `k` places left of the last one: 2, 3, ..., 9, 2, 3, ... */
  function Weight(k: nat): int { 2 + k % 8 }

  /** The check-digit sum of a digit string, weights cycling from its right end. */
  function WeightedSum(d: string): (sum: nat)
    requires AllDigits(d)
  {
    if d == [] then 0 else DigitValue(d[0]) * Weight(|d| - 1) + WeightedSum(d[1..])
  }

  /** The check digit of `d`: 0 when the sum leaves remainder 0 or 1 modulo 11, else 11 minus the remainder. */
  function CheckDigit(d: string): (digit: nat)
    requires AllDigits(d)
    ensures digit <= 9
    ensures WeightedSum(d) % 11 >= 2 ==> (WeightedSum(d) + digit) % 11 == 0
    ensures WeightedSum(d) % 11 < 2 ==> digit == 0
  {
    var r := WeightedSum(d) % 11;
    if r < 2 then 0 else 11 - r
  }

  predicate AllSame(c: string) {
    forall i :: 0 <= i < |c| ==> c[i] == c[0]
  }

  /** What `validateCNPJ` accepts: 14 digits once the mask is stripped, not all
      equal, the 13th digit checking the first 12 and the 14th the first 13. */
  predicate IsValidCnpj(cnpj: string)
    ensures IsValidCnpj(cnpj) ==> var c := Digits(cnpj);
      && |c| == 14 && (exists i :: 0 <= i < 14 && c[i] != c[0])
      && (WeightedSum(c[..12]) % 11 >= 2 ==> (WeightedSum(c[..12]) + DigitValue(c[12])) % 11 == 0)
      && (WeightedSum(c[..13]) % 11 >= 2 ==> (WeightedSum(c[..13]) + DigitValue(c[13])) % 11 == 0)
  {
    var c := Digits(cnpj);
    && |c| == 14
    && !AllSame(c)
    && DigitValue(c[12]) == CheckDigit(c[..12])
    && DigitValue(c[13]) == CheckDigit(c[..13])
  }

  /** The weights cycle: after 9 comes 2 again. */
  lemma WeightNext(k: nat)
    ensures Weight(k + 1) == if Weight(k) == 9 then 2 else Weight(k) + 1
  {
    if k % 8 == 7 {
      assert (k + 1) % 8 == 0;
    } else {
      assert (k + 1) % 8 == k % 8 + 1;
    }
  }

  /** Peeling the leftmost digit off a slice of the sum. */
  lemma WeightedSumSlice(c: string, i: nat, last: nat)
    requires AllDigits(c) && i <= last < |c|
    ensures WeightedSum(c[i..last + 1]) == DigitValue(c[i]) * Weight(last - i) + WeightedSum(c[i + 1..last + 1])
  {
    assert c[i..last + 1][1..] == c[i + 1..last + 1];
  }

  /** One check-digit loop of `validateCNPJ`, over the digits `0..last` from right to left. */
  method CheckDigitOf(c: string, last: nat) returns (digit: nat)
    requires AllDigits(c) && last < |c|
    ensures digit == CheckDigit(c[..last + 1])
  {
    var sum := 0;
    var weight := 2;
    var i: int := last;
    while i >= 0
      invariant -1 <= i <= last
      invariant sum == WeightedSum(c[i + 1..last + 1])
      invariant weight == Weight(last - i)
    {
      WeightedSumSlice(c, i, last);
      WeightNext(last - i);
      sum := sum + DigitValue(c[i]) * weight;
      weight := if weight == 9 then 2 else weight + 1;
      i := i - 1;
    }
    assert c[0..last + 1] == c[..last + 1];
    digit := if sum % 11 < 2 then 0 else 11 - sum % 11;
  }

  /** `validateCNPJ(cnpj)`. */
  method ValidateCnpj(cnpj: string) returns (ok: bool)
    ensures ok == IsValidCnpj(cnpj)
  {
    var c := Digits(cnpj);
    if |c| != 14 {
      return false;
    }
    if AllSame(c) {
      return false;
    }
    var first := CheckDigitOf(c, 11);
    if DigitValue(c[12]) != first {
      return false;
    }
    var second := CheckDigitOf(c, 12);
    ok := DigitValue(c[13]) == second;
  }

  /** A 12-digit base followed by its two check digits. */
  function CompleteCnpj(base: string): (c: string)
    requires AllDigits(base) && |base| == 12
    ensures AllDigits(c) && |c| == 14 && c[..12] == base
  {
    var b13 := base + [DigitChar(CheckDigit(base))];
    b13 + [DigitChar(CheckDigit(b13))]
  }

  /** Completing a base with its check digits gives a valid CNPJ unless all 14 digits are equal. */
  lemma CompleteCnpjValid(base: string)
    requires AllDigits(base) && |base| == 12
    requires !AllSame(CompleteCnpj(base))
    ensures IsValidCnpj(CompleteCnpj(base))
  {
    var c := CompleteCnpj(base);
    DigitsOfDigits(c);
    assert c[..13] == base + [DigitChar(CheckDigit(base))];
  }

  /** The check digits are determined by the first twelve: two valid CNPJs that
      agree there agree everywhere. */
  lemma CheckDigitsDetermined(s: string, t: string)
    requires IsValidCnpj(s) && IsValidCnpj(t)
    requires Digits(s)[..12] == Digits(t)[..12]
    ensures Digits(s) == Digits(t)
  {
    var c, d := Digits(s), Digits(t);
    assert c[12] == d[12];
    assert c[..13] == c[..12] + [c[12]] && d[..13] == d[..12] + [d[12]];
    assert c[13] == d[13];
    assert c == c[..13] + [c[13]] && d == d[..13] + [d[13]];
  }

  /** A run of zeros sums to zero. */
  lemma {:induction false} ZerosSumToZero(d: string)
    requires forall i :: 0 <= i < |d| ==> d[i] == '0'
    ensures AllDigits(d) && WeightedSum(d) == 0
  {
    if d != [] {
      ZerosSumToZero(d[1..]);
    }
  }

  /** Fourteen zeros satisfy both check digits: only the repeated-digit rule turns them down. */
  lemma RepeatedZerosRejected(c: string)
    requires |c| == 14 && forall i :: 0 <= i < |c| ==> c[i] == '0'
    ensures AllDigits(c)
    ensures DigitValue(c[12]) == CheckDigit(c[..12]) && DigitValue(c[13]) == CheckDigit(c[..13])
    ensures !IsValidCnpj(c)
  {
    ZerosSumToZero(c[..12]);
    ZerosSumToZero(c[..13]);
    ZerosSumToZero(c);
    DigitsOfDigits(c);
    assert AllSame(c);
  }


  // ----- input masks -----

  /** A mask character contributes no digit. */
  lemma DigitsThenMark(a: string, m: char)
    requires !IsDigit(m)
    ensures Digits(a + [m]) == Digits(a)
  {
    DigitsAppend(a, [m]);
  }

  /** Appending a run of digits appends it to the digits. */
  lemma DigitsThenRun(a: string, run: string)
    requires AllDigits(run)
    ensures Digits(a + run) == Digits(a) + run
  {
    DigitsAppend(a, run);
    DigitsOfDigits(run);
  }

  /** `formatCNPJ(value)`: exactly 14 digits get the `XX.XXX.XXX/XXXX-XX` mask,
      fewer are returned bare, more leave the input as it is. */
  function FormatCnpj(value: string): (r: string)
    ensures |Digits(value)| == 14 ==> |r| == 18 && r[2] == '.' && r[6] == '.' && r[10] == '/' && r[15] == '-'
    ensures |Digits(value)| < 14 ==> r == Digits(value)
    ensures |Digits(value)| > 14 ==> r == value
  {
    var n := Digits(value);
    if |n| <= 14 then
      if |n| == 14 then n[..2] + "." + n[2..5] + "." + n[5..8] + "/" + n[8..12] + "-" + n[12..] else n
    else value
  }

  /** The mask never changes the digit sequence. */
  lemma FormatCnpjKeepsDigits(value: string)
    ensures Digits(FormatCnpj(value)) == Digits(value)
  {
    var n := Digits(value);
    if |n| == 14 {
      var s1 := n[..2] + ".";
      DigitsOfDigits(n[..2]);
      DigitsThenMark(n[..2], '.');
      var s2 := s1 + n[2..5];
      DigitsThenRun(s1, n[2..5]);
      var s3 := s2 + ".";
      DigitsThenMark(s2, '.');
      var s4 := s3 + n[5..8];
      DigitsThenRun(s3, n[5..8]);
      var s5 := s4 + "/";
      DigitsThenMark(s4, '/');
      var s6 := s5 + n[8..12];
      DigitsThenRun(s5, n[8..12]);
      var s7 := s6 + "-";
      DigitsThenMark(s6, '-');
      DigitsThenRun(s7, n[12..]);
      assert FormatCnpj(value) == s7 + n[12..];
      assert n[..2] + n[2..5] + n[5..8] + n[8..12] + n[12..] == n;
    } else if |n| < 14 {
      DigitsIdempotent(value);
    }
  }

  /** Masking a masked value changes nothing. */
  lemma FormatCnpjIdempotent(value: string)
    ensures FormatCnpj(FormatCnpj(value)) == FormatCnpj(value)
  {
    FormatCnpjKeepsDigits(value);
  }

  /** The CNPJ field stores the masked text; validation sees the same digits. */
  lemma FormatCnpjKeepsValidity(value: string)
    ensures IsValidCnpj(FormatCnpj(value)) == IsValidCnpj(value)
  {
    FormatCnpjKeepsDigits(value);
  }

  /** `formatPhoneNumber(value)`: exactly 11 digits get the `(XX) XXXXX-XXXX`
      mask, fewer are returned bare, more leave the input as it is. */
  function FormatPhoneNumber(value: string): (r: string)
    ensures |Digits(value)| == 11 ==> |r| == 15 && r[0] == '(' && r[3] == ')' && r[4] == ' ' && r[10] == '-'
    ensures |Digits(value)| < 11 ==> r == Digits(value)
    ensures |Digits(value)| > 11 ==> r == value
  {
    var n := Digits(value);
    if |n| <= 11 then
      if |n| == 11 then "(" + n[..2] + ") " + n[2..7] + "-" + n[7..] else n
    else value
  }

  lemma FormatPhoneNumberKeepsDigits(value: string)
    ensures Digits(FormatPhoneNumber(value)) == Digits(value)
  {
    var n := Digits(value);
    if |n| == 11 {
      var s1 := "(" + n[..2];
      DigitsThenRun("(", n[..2]);
      var s2 := s1 + ") ";
      DigitsThenMark(s1, ')');
      DigitsThenMark(s1 + ")", ' ');
      assert s1 + ")" + " " == s2;
      var s3 := s2 + n[2..7];
      DigitsThenRun(s2, n[2..7]);
      var s4 := s3 + "-";
      DigitsThenMark(s3, '-');
      DigitsThenRun(s4, n[7..]);
      assert FormatPhoneNumber(value) == s4 + n[7..];
      assert n[..2] + n[2..7] + n[7..] == n;
    } else if |n| < 11 {
      DigitsIdempotent(value);
    }
  }

  lemma FormatPhoneNumberIdempotent(value: string)
    ensures FormatPhoneNumber(FormatPhoneNumber(value)) == FormatPhoneNumber(value)
  {
    FormatPhoneNumberKeepsDigits(value);
  }

  // ----- form validation and submission -----

  datatype RegisterForm = RegisterForm(
    name: string, phoneNumber: string, email: string, password: string,
    passwordConfirmation: string, role: string, companyName: string, cnpj: string)

  const InitialRegisterForm := RegisterForm("", "", "", "", "", "USER", "", "")

  const NameMessage := "Nome é obrigatório e deve ter no máximo 50 caracteres"
  const PhoneMissingMessage := "Número de telefone é obrigatório"
  const PhoneLengthMessage := "Telefone deve ter 10 ou 11 dígitos"
  const EmailMessage := "Email é obrigatório e deve ter no máximo 254 caracteres"
  const PasswordMessage := "Senha é obrigatória"
  const MismatchMessage := "As senhas não coincidem"
  const CompanyMessage := "Nome da empresa é obrigatório para este tipo de usuário"
  const CnpjMissingMessage := "CNPJ é obrigatório para empresas"
  const CnpjInvalidMessage := "CNPJ inválido. Verifique os dígitos."

  /** `validateForm()`: the message of the first rule broken, `None` when all hold. */
  function ValidateForm(f: RegisterForm): (error: Option<string>)
    ensures error.Some? ==> error.value in {NameMessage, PhoneMissingMessage, PhoneLengthMessage, EmailMessage,
      PasswordMessage, MismatchMessage, CompanyMessage, CnpjMissingMessage, CnpjInvalidMessage}
  {
    var role := FindRole(Roles, f.role);
    if f.name == "" || Utf16Length(f.name) > 50 then Some(NameMessage)
    else if f.phoneNumber == "" then Some(PhoneMissingMessage)
    else if |Digits(f.phoneNumber)| < 10 || |Digits(f.phoneNumber)| > 11 then Some(PhoneLengthMessage)
    else if f.email == "" || Utf16Length(f.email) > 254 then Some(EmailMessage)
    else if f.password == "" then Some(PasswordMessage)
    else if f.password != f.passwordConfirmation then Some(MismatchMessage)
    else if role.Some? && role.value.requiresCompany && f.companyName == "" then Some(CompanyMessage)
    else if role.Some? && role.value.requiresCnpj && f.cnpj == "" then Some(CnpjMissingMessage)
    else if role.Some? && role.value.requiresCnpj && !IsValidCnpj(f.cnpj) then Some(CnpjInvalidMessage)
    else None
  }

  /** A form passes exactly when every rule holds. */
  lemma ValidateFormAccepts(f: RegisterForm)
    ensures ValidateForm(f) == None <==>
      && f.name != "" && Utf16Length(f.name) <= 50
      && 10 <= |Digits(f.phoneNumber)| <= 11
      && f.email != "" && Utf16Length(f.email) <= 254
      && f.password != "" && f.password == f.passwordConfirmation
      && (f.role == "COMPANY" || f.role == "ARCHITECT" ==> f.companyName != "")
      && (f.role == "COMPANY" ==> IsValidCnpj(f.cnpj))
  {
    RoleRequirements(f.role);
  }

  /** Lengths are counted in UTF-16 code units, as `.length` does: a name of 26
      emoji is 26 characters but 52 code units, and is refused. */
  lemma EmojiNameTooLong(f: RegisterForm)
    requires f.name == seq(26, i => '\U{1F600}')
    ensures |f.name| == 26 && ValidateForm(f) == Some(NameMessage)
  {
    Utf16LengthAstral(f.name);
  }

  /** A broken earlier rule hides every later one: e.g. a password mismatch is
      reported only when name, phone, email and password are acceptable, and an
      invalid CNPJ is never reported for a role other than COMPANY. */
  lemma ValidateFormOrder(f: RegisterForm)
    ensures ValidateForm(f) == Some(MismatchMessage) ==>
      && f.name != "" && Utf16Length(f.name) <= 50 && 10 <= |Digits(f.phoneNumber)| <= 11
      && f.email != "" && Utf16Length(f.email) <= 254 && f.password != ""
    ensures ValidateForm(f) == Some(CnpjInvalidMessage) ==> f.role == "COMPANY" && f.cnpj != "" && f.companyName != ""
    ensures f.role != "COMPANY" ==> ValidateForm(f) != Some(CnpjInvalidMessage) && ValidateForm(f) != Some(CnpjMissingMessage)
  {
    RoleRequirements(f.role);
  }

  /** `handleSubmit`'s `userData`: the phone as the number its digits denote
      (`parseInt`, `NoPhone` standing for `NaN`), the company name only for roles
      that require it, the CNPJ only for COMPANY and without its mask. */
  function SubmitPayload(f: RegisterForm): (data: Auth.RegisterData)
    ensures data.name == f.name && data.email == f.email && data.role == f.role
    ensures data.password == f.password && data.passwordConfirmation == f.passwordConfirmation
  {
    var role := FindRole(Roles, f.role);
    var phone := match ParseInt(Digits(f.phoneNumber))
      case None => Auth.NoPhone
      case Some(n) => Auth.PhoneNumber(n);
    Auth.RegisterData(
      f.name, phone, Auth.NoPhone, f.email, f.password, f.passwordConfirmation, f.role,
      if role.Some? && role.value.requiresCompany then Some(f.companyName) else None,
      if role.Some? && role.value.requiresCnpj then Some(Digits(f.cnpj)) else None)
  }

  /** The phone text `register` receives from a validated form: its digits, when
      they have no leading zero. */
  lemma PayloadPhoneText(f: RegisterForm)
    requires ValidateForm(f) == None
    requires Digits(f.phoneNumber)[0] != '0'
    ensures var data := SubmitPayload(f);
      Auth.PhoneString(data.phoneNumber, data.phone) == Some(Digits(f.phoneNumber))
  {
    var d := Digits(f.phoneNumber);
    ParseIntOfDigits(d);
    DigitsValuePositive(d);
    NatToStringOfDigits(d);
  }

  /** A validated form with an 11-digit mobile number (no leading zero) gets `55`
      prefixed to the number by `register`. */
  lemma MobilePhonePrepared(f: RegisterForm)
    requires ValidateForm(f) == None
    requires |Digits(f.phoneNumber)| == 11 && Digits(f.phoneNumber)[0] != '0'
    ensures Auth.PreparePhone(SubmitPayload(f), false) == Ok("55" + Digits(f.phoneNumber))
    ensures Auth.PreparePhone(SubmitPayload(f), true) == Ok("55" + Digits(f.phoneNumber))
  {
    var d := Digits(f.phoneNumber);
    PayloadPhoneText(f);
    DigitsOfDigits(d);
    Auth.NormalizePhoneAsWritten(d);
    Auth.NormalizePhoneIntendedCases(d);
  }

  /** A validated form hands `register` a company name when its role needs one, and a
      company's bare 14-digit CNPJ. */
  lemma RolePayload(f: RegisterForm)
    requires ValidateForm(f) == None
    ensures var data := SubmitPayload(f);
      && (f.role == "COMPANY" || f.role == "ARCHITECT" ==> Form.Truthy(data.companyName))
      && (f.role == "COMPANY" ==> Form.Truthy(data.cnpj) && data.cnpj.value == Digits(f.cnpj) && |Digits(f.cnpj)| == 14)
  {
    ValidateFormAccepts(f);
    RoleRequirements(f.role);
  }

  /** `register` accepts every validated form with an 11-digit mobile number (no leading zero). */
  lemma ValidatedMobileRegistrationPosted(f: RegisterForm)
    requires ValidateForm(f) == None
    requires |Digits(f.phoneNumber)| == 11 && Digits(f.phoneNumber)[0] != '0'
    ensures Auth.BuildRequest(SubmitPayload(f), Auth.PreparePhone(SubmitPayload(f), false)).Ok?
  {
    MobilePhonePrepared(f);
    RolePayload(f);
  }

  /** The number `register` posts is the prepared phone text read as a number. */
  lemma PostedPhone(data: Auth.RegisterData, p: string)
    requires Auth.PreparePhone(data, false) == Ok(p) && AllDigits(p) && |p| >= 1
    ensures var r := Auth.BuildRequest(data, Auth.PreparePhone(data, false));
      r.Ok? ==> r.value.phoneNumber == DigitsValue(p)
  {
  }

  /** For an 11-digit mobile number that number is `55` followed by the digits typed. */
  lemma MobileNumberPosted(f: RegisterForm)
    requires ValidateForm(f) == None
    requires |Digits(f.phoneNumber)| == 11 && Digits(f.phoneNumber)[0] != '0'
    ensures var r := Auth.BuildRequest(SubmitPayload(f), Auth.PreparePhone(SubmitPayload(f), false));
      r.Ok? ==> r.value.phoneNumber == DigitsValue("55" + Digits(f.phoneNumber))
  {
    MobilePhonePrepared(f);
    var p := "55" + Digits(f.phoneNumber);
    assert AllDigits(p) by {
      forall i | 0 <= i < |p|
        ensures IsDigit(p[i])
      {
        if i >= 2 {
          assert p[i] == Digits(f.phoneNumber)[i - 2];
        }
      }
    }
    PostedPhone(SubmitPayload(f), p);
  }

  /** A company's request carries the bare CNPJ typed in the form. */
  lemma CompanyCnpjPosted(f: RegisterForm)
    requires ValidateForm(f) == None && f.role == "COMPANY"
    ensures var r := Auth.BuildRequest(SubmitPayload(f), Auth.PreparePhone(SubmitPayload(f), false));
      r.Ok? ==> r.value.cnpj == Some(Digits(f.cnpj))
  {
    RolePayload(f);
    DigitsIdempotent(f.cnpj);
  }

  /** As written, every validated form with a 10-digit landline number (no leading
      zero) is turned down by `register` with the phone-format error, although
      this page accepts it. */
  lemma ValidatedLandlineRejectedAsWritten(f: RegisterForm)
    requires ValidateForm(f) == None
    requires |Digits(f.phoneNumber)| == 10 && Digits(f.phoneNumber)[0] != '0'
    ensures Auth.PreparePhone(SubmitPayload(f), false) == Err(Auth.PhoneFormatMessage)
    ensures Auth.PreparePhone(SubmitPayload(f), true) == Ok("55" + Digits(f.phoneNumber))
  {
    var d := Digits(f.phoneNumber);
    PayloadPhoneText(f);
    DigitsOfDigits(d);
    Auth.NormalizePhoneAsWritten(d);
    Auth.NormalizePhoneIntendedCases(d);
  }
}
