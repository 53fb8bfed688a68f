# DataPay and Orçamentaria front-end logic, in Dafny

This project models the deterministic logic of two React front-ends that share one repository.

**DataPay** is a five-step questionnaire that puts a price on a person's data. The model covers:

- the valuation engine (`calculations.js`): five category scorers, the weighted total and the insights;
- the wizard's form state (`useFormData.js`) and its step components (StepTwo, StepThree, StepFour, ProgressBar);
- the calculation session kept against the backend (`useFormDataWithAPI.js`).

**Orçamentaria** is a social and marketplace app. The model covers:

- registration: the CNPJ (Brazilian company number) check digits, the formatters, the ordered form validator and the submit payload;
- the authentication context: phone normalisation, role checks, error messages, login, register, logout and start-up restore;
- the optimistic list and counter updates of the pages: Notifications, MeusPontos (points), Home, Profile, Messages and MyProducts;
- the product filters of Marketplace and MyProducts;
- the status badges and supplier menu of MinhaLoja;
- the supplier guard and the route table with its two authentication guards.

Modelling choices:

- Every source file of the core has its own module.
- Pure code is written as functions and lemmas.
- React state that the handlers update is a `class` with one field per piece of state. Each handler is a `method` whose `ensures` gives the whole new state.
- Loops over mutable variables, such as the CNPJ weighted sum, are methods with loop invariants. They are proved equal to a specification function.
- Backend answers, clocks (`Date.now()` ids), `window.confirm` and `localStorage` reads become parameters of the methods or fields of the classes.
- Scoring tables and weights are not defined in the repository's `types/index.js`. They are a parameter (`Calculations.Tables`, `Calculations.Weights`).
- A missing item value counts as 0. A missing or zero multiplier counts as 1.0, as `x || 1.0` does.
- `Math.round` is `floor(x + 1/2)` over `real`.
- An array that may be `undefined` is an `Option<seq<…>>`. Reading `.length` or `.includes` of an absent array is a thrown error, modelled as `None`.

Shared modules:

- `Wrappers`: Option and Result.
- `Text`: digits, `parseInt`, decimal rendering, lower case, substring search, and a string's length in UTF-16 code units (JavaScript's `length`).
- `Lists`: filter, count, subsequence.
- `Form`: the five profile sections, the shallow-merge patch and the list toggle.
- `Posts`: the post record shared by Home and Profile.
- `TimeAgo`: the minute buckets that several pages format dates with.

## Model

| member | source | states |
|---|---|---|
| Calculations.Round | src/utils/calculations.js:40 | `Math.round`: the result is the integer nearest to x, with halves rounded up |
| Calculations.Multiplier | src/utils/calculations.js:25 | `table[key] \|\| 1.0`: a missing key gives 1.0, and the result is never 0 (a zero entry also falls back to 1.0) |
| Calculations.AgeRange | src/utils/calculations.js:9-16 | the bucket is always one of the five labels |
| Calculations.AgeRangeOfNumber | src/utils/calculations.js:9-16 | 18–24, 25–34, 35–44 and 45–54 map to their labels; any other number (under 18 included) and unparsable text map to '55+' |
| Calculations.CalculateDemographicsValue | src/utils/calculations.js:19-41 | without age and location the section is worth 0, whatever the gender |
| Calculations.CalculateDigitalHabitsValue | src/utils/calculations.js:44-62 | no network and no truthy frequency scores 0 |
| Calculations.CalculateConsumptionValue | src/utils/calculations.js:65-85 | no channel and no category scores 0 |
| Calculations.CalculateHealthValue | src/utils/calculations.js:88-100 | no health interest scores 0 |
| Calculations.CalculateAdvancedValue | src/utils/calculations.js:103-119 | with neither income range nor profession the section keeps its base of 30 |
| Calculations.DemographicsShape | src/utils/calculations.js:19-41 | with an age the value is round(40 × age multiplier × gender multiplier (1 without a gender) + location base (0 without a location)); gender alone is worth 0; location adds the base; an empty section scores 0 |
| Calculations.DigitalHabitsShape | src/utils/calculations.js:44-62 | the score does not depend on the order of the selected networks; without a truthy frequency it is the rounded sum of the network values |
| Calculations.ConsumptionAndHealthShape | src/utils/calculations.js:65-100 | consumption and health are independent of selection order, and absent lists score 0 |
| Calculations.AdvancedShape | src/utils/calculations.js:103-119 | an empty section scores 30; income alone scales 30 by the income multiplier, profession alone by the profession multiplier; values missing from the tables leave 30 |
| Calculations.SumValuesAppend | src/utils/calculations.js:48-53 | the forEach sum over a concatenation is the sum of the two parts |
| Calculations.SumValuesPermutation | src/utils/calculations.js:48-53 | the forEach sum depends only on the multiset of selected ids |
| Calculations.SumValuesUnknown | src/utils/calculations.js:50 | an id missing from the table adds 0 |
| Calculations.SumValuesNonNegative | src/utils/calculations.js:48-53 | with non-negative table entries the sum is non-negative |
| Calculations.ScorersNonNegative | src/utils/calculations.js:19-119 | with non-negative tables and a non-negative frequency, all five scores are non-negative |
| Calculations.Weigh | src/utils/calculations.js:122-157 | rawValues are the values weighed; the rounded total is within 2 of the sum of the rounded breakdown |
| Calculations.CalculateTotalValue | src/utils/calculations.js:122-157 | the total is within 2 of the breakdown's sum; an empty form has raw values 0, 0, 0, 0 and 30 |
| Calculations.WeighShape | src/utils/calculations.js:122-157 | rawValues are the scores; each breakdown entry is round(raw × weight); the total rounds the sum of the unrounded weighted values, so it is within 2 of the breakdown's sum |
| Calculations.TotalDiffersFromBreakdownSum | src/utils/calculations.js:138-148 | a concrete profile whose total (2) differs from the sum of its breakdown (3) |
| Calculations.GenerateInsights | src/utils/calculations.js:160-184 | as written: a result exactly when both arrays are present (otherwise the property access throws); at most four insights |
| Calculations.PremiumInsightAsWritten | src/utils/calculations.js:174-176 | as written, the premium insight appears exactly when incomeRange is absent, and never for 'acima_8000' |
| Calculations.InsightsMeaningAsWritten | src/utils/calculations.js:160-184 | as written: the network, electronics and technology insights appear exactly when their conditions hold, the premium insight exactly when incomeRange is absent; none appears twice |
| Calculations.InsightsAsWrittenAgainstIntended | src/utils/calculations.js:174-176 | the code and the corrected version differ only in the premium insight, and agree whenever an income range other than 'acima_8000' is given |
| Calculations.GenerateInsightsIntended | src/utils/calculations.js:160-184 | the corrected insights: a result exactly when both arrays are present |
| Calculations.InsightsMeaning | src/utils/calculations.js:160-184 | each insight appears exactly when its condition holds (more than 3 networks, 'eletronicos', 'acima_8000', 'tecnologia'), and none appears twice |
| Form.Pick | src/hooks/useFormData.js:13-16 | the spread of `data` over `prev`: a key present in data wins, an absent key keeps the old value |
| Form.UpdateOnlyTouchesSection | src/hooks/useFormData.js:10-18 | updateFormData changes only the named section |
| Form.UpdateNeutralAndIdempotent | src/hooks/useFormData.js:10-18 | an empty patch changes nothing; applying the same patch twice equals applying it once |
| Form.UpdateSequence | src/hooks/useFormData.js:10-18 | two updates of one section equal one update with the combined patch (the later key wins) |
| Form.Combine | src/hooks/useFormData.js:13-16 | the combined patch addresses the same section |
| Form.Remove | src/components/StepTwo.jsx:16 | `filter(id !== …)`: exactly the other elements remain |
| Form.RemoveAppend | src/components/StepTwo.jsx:16 | removal distributes over concatenation, so the order of the other elements is kept |
| Form.RemoveAbsent | src/components/StepTwo.jsx:16 | removing an absent id leaves the list unchanged |
| Form.Toggle | src/components/StepTwo.jsx:10-22 | after the toggle the id is present iff it was absent; every other id keeps its membership; an absent list counts as empty |
| Form.ToggleTwiceAbsent | src/components/StepFour.jsx:19-25 | toggling an absent id twice restores the list |
| Form.ToggleTwicePresent | src/components/StepTwo.jsx:10-22 | toggling a present id twice moves it to the end |
| Wizard.IsStepValid | src/hooks/useFormData.js:52-71 | the test throws exactly when step 2 reads a missing network list, or step 3 a missing channel list or (channels empty) a missing category list; step 4 is always valid; steps outside 1..5 never are |
| Wizard.StepValidity | src/hooks/useFormData.js:52-71 | step 1 needs age, gender and location; step 2 a non-empty network list; step 3 channels or categories; step 4 always; step 5 income and profession; other steps are invalid |
| Wizard.MissingListsThrow | src/hooks/useFormData.js:58-61 | checking step 2 or 3 with the list absent throws (no verdict) |
| Wizard.Progress | src/hooks/useFormData.js:79-82 | 100 when complete, otherwise round(step/5 × 100) = 20 × step, always within 20..100 |
| Wizard.FormState.constructor | src/hooks/useFormData.js:5-7 | step 1, not complete, the initial form |
| Wizard.FormState.UpdateFormData | src/hooks/useFormData.js:10-18 | the form becomes the shallow merge into one section; the step and completion are kept |
| Wizard.FormState.NextStep | src/hooks/useFormData.js:21-27 | below 5 the step goes up by one; at 5 the form becomes complete and the step stays 5; validity is not consulted |
| Wizard.FormState.PrevStep | src/hooks/useFormData.js:30-34 | the step goes down by one, or stays at 1 |
| Wizard.FormState.GoToStep | src/hooks/useFormData.js:37-42 | a step in 1..5 is taken and completion cleared; any other value changes nothing |
| Wizard.FormState.ResetForm | src/hooks/useFormData.js:45-49 | the initial form, step 1, not complete |
| Wizard.FormState.CanProceed | src/hooks/useFormData.js:74-76 | the current step's validity: defined when the lists are present, always true on step 4 |
| Wizard.FormState.GetProgress | src/hooks/useFormData.js:79-82 | 100 when complete, otherwise 20 × the current step |
| StepTwo.HandleSocialNetworkToggle | src/components/StepTwo.jsx:10-22 | the update carries the network list only, holding the network exactly when it was not selected |
| StepTwo.HandleFrequencyChange | src/components/StepTwo.jsx:24-26 | the update carries the frequency only, the slider's first value |
| StepTwo.SocialNetworkToggleEffect | src/components/StepTwo.jsx:10-22 | the toggle changes only socialNetworks, with toggle semantics, and an absent list counts as empty |
| StepTwo.FrequencyChangeEffect | src/components/StepTwo.jsx:24-26 | the slider's first value becomes usageFrequency and nothing else changes |
| StepTwo.DisplayedFrequency | src/components/StepTwo.jsx:97 | the slider shows the frequency when it is truthy, otherwise 5 |
| StepTwo.GetFrequencyLabel | src/components/StepTwo.jsx:37-41 | 'Pouco' iff ≤ 3, 'Médio' iff 4–7, 'Muito' iff > 7 |
| StepTwo.FrequencyLabelMonotone | src/components/StepTwo.jsx:37-41 | within 1..10 the label never goes down as the value goes up |
| StepThree.HandleChannelToggle | src/components/StepThree.jsx:23-35 | the update carries the channel list only, holding the channel exactly when it was not selected |
| StepThree.HandleCategoryToggle | src/components/StepThree.jsx:37-49 | the update carries the category list only, holding the category exactly when it was not selected |
| StepThree.TogglesEffect | src/components/StepThree.jsx:23-49 | the channel and category toggles change only their own list, with toggle semantics |
| StepThree.NextEnabledOnStepThree | src/components/StepThree.jsx:200-203 | Next is enabled exactly when the step is valid: a channel or a category is selected |
| StepFour.HandleHealthInterestToggle | src/components/StepFour.jsx:16-28 | the update carries the interest list, holding the interest exactly when it was not selected |
| StepFour.HealthToggleEffect | src/components/StepFour.jsx:16-28 | the toggle changes only healthInterests; an absent interest is appended |
| StepFour.HealthStepAlwaysPassable | src/components/StepFour.jsx:124-129 | after any toggle the health step is valid |
| ProgressBar.Classification | src/components/ProgressBar.jsx:41-43 | accessible iff active or completed, never both |
| ProgressBar.Counts | src/components/ProgressBar.jsx:6-12 | over n steps, one is active when the current step is in range, and the completed count is the number of earlier steps |
| ProgressBar.FiveSteps | src/components/ProgressBar.jsx:6-12 | for steps 1..5: exactly one active and step − 1 completed |
| Session.OrDefault | src/hooks/useFormDataWithAPI.js:54 | `message \|\| fallback`: the message when truthy, otherwise the fallback |
| Session.IsFormComplete | src/hooks/useFormDataWithAPI.js:168-178 | a complete form has all three selection lists present (`?.length > 0` fails on a missing one) and passes the wizard's step 5 |
| Session.CompleteFormPassesLaterSteps | src/hooks/useFormDataWithAPI.js:168-178 | a complete form passes steps 2–5 of the wizard |
| Session.StartingFormsIncomplete | src/hooks/useFormDataWithAPI.js:5-13 | neither the initial form nor the cleared form is complete |
| Session.CalculationSession.constructor | src/hooks/useFormDataWithAPI.js:5-22 | initial form, null ids, not loading, no error, no result |
| Session.CalculationSession.StartInitialize | src/hooks/useFormDataWithAPI.js:29-30 | loading starts and the error is cleared |
| Session.CalculationSession.FinishInitialize | src/hooks/useFormDataWithAPI.js:35-63 | success stores both ids and persists them; a rejection or an exception stops loading, records the message and rethrows it |
| Session.CalculationSession.RestoreSession | src/hooks/useFormDataWithAPI.js:68-84 | with a saved entry only the two ids are copied (loading and error untouched); otherwise nothing changes |
| Session.CalculationSession.UpdateFormData | src/hooks/useFormDataWithAPI.js:87-115 | the form is merged; it is pushed iff there is a calculation id; a failed push only sets the error and never rolls the form back |
| Session.CalculationSession.StartCalculation | src/hooks/useFormDataWithAPI.js:118-127 | without a calculation id it throws "Nenhuma sessão ativa" before any change; otherwise loading starts |
| Session.CalculationSession.FinishCalculation | src/hooks/useFormDataWithAPI.js:129-146 | success stores the result and moves to step 6; success:false sets the error and keeps the result; an exception sets the error and rethrows |
| Session.CalculationSession.ClearSession | src/hooks/useFormDataWithAPI.js:149-165 | all sections become empty (the frequency default is not restored); ids, result and the stored entry are cleared |
| Session.CalculationSession.FormComplete | src/hooks/useFormDataWithAPI.js:168-178 | completeness implies a health interest and an income range |
| Session.ClearedSessionCannotCalculate | src/hooks/useFormDataWithAPI.js:118-124 | after clearSession the calculation is refused with "Nenhuma sessão ativa" |
| Register.FindRole | src/pages/Register.jsx:34 | `roles.find`: a found role has that value; none found means no role has it |
| Register.RoleRequirements | src/pages/Register.jsx:25-32 | the CNPJ is required only for COMPANY; the company name only for COMPANY and ARCHITECT |
| Register.CheckDigit | src/pages/Register.jsx:48-69 | the check digit is 0 when the weighted sum mod 11 < 2; otherwise it completes the sum to a multiple of 11 |
| Register.CheckDigitOf | src/pages/Register.jsx:48-57 | the loop with mutable sum and weight computes the check digit of the prefix |
| Register.IsValidCnpj | src/pages/Register.jsx:37-70 | a valid CNPJ has 14 digits, not all equal, and each check digit completes its weighted sum to a multiple of 11 when the remainder is at least 2 |
| Register.ValidateCnpj | src/pages/Register.jsx:37-70 | the result is exactly the validity predicate: 14 digits after stripping, not all equal, both check digits right |
| Register.CompleteCnpj | src/pages/Register.jsx:48-69 | appending the two computed check digits to 12 base digits gives 14 digits with that base |
| Register.CompleteCnpjValid | src/pages/Register.jsx:37-70 | a base completed with its check digits is a valid CNPJ (unless all digits are equal) |
| Register.CheckDigitsDetermined | src/pages/Register.jsx:48-69 | two valid CNPJs with the same 12 base digits are equal |
| Register.RepeatedZerosRejected | src/pages/Register.jsx:43-45 | fourteen zeros pass both check-digit tests, yet are rejected by the equal-digits rule |
| Register.FormatCnpj | src/pages/Register.jsx:73-79 | with 14 digits the result has the shape XX.XXX.XXX/XXXX-XX; with fewer it is the bare digits; with more it is the input unchanged |
| Register.FormatCnpjKeepsDigits | src/pages/Register.jsx:73-79 | formatting never changes the digit sequence |
| Register.FormatCnpjIdempotent | src/pages/Register.jsx:73-79 | formatting twice equals formatting once |
| Register.FormatCnpjKeepsValidity | src/pages/Register.jsx:73-79 | a formatted CNPJ is valid iff the input was |
| Register.FormatPhoneNumber | src/pages/Register.jsx:188-197 | with 11 digits the result has the shape (XX) XXXXX-XXXX; with fewer it is the bare digits; with more it is the input unchanged |
| Register.FormatPhoneNumberKeepsDigits | src/pages/Register.jsx:188-197 | formatting never changes the digit sequence |
| Register.FormatPhoneNumberIdempotent | src/pages/Register.jsx:188-197 | formatting twice equals formatting once |
| Register.ValidateForm | src/pages/Register.jsx:100-151 | any error is one of the validator's messages; name and e-mail lengths are counted in UTF-16 code units, as JavaScript's `length` does |
| Register.ValidateFormAccepts | src/pages/Register.jsx:100-151 | no error iff every field rule holds (name at most 50 and e-mail at most 254 UTF-16 code units), including the company name and CNPJ rules for the roles that need them |
| Text.Utf16Length | src/pages/Register.jsx:101 | JavaScript's `length` of a string lies between its number of characters and twice that |
| Text.Utf16LengthBmp | src/pages/Register.jsx:118 | a string of Basic Multilingual Plane characters has `length` equal to its number of characters |
| Text.Utf16LengthAstral | src/pages/Register.jsx:101 | a string of characters beyond U+FFFF has `length` twice its number of characters |
| Register.EmojiNameTooLong | src/pages/Register.jsx:101-103 | a name of 26 emoji, 26 characters but 52 UTF-16 code units, is refused with the name message |
| Register.ValidateFormOrder | src/pages/Register.jsx:100-151 | only the first failing check is reported; CNPJ errors only arise for COMPANY |
| Register.SubmitPayload | src/pages/Register.jsx:161-177 | name, email, role and passwords are copied unchanged |
| Register.PayloadPhoneText | src/pages/Register.jsx:163 | the payload's phone is the integer of the digits, and it prints back as those digits |
| Register.MobilePhonePrepared | src/contexts/AuthContext.jsx:100-145 | a validated 11-digit phone reaches the backend as "55" followed by its digits, as written and corrected alike |
| Register.RolePayload | src/pages/Register.jsx:171-177 | company_name is sent exactly when the role requires it; the cnpj is sent as its 14 digits only for COMPANY |
| Register.ValidatedMobileRegistrationPosted | src/contexts/AuthContext.jsx:100-175 | as written, a form that passes validation with an 11-digit phone is posted |
| Register.PostedPhone | src/contexts/AuthContext.jsx:151-158 | as written, the posted phone_number is the integer value of the normalised digits |
| Register.MobileNumberPosted | src/contexts/AuthContext.jsx:151-158 | as written, a validated 11-digit phone is posted as the integer of "55" + its digits |
| Register.CompanyCnpjPosted | src/contexts/AuthContext.jsx:161-167 | as written, a validated COMPANY form that is posted carries the bare cnpj digits |
| Register.ValidatedLandlineRejectedAsWritten | src/contexts/AuthContext.jsx:126-145 | as written, a 10-digit phone that passes the form is refused with 'Erro na formatação do telefone'; the corrected rule accepts it |
| Auth.AcceptedSession | src/contexts/AuthContext.jsx:48-49 | an answer is accepted iff it carries a truthy token and a user, and the session is those two |
| Auth.NormalizePhone | src/contexts/AuthContext.jsx:113-145 | as written: an accepted phone has 13 digits and is the input or "55" followed by it; a refusal carries the length or the formatting message |
| Auth.NormalizePhoneAsWritten | src/contexts/AuthContext.jsx:113-145 | as written, only 11- and 13-digit inputs succeed; 10 and 12 digits always end in the formatting error |
| Auth.NormalizePhoneIntended | src/contexts/AuthContext.jsx:113-145 | the corrected normaliser yields 12 or 13 digits, beginning with "55" unless the input already had 13 |
| Auth.NormalizePhoneIntendedCases | src/contexts/AuthContext.jsx:118-139 | 10 or 11 digits get "55"; 13 are kept; 12 are accepted iff they begin with "55"; other lengths fail with the length message |
| Auth.BuildRequest | src/contexts/AuthContext.jsx:151-173 | the request is built iff the phone was normalised and the role's company fields are truthy; it copies name, email and role; COMPANY sends the given company name and the CNPJ digits, ARCHITECT only the given company name, other roles neither; the phone is the integer of its digits |
| Auth.LoginErrorMessage | src/contexts/AuthContext.jsx:62-91 | a 401 always gives 'Credenciais incorretas'; the message is empty only for a 422 without message whose field errors join to nothing |
| Auth.RegisterErrorMessage | src/contexts/AuthContext.jsx:195-221 | as written: the message is never empty, and a 422 with field errors but no message gives 'Erro ao criar conta' |
| Auth.RegisterErrorMessageIntended | src/contexts/AuthContext.jsx:195-221 | the corrected register mapping joins a 422's field errors and otherwise agrees with the code |
| Auth.FieldErrorsDroppedByRegister | src/contexts/AuthContext.jsx:204-211 | as written, a 422 with only field errors shows 'Erro ao criar conta' and loses the field messages |
| Auth.ErrorMessagesAgree | src/contexts/AuthContext.jsx:62-91 | login: 401 → 'Credenciais incorretas'; a server message wins; no response → the connection message; statuses other than 401 and 422 map as in register |
| Auth.PreCallErrorsShownVerbatim | src/contexts/AuthContext.jsx:219-220 | an error thrown before the call is shown with its own message by register, but login shows its default |
| Auth.AuthState.constructor | src/contexts/AuthContext.jsx:15-16 | no user and loading, over the stored token and user |
| Auth.AuthState.Startup | src/contexts/AuthContext.jsx:21-35 | with a token and a parsable user the user signs in; an unparsable user removes both keys; loading ends |
| Auth.AuthState.Adopt | src/contexts/AuthContext.jsx:49-53 | the token and user are stored and the user signs in |
| Auth.AuthState.Login | src/contexts/AuthContext.jsx:37-93 | an accepted answer signs in and persists; anything else fails with the login message and changes nothing |
| Auth.AuthState.Register | src/contexts/AuthContext.jsx:95-225 | as written: a request that cannot be built (every 10- and 12-digit phone among them) fails with its own message and posts nothing; otherwise it posts and handles the answer as login does, a 422 with field errors only showing 'Erro ao criar conta' |
| Auth.AuthState.RegisterIntended | src/contexts/AuthContext.jsx:95-225 | the same flow with the corrected phone normalisation and error mapping |
| Auth.AuthState.Logout | src/contexts/AuthContext.jsx:227-231 | the user and both stored keys are cleared |
| TimeAgo.DiffInMinutes | src/pages/Home.jsx:316 | `Math.floor(ms / 60000)` |
| TimeAgo.Classify | src/pages/Home.jsx:318-321 | under 1 → now; under 60 → minutes; under 1440 → whole hours (1–23); otherwise whole days |
| TimeAgo.ClassifyMonotone | src/pages/Home.jsx:313-322 | a later moment never gets a smaller unit or count |
| TimeAgo.FormatAgo | src/pages/Home.jsx:313-322 | the text is 'agora' exactly under one minute; hours end in 'h' and days in 'd' |
| TimeAgo.FormatAgoShowsCount | src/pages/Profile.jsx:417-430 | the text is 'agora', or begins with the number of minutes, hours or days (for the 'min' and 'm' suffixes alike) |
| Notifications.CountUnread | src/pages/Notifications.jsx:157-162 | the unread count never exceeds the list length |
| Notifications.MarkRead | src/pages/Notifications.jsx:177-181 | exactly the entries with the id become read; the rest are unchanged |
| Notifications.MarkAllRead | src/pages/Notifications.jsx:205-208 | every entry becomes read |
| Notifications.RemoveId | src/pages/Notifications.jsx:231 | exactly the entries with other ids remain |
| Notifications.FindId | src/pages/Notifications.jsx:234 | `find`: a found entry has the id; none found means no entry has it |
| Notifications.MarkReadCount | src/pages/Notifications.jsx:171-197 | with unique ids, marking an unread entry lowers the true unread count by one and any other call keeps it |
| Notifications.MarkReadAbsent | src/pages/Notifications.jsx:177-181 | an unknown id leaves the list unchanged |
| Notifications.RemoveIdCount | src/pages/Notifications.jsx:225-252 | with unique ids, deleting lowers the unread count by one exactly when the deleted entry was unread |
| Notifications.RemoveIdAbsent | src/pages/Notifications.jsx:231 | deleting an unknown id leaves the list unchanged |
| Notifications.MarkAllReadCount | src/pages/Notifications.jsx:199-223 | after marking all, nothing is unread |
| Notifications.Filtered | src/pages/Notifications.jsx:308-322 | entries without an id are dropped; 'all' keeps the rest, 'unread' the unread ones, any other filter that type |
| Notifications.CountMatching | src/pages/Notifications.jsx:338-347 | each count is at most the list length |
| Notifications.FilterCounts | src/pages/Notifications.jsx:325-347 | the 'all' counter is the list length and no other counter exceeds it |
| Notifications.CountAllMatches | src/pages/Notifications.jsx:341 | every item counts for the 'all' tab |
| Notifications.FilteredAgreesWithCount | src/pages/Notifications.jsx:308-347 | a filter shows at most its count, and exactly its count when every entry has an id; the 'unread' count is the unread count; 'all' counts every entry |
| Notifications.NotificationCenter.constructor | src/pages/Notifications.jsx:157-162 | the counter starts equal to the number of unread entries |
| Notifications.NotificationCenter.MarkAsRead | src/pages/Notifications.jsx:171-197 | the entries with the id become read; the counter drops by one, floored at 0, even if the entry was already read |
| Notifications.NotificationCenter.MarkReadCountOf | src/pages/Notifications.jsx:171-197 | the effect of marking on the true unread count, stated for this page's list |
| Notifications.NotificationCenter.MarkAllAsRead | src/pages/Notifications.jsx:199-223 | every entry is read and the counter is 0 |
| Notifications.NotificationCenter.DeleteNotification | src/pages/Notifications.jsx:225-252 | the entries with the id are removed; the counter drops (floored at 0) only when the found entry was unread |
| Notifications.NotificationCenter.HandleNotificationClick | src/pages/Notifications.jsx:254-264 | only an unread notification is marked; it navigates iff the action URL is non-empty |
| Notifications.UniqueFind | src/pages/Notifications.jsx:234 | with unique ids, find returns the entry with that id |
| Notifications.MarkingReadItemDrifts | src/pages/Notifications.jsx:185 | marking an already-read entry still lowers the counter, which then differs from the true unread count |
| MeusPontos.FindRecompensa | src/pages/MeusPontos.jsx:166 | `find`: a found reward has the id; none found means no reward has it |
| MeusPontos.SafeHistorico | src/pages/MeusPontos.jsx:248-253 | entries without an id are dropped |
| MeusPontos.SafeRecompensas | src/pages/MeusPontos.jsx:255-260 | rewards without an id are dropped |
| MeusPontos.Disponiveis | src/pages/MeusPontos.jsx:262 | available iff `disponivel` and the balance covers the cost |
| MeusPontos.AvailableIsRedeemable | src/pages/MeusPontos.jsx:262 | with unique ids, every listed available reward is found by its id and is affordable |
| MeusPontos.FoundByUniqueId | src/pages/MeusPontos.jsx:166 | with unique ids, find returns the reward with that id |
| MeusPontos.JsRemainder | src/pages/MeusPontos.jsx:263 | JavaScript `%`: the sign of the dividend, magnitude below the divisor |
| MeusPontos.ProgressoProximoNivel | src/pages/MeusPontos.jsx:263 | for a non-negative balance the progress is within [0, 100), and it is 0 at every multiple of 1000 |
| MeusPontos.ProgressoBounds | src/pages/MeusPontos.jsx:263 | for a non-negative balance the progress is (balance mod 1000)/10, within [0, 100); a negative balance off the thousands gives a negative progress |
| MeusPontos.PointsLedger.constructor | src/pages/MeusPontos.jsx:25-27 | the given balance, history and catalogue |
| MeusPontos.PointsLedger.ResgatarRecompensa | src/pages/MeusPontos.jsx:164-189 | an unknown or unaffordable reward changes nothing (`disponivel` is not checked); otherwise the cost is deducted and one entry is prepended; balance minus history sum is invariant; a non-negative balance stays non-negative |
| Posts.ToggleLikeOf | src/pages/Home.jsx:252-259 | is_liked flips and likes_count moves by one in the new direction; nothing else changes |
| Posts.ToggleLikeIn | src/pages/Home.jsx:251-261 | only posts with the id are toggled |
| Posts.ToggleLikeTwice | src/pages/Home.jsx:250-262 | two toggles restore the list |
| Posts.UpdatePost | src/pages/Profile.jsx:383-391 | only posts with the id are updated |
| Home.UnreadCount | src/pages/Home.jsx:326 | the badge never exceeds the list length |
| Home.UnreadCountMeaning | src/pages/Home.jsx:326 | the badge is the length of the list of unread notifications, and 0 when all are read |
| Home.NormalizePost | src/pages/Home.jsx:158-163 | comments default to [], reactions to all-zero, user_reaction to null; other fields are kept |
| Home.NormalizePostIdempotent | src/pages/Home.jsx:158-163 | normalising twice equals normalising once |
| Home.NormalizePosts | src/pages/Home.jsx:158 | one normalised post per loaded post |
| Home.AddFeedComment | src/pages/Home.jsx:290-299 | the comment is appended and comments_count becomes the old count (missing → 0) plus one |
| Home.CommentCountsStayConsistent | src/pages/Home.jsx:204-299 | a new post and each added comment keep the count equal to the number of comments |
| Home.Feed.constructor | src/pages/Home.jsx:27-36 | the given posts and notifications, empty drafts |
| Home.Feed.LoadPosts | src/pages/Home.jsx:154-169 | the feed becomes the normalised API posts |
| Home.Feed.CreatePost | src/pages/Home.jsx:197-248 | blank text without a file does nothing; otherwise one new post is prepended and text, location and file are cleared |
| Home.Feed.ToggleLike | src/pages/Home.jsx:250-274 | the feed becomes the toggled list; drafts are kept |
| Home.Feed.AddComment | src/pages/Home.jsx:276-311 | a blank draft does nothing; otherwise the comment is added to that post and its draft cleared |
| Home.LikeNewPost | src/pages/Home.jsx:204-262 | liking a freshly created post gives it one like and leaves the other posts alone |
| Profile.ApplyEdit | src/pages/Profile.jsx:186-203 | name, email and phone are overwritten; bio, location, website and store name are overwritten inside social_account, whose other fields are kept |
| Profile.ApplyEditIdempotent | src/pages/Profile.jsx:186-203 | saving the same edit twice equals saving it once |
| Profile.StepFollowers | src/pages/Profile.jsx:308-310 | `(parseInt(count) ± 1).toString()`: the new text parses to the old number plus the step; unparsable text becomes "NaN" |
| Profile.FollowTwiceRestores | src/pages/Profile.jsx:298-312 | following then unfollowing (or the reverse) restores the followers text |
| Profile.AddProfileComment | src/pages/Profile.jsx:383-391 | the comment is appended; an existing count goes up by one; a missing count gives NaN, which the model keeps as no count |
| Profile.SafePosts | src/pages/Profile.jsx:445-450 | posts without an id are dropped, in order |
| Profile.ProfilePage.constructor | src/pages/Profile.jsx:42-61 | the given user, follow state and posts; no drafts, nothing expanded, modal closed |
| Profile.ProfilePage.HandleEditProfile | src/pages/Profile.jsx:186-216 | the user becomes the edited user and the modal closes |
| Profile.ProfilePage.ToggleFollow | src/pages/Profile.jsx:298-328 | the follow flag flips and the followers text moves by one in the new direction |
| Profile.ProfilePage.ToggleLike | src/pages/Profile.jsx:330-361 | the posts become the toggled list |
| Profile.ProfilePage.AddComment | src/pages/Profile.jsx:363-408 | a missing or blank draft does nothing; otherwise the comment is added to that post and its draft cleared |
| Profile.ProfilePage.ToggleComments | src/pages/Profile.jsx:410-415 | only that post's comment flag flips |
| Messages.FindByParticipant | src/pages/Messages.jsx:136 | `find`: a found conversation is with that participant; none found means no conversation is |
| Messages.FilteredConversations | src/pages/Messages.jsx:306-308 | the conversations whose participant name contains the search, case-insensitively, in order |
| Messages.EmptySearchShowsAll | src/pages/Messages.jsx:306-308 | an empty search shows every conversation |
| Messages.FormatTime | src/pages/Messages.jsx:285-292 | under a day the text is the minute bucket with the 'm' suffix; from a day on the date branches apply |
| Messages.ConfirmAll | src/pages/Messages.jsx:246-256 | each message is confirmed independently |
| Messages.SetLastMessage | src/pages/Messages.jsx:259-270 | only the selected conversation gets the new last message |
| Messages.WithoutMessage | src/pages/Messages.jsx:275 | exactly the messages with other ids remain |
| Messages.MessagesAfterFailure | src/pages/Messages.jsx:272-276 | the corrected rollback drops the temporary message and exactly the messages sharing its id |
| Messages.ApplyRollback | src/pages/Messages.jsx:272-276 | the failure updater crashes the render iff the name `tempMessage` does not resolve and the list is non-empty (an empty list never calls the filter callback and stays empty); with the name in scope the list loses exactly the messages with the temporary id |
| Messages.FailedSendRollback | src/pages/Messages.jsx:231-275 | as written (`tempMessage` out of scope in the `catch` block) the rollback crashes the application; with the name in scope it restores the list as before the send |
| Messages.MessagesPage.constructor | src/pages/Messages.jsx:24-29 | the given conversations, nothing selected, no messages, not crashed |
| Messages.MessagesPage.StartConversationWithUser | src/pages/Messages.jsx:133-164 | on a mounted page, an existing conversation with the user is selected and the list kept; otherwise a new one is prepended and selected |
| Messages.MessagesPage.SendMessage | src/pages/Messages.jsx:219-279 | blank text or no selection does nothing; otherwise a temporary message is appended and the input cleared; success confirms it and sets the conversation's last message, dated by a second clock reading after the answer; as written, failure crashes the application, whose last rendered list still holds the temporary message |
| MyProducts.FilteredProducts | src/pages/MyProducts.jsx:100-105 | a product is shown iff its lower-cased name or category contains the search and the category filter is empty or equal; the result is a subsequence |
| MyProducts.EmptyFiltersShowAll | src/pages/MyProducts.jsx:100-105 | empty filters show every product |
| MyProducts.Distinct | src/pages/MyProducts.jsx:107 | `[...new Set(xs)]`: the same members without repeats |
| MyProducts.DistinctExtends | src/pages/MyProducts.jsx:107 | a later element never reorders the earlier distinct values (first-occurrence order) |
| MyProducts.Categories | src/pages/MyProducts.jsx:107 | a category is listed iff some product has it |
| MyProducts.NextStatus | src/pages/MyProducts.jsx:112 | the new status is 'ativo' or 'pausado' and always differs from the old one |
| MyProducts.NextStatusTwice | src/pages/MyProducts.jsx:112 | 'ativo' and 'pausado' alternate; any other status becomes 'ativo' and then 'pausado' |
| MyProducts.ToggleStatus | src/pages/MyProducts.jsx:109-115 | only the product with the id changes status |
| MyProducts.RemoveProduct | src/pages/MyProducts.jsx:117-121 | exactly the products with other ids remain, in order |
| MyProducts.ComputeStats | src/pages/MyProducts.jsx:328-363 | the total is the list length and the active count does not exceed it |
| MyProducts.ToggleKeepsTotals | src/pages/MyProducts.jsx:109-363 | a status toggle keeps the total, the sales and the views |
| MyProducts.ProductsPage.constructor | src/pages/MyProducts.jsx:39 | the given products |
| MyProducts.ProductsPage.ToggleProductStatus | src/pages/MyProducts.jsx:109-115 | the list becomes the toggled list; total, sales and views are kept |
| MyProducts.ProductsPage.DeleteProduct | src/pages/MyProducts.jsx:117-121 | a confirmed delete removes the product; otherwise nothing changes |
| Marketplace.FilteredProducts | src/pages/Marketplace.jsx:190-204 | a non-array list gives []; a product is kept iff it matches the search (name or description), the category ('all' or equal) and the inclusive bounds (empty means none); a NaN bound or min > max gives [] |
| Marketplace.DefaultFiltersShowAll | src/pages/Marketplace.jsx:196-200 | with no search, 'all' and no bounds every product is shown |
| MinhaLoja.StatusColor | src/pages/MinhaLoja.jsx:94-107 | gray exactly for the statuses outside the four known ones |
| MinhaLoja.StatusText | src/pages/MinhaLoja.jsx:109-122 | an unknown status is shown unchanged |
| MinhaLoja.BadgeMapsAgree | src/pages/MinhaLoja.jsx:94-122 | the color is gray iff the text is the raw status; the four known statuses get distinct colors |
| MinhaLoja.ShowsSupplierMenu | src/pages/MinhaLoja.jsx:259 | the supplier menu shows iff the user is COMPANY or SERVICE_PROVIDER |
| MinhaLoja.RecentOrders | src/pages/MinhaLoja.jsx:440 | `slice(0, 5)`: a prefix of at most five orders |
| SupplierRoute.Guard | src/components/SupplierRoute.jsx:9-52 | loading → spinner; no user → redirect to /login; COMPANY → the page; any other role → access denied |
| App.FindRoute | src/App.jsx:65-179 | a found route belongs to the table and matches the URL |
| App.ProtectedRoute | src/App.jsx:20-38 | not loading: the page iff signed in, otherwise redirect to /login |
| App.PublicRoute | src/App.jsx:41-59 | not loading: the page iff signed out, otherwise redirect to / |
| App.GuardsComplement | src/App.jsx:20-59 | when not loading exactly one of the two guards shows its page |
| App.Resolve | src/App.jsx:65-179 | an unmatched URL redirects to /; the spinner shows only while loading |
| App.Render | src/App.jsx:65-179 | the application's table shows only public pages to a visitor, never a public page to a signed-in user, and the store dashboard only to a COMPANY user |
| App.RoutesWellGuarded | src/App.jsx:65-176 | exactly the login and register pages are public, and the store dashboard is behind the supplier guard |
| App.VisitorSeesOnlyPublicPages | src/App.jsx:20-59 | without a user only public pages are shown |
| App.SignedInNeverSeesLogin | src/App.jsx:41-59 | a signed-in user is never shown a public page |
| App.StoreDashboardNeedsCompany | src/App.jsx:160-176 | the store dashboard is shown only to a COMPANY user |
| App.NoMatchFallsThrough | src/App.jsx:178 | when no route matches, the lookup finds nothing |
| App.UnknownUrlGoesHome | src/App.jsx:178 | an unmatched URL redirects to / |
| App.FindRouteAt | src/App.jsx:65-179 | the first matching route is the one found |
| App.ResolveAt | src/App.jsx:65-179 | a matched route shows its page through its own guard |
| App.ProfileRoute | src/App.jsx:135 | /profile/:userId reaches the protected profile page |
| App.MyProductsRoute | src/App.jsx:111 | /my-products is behind the authentication guard only |
| App.MeusProdutosRoute | src/App.jsx:161 | /meus-produtos is behind the supplier guard |
| App.MinhaLojaRoute | src/App.jsx:169 | /minha-loja is behind the supplier guard |
| App.ServiceProviderMenuDenied | src/App.jsx:159 | a SERVICE_PROVIDER sees the supplier menu but the supplier guard denies access |

## Left out

- Network calls, `localStorage`, timers and promises are outcome parameters and fields; the order in which concurrent async handlers interleave is not modelled.
- Floating-point arithmetic: scores, weights and prices are `real`, with `Math.round` as floor(x + 1/2).
- `Messages.MessagesPage`: the unmounted application is the `crashed` flag; the model does not follow what React shows after unmounting, and an unmounted page takes no further events (its methods require it mounted).
- `Text.ParseInt` reads an optional '+' or '-' sign and the leading digits after it; `parseInt`'s leading-whitespace skipping and hex prefixes are not modelled.
- `parseFloat` of the price bounds is a parameter (`Marketplace.Bound`: empty, a number, or NaN); prefix parsing of text such as "12abc" is not modelled.
- `toLowerCase` is ASCII-only and `trim` knows the common ASCII whitespace; Unicode case mapping and whitespace are not modelled.
- Loose `==` and JavaScript truthiness of non-string values: fields are typed, and truthiness is "present and non-empty" for strings and "present and non-zero" for numbers.
- A list that is present but not an array (the `Array.isArray` fallbacks to demo data) is not modelled; an absent list is `None`.
- Hard-coded demo datasets, the useFormDataWithAPI setup effect (src/hooks/useFormDataWithAPI.js:181-211), `api.js`, and the presentation-only components are not part of this model.
- `alert` and `window.confirm` texts: the confirmation is a `confirmed` parameter.
- Locale formatting (`toLocaleString`, `toLocaleDateString`) and the date branches of Messages `formatTime` for a day or more (`Messages.FormatTime` returns `None` there).
- Session.CalculationSession.FinishInitialize: src/hooks/useFormDataWithAPI.js:45 and :49 write the storage key as `\'datapay_session\'`, with backslash-escaped quotes outside any string literal, which does not parse as JavaScript; the model assumes the plain literal 'datapay_session' and does not model the module failing to load.
- The JSON parse of the stored user is an `Option` field of the stored value.
- StepTwo.HandleFrequencyChange: requires a non-empty slider array, which the slider always supplies.
- Calculations.GenerateInsights: the `calculationResult` argument is unused in the code and is dropped.
- Register: no concrete valid CNPJ literal is proved valid; validity of completed bases is proved generically (`Register.CompleteCnpjValid`).
- App.Matches: a URL matches a route only when it equals the path exactly, case included, and a parameter segment must not contain '/'; React Router v6 also matches case-insensitively ("/Login") and with a trailing slash ("/login/"), so `App.FindRoute`, `App.Resolve` and `App.Render` send such URLs to the catch-all instead.
- App: React Router's ranking is modelled as the first match in table order; the table's patterns do not overlap, so the two agree. Concrete views of the full table are stated through route lookups plus `App.ResolveAt`.
- MyProducts.ComputeStats: states the total and bounds the active count; the sales and views sums are related across operations by `MyProducts.ToggleKeepsTotals` rather than stated outright.
- Notifications API calls after the optimistic update, and the re-fetches in Messages and Home, are not modelled.

Behaviour the model documents but does not treat as a defect:

- The total is not the sum of the breakdown (`Calculations.TotalDiffersFromBreakdownSum`).
- SupplierRoute admits only COMPANY. The MinhaLoja menu and a comment in App.jsx include SERVICE_PROVIDER, but SupplierRoute's own comment says COMPANY (`App.ServiceProviderMenuDenied`).
- /my-products shows the product page to any signed-in user, while /meus-produtos requires COMPANY (`App.MyProductsRoute`, `App.MeusProdutosRoute`).
- clearSession does not restore the frequency default of 5 (`Session.CalculationSession.ClearSession`).
- An empty advanced section scores 30 (`Calculations.AdvancedShape`).
- Marking an already-read notification still lowers the counter (`Notifications.MarkingReadItemDrifts`).
- Nothing prevents a second calculation from starting while one is loading (`Session.CalculationSession.StartCalculation`).

## Findings

| source | as written | input that shows it | evidently intended | confidence | as-written member | corrected member |
|---|---|---|---|---|---|---|
| src/utils/calculations.js:174-176 | compares incomeRange with `INCOME_RANGES.ACIMA_8000`, which is `undefined` because `INCOME_RANGES` is an array | a profile without an income range gets the premium insight; one with 'acima_8000' does not | the insight for the 'acima_8000' bracket | high, not executed | Calculations.PremiumInsightAsWritten | Calculations.InsightsMeaning |
| src/pages/Messages.jsx:275 | the `setMessages` updater in the `catch` block reads `tempMessage`, declared with `const` inside the `try` block at line 231 | any failed send: React runs the updater while rendering, it throws a ReferenceError, and with no error boundary around `App` the whole application unmounts | remove the temporary message | high, not executed | Messages.FailedSendRollback | Messages.MessagesAfterFailure |
| src/contexts/AuthContext.jsx:126-145 | the 10- and 12-digit branches build 12- or 14-digit numbers, and then only 13 digits are accepted | the phone "1133334444" (10 digits), which Register.jsx accepts | normalise 10 and 12 digits to a number beginning with "55" | high, not executed | Register.ValidatedLandlineRejectedAsWritten | Auth.NormalizePhoneIntendedCases |
| src/contexts/AuthContext.jsx:207-211 | in register, the 422 field errors are flattened but never assigned to the message | a 422 answer with `errors` and no `message` shows 'Erro ao criar conta' | join the field errors, as login does | medium, not executed | Auth.FieldErrorsDroppedByRegister | Auth.RegisterErrorMessageIntended |
