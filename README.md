# Client records of the reports front end, in Dafny

This project models the record logic of the client pages of the reports
application, a React front end for a consultancy that keeps clients, their
partners and their dependents. It covers these parts:

- **The client-creation wizard.** It has four steps: basic data, optional address, partner, and dependents. The model covers its step counter, its draft, its dependents list (append, update by id, remove by id), `validateStep`, and the payload built on submit.
- **The add-dependent, edit-dependent and edit-client dialogs.**
  - how each loads its draft;
  - `handleInputChange`;
  - `validateForm`, which builds its error map one `if` at a time;
  - the payload each posts;
  - how the outcome of the save updates the dialog's state.
- **The client details panel.**
  - the Brazilian phone layout;
  - the age in completed years;
  - the displayed date of a stored birthdate.
- **The client search of both side panels**, with its count label and the selected card.
- **The dashboard's recent-activity card.** It shows the three clients with the highest id, and an empty state when there are none.

The two e-mail patterns the forms use are modelled as separate predicates, and the model proves how they relate:

- `\S+@\S+\.\S+`, unanchored;
- `^[^\s@]+@[^\s@]+\.[^\s@]+$`, anchored.

Every error map is a Dafny `map` over a datatype of keys. The `KeyName` lemmas show that distinct keys have distinct key strings. The string keys include the wizard's `dependent_<i>_<field>`.

Parts of each component that update state are modelled as classes, with their state fields, `modifies` frames and methods:

- the `step`, `formData`, `errors` and `isSubmitting` state;
- `validateForm` and `validateStep`. Each method is proved equal to a specification function, which the lemmas then characterise.

The rest is modelled as pure functions. React's `setState` is taken as a plain assignment.

Inputs from outside the components become parameters:

- the current date;
- generated ids;
- the outcome of calls to the data-access layer;
- JavaScript's date parser and `toISOString`.

The wizard's submit posts only the client record. The dependents drafted in step 4 are validated, but they are not sent: the `dependents` entry of the payload is commented out in `client/src/components/Clients/CreateClient.tsx:262-263`.

Files:

| file | module | models |
|---|---|---|
| text.dfy | Text | white space, `trim`, `replace(/\D/g, "")`, `toLowerCase`, `includes`, decimal numbers |
| seqs.dfy | Seqs | `filter` and order-preserving subsequences |
| email.dfy | EmailPatterns | the two e-mail regular expressions |
| options.dfy | Options | `undefined`/`null` fields, `x \|\| ""`, `x \|\| undefined` |
| dates.dfy | Dates | (year, month, day) dates and ISO date strings |
| form_errors.dfy | FormErrors | error maps shared by the dialogs |
| create_client.dfy | CreateClient | the wizard |
| dependent_form.dfy | DependentForms | the draft shared by the two dependent dialogs |
| add_dependent.dfy | AddDependent | the add-dependent dialog |
| edit_dependent.dfy | EditDependent | the edit-dependent dialog |
| edit_client.dfy | EditClient | the edit-client dialog |
| client_details.dfy | ClientDetails | the details panel's formatters |
| client_search.dfy | ClientSearch | the search and count shared by both side panels |
| clients_aside.dfy | ClientsAside | the side panel with a loading state |
| top_clients_aside.dfy | TopLevelClientsAside | the earlier side panel |
| main_body.dfy | MainBody | the recent-activity card |

## Model

| member | source | states |
|---|---|---|
| Text.Trim | client/src/components/Clients/CreateClient.tsx:150 | `trim` gives the empty string exactly for a string made only of white space; the result is no longer than the input and neither starts nor ends with white space |
| Text.TrimStripped | client/src/components/Clients/CreateClient.tsx:150 | the trimmed text is the input with only white space cut from its two ends; with Trim's own contract this fixes the value |
| Text.Digits | client/src/components/Clients/AddDependent.tsx:83 | stripping non-digits leaves only digits, is no longer than the input, and leaves a string of digits unchanged |
| Text.DigitsAppend | client/src/components/Clients/ClientDetails.tsx:115 | stripping non-digits distributes over concatenation |
| Text.NoDigits | client/src/components/Clients/AddDependent.tsx:83 | a string without digits strips to the empty string |
| Text.LowerChar | client/src/components/Clients/ClientsAside.tsx:33-34 | a lower-cased character is never a capital; a capital becomes the small letter whose capital it is; every other character, white space included, is kept |
| Text.ToLower | client/src/components/Clients/ClientsAside.tsx:33-34 | the lower-cased text has the same length, holds no capital, and differs from the input only where the input has a capital |
| Text.ToLowerIdempotent | client/src/components/Clients/ClientsAside.tsx:33-34 | lower-casing a lower-cased text changes nothing |
| Text.ToLowerAppend | client/src/components/Clients/ClientsAside.tsx:33-34 | lower-casing distributes over concatenation |
| Text.ContainsEmpty | client/src/components/Clients/ClientsAside.tsx:31-35 | every string includes the empty string |
| Text.ContainsPrefixOfNeedle | client/src/components/Clients/ClientsAside.tsx:31-35 | a string that includes `u + v` includes `u` |
| Text.NatToString | client/src/components/Clients/CreateClient.tsx:192-194 | the decimal text of a number is non-empty and all digits, and it has no leading zero: 0 is "0" and any other number starts with a non-zero digit |
| Text.NatToStringRoundTrip | client/src/components/Clients/CreateClient.tsx:192-194 | reading the decimal text back gives the number |
| Text.NatToStringInjective | client/src/components/Clients/CreateClient.tsx:192-194 | distinct numbers have distinct decimal texts |
| Text.DigitsValueAppend | client/src/components/Clients/ClientDetails.tsx:46 | `Number` of the digits `a + b` is `Number(a)` shifted by the length of `b`, plus `Number(b)` |
| Text.TwoDigits | client/src/components/Clients/ClientDetails.tsx:64-65 | the `2-digit` text of a number below 100 has two digits and reads back as the number |
| Text.FourDigits | client/src/components/Clients/EditClient.tsx:63 | the year of an ISO date text has four digits and reads back as the year |
| Text.TrimTrailingBlank | client/src/components/Clients/ClientDetails.tsx:46 | white space appended to a text that starts with something else is removed again by `trim` |
| Seqs.Filter | client/src/components/Clients/CreateClient.tsx:142 | `filter` keeps exactly the elements satisfying the test, in order, each as often as it occurs |
| Seqs.SubsequenceTrans | client/src/components/Clients/ClientsAside.tsx:31-35 | a subsequence of a subsequence is a subsequence |
| Seqs.FilterAll | client/src/components/Clients/CreateClient.tsx:142 | a test every element passes filters nothing away |
| Seqs.FilterMonotone | client/src/components/Clients/ClientsAside.tsx:31-35 | a stronger test keeps a subsequence of what a weaker test keeps |
| Seqs.FilterSame | client/src/components/Clients/ClientsAside.tsx:31-35 | tests that agree on every element filter alike |
| EmailPatterns.StrictImpliesLoose | client/src/components/Clients/EditClient.tsx:108 | every address the anchored pattern accepts, the unanchored pattern of CreateClient.tsx:152 accepts too |
| EmailPatterns.LooseDoesNotImplyStrict | client/src/components/Clients/EditDependent.tsx:84 | "ana@x.com " and "a@b@c.d" pass the unanchored pattern and fail the anchored one |
| EmailPatterns.EmailNeedsAt | client/src/components/Clients/AddDependent.tsx:77 | neither pattern accepts a string without `@` |
| Options.NonEmpty | client/src/components/Clients/EditDependent.tsx:112-115 | `s \|\| null` is absent exactly for the empty string and is `s` otherwise |
| Options.OrEmpty | client/src/components/Clients/EditDependent.tsx:49-54 | `x \|\| ""` is the value when present and "" when absent |
| Dates.BeforeT | client/src/components/Clients/EditClient.tsx:63 | `split("T")[0]` is the longest prefix without `T`: it is followed by `T` or the end |
| Dates.BeforeTUnique | client/src/components/Clients/EditClient.tsx:63 | those three facts determine `split("T")[0]` |
| Dates.BeforeDash | client/src/components/Clients/ClientDetails.tsx:46 | `split("-")[0]` is the longest prefix without `-`: it holds no `-` and is followed by `-` or the end |
| Dates.BeforeDashWhole | client/src/components/Clients/ClientDetails.tsx:46 | a text without `-` is its own `split("-")[0]` |
| Dates.DayField | client/src/components/Clients/ClientDetails.tsx:45-46 | the day field of an ISO string starts with the two digits of the date: its first two characters are characters 8 and 9 of the string |
| Dates.DayNumber | client/src/components/Clients/ClientDetails.tsx:46-47 | the day `new Date` takes from a field, `Math.trunc(Number(t))`: a field made only of digits reads as its decimal value |
| Dates.DayNumberTrailingBlank | client/src/components/Clients/ClientDetails.tsx:46 | white space after the day does not change the day `Number` reads |
| Dates.DayNumberFraction | client/src/components/Clients/ClientDetails.tsx:46-47 | `dd.fff` gives the day `dd`: `new Date` truncates the fraction |
| Dates.DayNumberExponent | client/src/components/Clients/ClientDetails.tsx:46 | `dde<k>` gives `dd` times 10 to the power `k` |
| Dates.DayNumberRejects | client/src/components/Clients/ClientDetails.tsx:46 | any other text after the day digits makes `Number` NaN, so the date is unreadable |
| Dates.DayNumberSpaceExample | client/src/components/Clients/ClientDetails.tsx:46 | the day field `"15 "` reads as 15 |
| Dates.DayNumberExponentExample | client/src/components/Clients/ClientDetails.tsx:46 | the day field `"01e1"` reads as 10 |
| Dates.DayNumberFractionExample | client/src/components/Clients/ClientDetails.tsx:46-47 | the day field `"15.5"` gives the day 15 |
| Dates.DayNumberRejectsExample | client/src/components/Clients/ClientDetails.tsx:46 | the day field `"15abc"` is NaN |
| Dates.ConstructorYear | client/src/components/Clients/ClientDetails.tsx:47 | `new Date(y, m, d)` reads the years 0 to 99 as 1900 to 1999 and keeps the others |
| Dates.IsoDate | client/src/components/Clients/ClientDetails.tsx:42-47 | the date read from a `YYYY-MM-DD…` string exists; its year is the constructor year of the first four digits, its month is the next two digits, and its day is what `Number` reads from the day field; there is no date exactly when that field is NaN or the triple does not exist |
| Dates.IsoDateOnlyDatePart | client/src/components/Clients/ClientDetails.tsx:45-46 | a string and its part before the first `T` give the same date |
| Dates.IsoDateIgnoresTime | client/src/components/Clients/ClientDetails.tsx:80-85 | `YYYY-MM-DD` and `YYYY-MM-DDT…` give the same date |
| Dates.ParseDateInput | client/src/components/Clients/AddDependent.tsx:89 | a 10-character ISO date gives the date of its three digit fields if that date exists, and nothing otherwise; any other text is left to the parser parameter |
| Dates.IsoText | client/src/components/Clients/EditClient.tsx:63 | the `YYYY-MM-DD` text of a date is 10 characters long, has the ISO form, and shows the year, month and day in its digit fields |
| Dates.IsoTextExample | client/src/components/Clients/EditClient.tsx:63 | 15 January 2024 is `2024-01-15` |
| Dates.InputTextRoundTrip | client/src/components/Clients/AddDependent.tsx:89 | the date input's text of an existing date between years 0 and 9999 reads back as that date |
| Dates.IsoTextRoundTrip | client/src/components/Clients/ClientDetails.tsx:42-47 | the ISO text of an existing date between years 100 and 9999 reads back as that date in the details panel |
| Dates.IsoDateDayText | client/src/components/Clients/ClientDetails.tsx:45-46 | text after the date that holds no `T` and no `-` ends up in the day field |
| Dates.IsoTextWithDayText | client/src/components/Clients/ClientDetails.tsx:42-47 | the ISO text of a date followed by more day text gives the year, the month and the day `Number` reads |
| Dates.IsoDateSpaceExample | client/src/components/Clients/ClientDetails.tsx:42-47 | `2024-01-15 ` is read as 15 January 2024 |
| Dates.IsoDateExponentExample | client/src/components/Clients/ClientDetails.tsx:42-47 | `2024-01-01e1` is read as 10 January 2024 |
| Dates.IsoDateFractionExample | client/src/components/Clients/ClientDetails.tsx:42-47 | `2024-01-15.5` is read as 15 January 2024 |
| FormErrors.ClearError | client/src/components/Clients/AddDependent.tsx:54-59 | clearing keeps the key set, blanks the key's message if present, and leaves every other message unchanged |
| CreateClient.FieldKeyInjective | client/src/components/Clients/CreateClient.tsx:106-107 | distinct fields have distinct property names |
| CreateClient.GetField | client/src/components/Clients/CreateClient.tsx:462 | only `hasPartner` holds a flag; every other field holds a text |
| CreateClient.WithField | client/src/components/Clients/CreateClient.tsx:107 | the field takes the value, and every other field and the dependents keep theirs |
| CreateClient.SetDependentField | client/src/components/Clients/CreateClient.tsx:134 | the dependent's field takes the value, and its id and other fields are kept |
| CreateClient.NewDependent | client/src/components/Clients/CreateClient.tsx:115-123 | a new dependent has the given id and every field empty |
| CreateClient.AddedDependent | client/src/components/Clients/CreateClient.tsx:124-127 | one blank dependent with the given id is appended, and the earlier ones are unchanged |
| CreateClient.UpdatedDependents | client/src/components/Clients/CreateClient.tsx:130-137 | length and order are kept; dependents with the id get the value in that field and keep the rest; all others are untouched |
| CreateClient.RemovedDependents | client/src/components/Clients/CreateClient.tsx:139-144 | exactly the dependents with the id are removed; the others keep their multiplicity and relative order |
| CreateClient.RemoveAbsentId | client/src/components/Clients/CreateClient.tsx:139-144 | removing an id no dependent has changes nothing |
| CreateClient.BlankEmailIsNotLoose | client/src/components/Clients/CreateClient.tsx:151-154 | a blank e-mail never passes the unanchored pattern |
| CreateClient.BasicInfoErrors | client/src/components/Clients/CreateClient.tsx:149-164 | step 1's map has a key for exactly the step-1 fields that fail, each with its message |
| CreateClient.BasicInfoTests | client/src/components/Clients/CreateClient.tsx:150-163 | step 1 flags name, phone and profession exactly when blank, and gender, birthdate and marital status exactly when empty |
| CreateClient.BasicEmailError | client/src/components/Clients/CreateClient.tsx:151-154 | the e-mail is flagged exactly when the pattern rejects it; any non-empty e-mail, one of white space only included, ends with "Email inválido" (the later test overwrites the "required" message), and only the empty e-mail keeps "Email é obrigatório" |
| CreateClient.BasicInfoPasses | client/src/components/Clients/CreateClient.tsx:149-164 | step 1 has no errors exactly when every step-1 field is complete and the e-mail matches |
| CreateClient.PartnerErrors | client/src/components/Clients/CreateClient.tsx:166-186 | step 3's map has a key for exactly the partner fields that fail, each with its message |
| CreateClient.PartnerTests | client/src/components/Clients/CreateClient.tsx:167-185 | the partner's name, phone and profession are flagged exactly when blank, and gender and birthdate exactly when empty |
| CreateClient.PartnerEmailError | client/src/components/Clients/CreateClient.tsx:169-176 | the partner's e-mail is flagged exactly when the pattern rejects it; any non-empty e-mail, one of white space only included, ends with "Email do parceiro inválido", and only the empty e-mail keeps "Email do parceiro é obrigatório" |
| CreateClient.PartnerPasses | client/src/components/Clients/CreateClient.tsx:166-186 | step 3 with a partner has no errors exactly when every partner field is complete |
| CreateClient.FieldKeyIsNotDependentKey | client/src/components/Clients/CreateClient.tsx:192 | no field key is a `dependent_` key |
| CreateClient.KeyNameInjective | client/src/components/Clients/CreateClient.tsx:147 | distinct error keys are distinct strings |
| CreateClient.DependentKeyInjective | client/src/components/Clients/CreateClient.tsx:192-209 | different dependents or different checks never share a `dependent_<i>_<field>` key |
| CreateClient.DependentErrors | client/src/components/Clients/CreateClient.tsx:188-212 | step 4's map has a key exactly for each check a dependent fails, with that check's message numbered from 1 |
| CreateClient.DependentErrorsBound | client/src/components/Clients/CreateClient.tsx:188-212 | step 4 reports at most four errors per dependent |
| CreateClient.DependentErrorsEmpty | client/src/components/Clients/CreateClient.tsx:188-215 | step 4 has no errors exactly when every dependent passes all four checks |
| CreateClient.ValidateStepPasses | client/src/components/Clients/CreateClient.tsx:146-216 | step 2 always passes; step 3 passes without a partner; steps 1, 3 and 4 pass exactly when their fields are complete |
| CreateClient.CheckNameAndEmail | client/src/components/Clients/CreateClient.tsx:150-154 | the name and e-mail tests, in source order, give exactly those fields' entries |
| CreateClient.CheckPhoneGenderProfession | client/src/components/Clients/CreateClient.tsx:155-159 | the next three tests add exactly the failing fields among phone, gender and profession |
| CreateClient.CheckBirthdateAndStatus | client/src/components/Clients/CreateClient.tsx:160-163 | the last two tests add exactly the failing fields among birthdate and marital status |
| CreateClient.CheckBasicInfo | client/src/components/Clients/CreateClient.tsx:149-164 | the step-1 `if` chain computes exactly BasicInfoErrors |
| CreateClient.CheckPartnerNameAndEmail | client/src/components/Clients/CreateClient.tsx:167-176 | the partner name and e-mail tests give exactly those fields' entries |
| CreateClient.CheckPartnerPhoneAndGender | client/src/components/Clients/CreateClient.tsx:177-180 | the partner phone and gender tests add exactly the failing ones |
| CreateClient.CheckPartnerProfession | client/src/components/Clients/CreateClient.tsx:181-182 | the partner profession test adds its key exactly when it fails |
| CreateClient.CheckPartnerBirthdate | client/src/components/Clients/CreateClient.tsx:183-185 | the partner birthdate test adds its key exactly when it fails |
| CreateClient.CheckPartner | client/src/components/Clients/CreateClient.tsx:166-186 | the step-3 `if` chain computes exactly PartnerErrors |
| CreateClient.CheckDependent | client/src/components/Clients/CreateClient.tsx:191-210 | one turn of the `forEach` adds exactly the failing checks of that dependent, under its index |
| CreateClient.CheckDependents | client/src/components/Clients/CreateClient.tsx:188-212 | the `forEach` loop computes exactly DependentErrors |
| CreateClient.ComputeStepErrors | client/src/components/Clients/CreateClient.tsx:146-213 | the body of `validateStep` computes exactly StepErrors |
| CreateClient.WhenPartner | client/src/components/Clients/CreateClient.tsx:247-257 | a partner field is present exactly when the client has a partner |
| CreateClient.Payload | client/src/components/Clients/CreateClient.tsx:236-265 | basic fields are copied; empty address fields become undefined; all partner fields are undefined without a partner; the fixed owner e-mail is attached |
| CreateClient.ClientWizard.constructor | client/src/components/Clients/CreateClient.tsx:81-83 | the wizard starts at step 1 with the initial draft and no errors |
| CreateClient.ClientWizard.Open | client/src/components/Clients/CreateClient.tsx:806-811 | opening the dialog resets step, draft and errors |
| CreateClient.ClientWizard.ValidateStep | client/src/components/Clients/CreateClient.tsx:146-216 | the step's errors are stored, and the result is true exactly when there are none |
| CreateClient.ClientWizard.HandleNext | client/src/components/Clients/CreateClient.tsx:218-224 | the step advances by one only when it validates and is below 4; it stays within 1..4 |
| CreateClient.ClientWizard.HandleBack | client/src/components/Clients/CreateClient.tsx:226-230 | the step goes back by one only above 1; it stays within 1..4 |
| CreateClient.ClientWizard.UpdateFormData | client/src/components/Clients/CreateClient.tsx:106-112 | the field takes the value, and its error, if any, is blanked |
| CreateClient.ClientWizard.AddDependent | client/src/components/Clients/CreateClient.tsx:114-128 | the dependents list becomes AddedDependent, and the rest of the draft is kept |
| CreateClient.ClientWizard.UpdateDependent | client/src/components/Clients/CreateClient.tsx:130-137 | the dependents list becomes UpdatedDependents |
| CreateClient.ClientWizard.RemoveDependent | client/src/components/Clients/CreateClient.tsx:139-144 | the dependents list becomes RemovedDependents |
| CreateClient.ClientWizard.HandleSubmit | client/src/components/Clients/CreateClient.tsx:232-282 | the payload is posted exactly when the step validates; a post that does not throw resets the wizard, and a throw keeps it |
| DependentForms.KeyNameInjective | client/src/components/Clients/AddDependent.tsx:54 | distinct error keys of the dependent dialogs are distinct strings |
| DependentForms.WithField | client/src/components/Clients/AddDependent.tsx:49-52 | `{ ...prev, [name]: value }` sets the named field and keeps the others |
| DependentForms.WithFieldLastWins | client/src/components/Clients/AddDependent.tsx:49-52 | setting a field twice keeps the last value, and setting it to its own value changes nothing |
| AddDependent.ValidationErrors | client/src/components/Clients/AddDependent.tsx:62-95 | the map has a key for exactly the fields that fail, each with its message |
| AddDependent.FieldTests | client/src/components/Clients/AddDependent.tsx:65-94 | blank name, empty gender and empty type are flagged; e-mail only when typed and rejected by the unanchored pattern; phone only when typed with a digit count other than 10 or 11; birthdate only when given and after today |
| AddDependent.ValidationPasses | client/src/components/Clients/AddDependent.tsx:96-97 | `validateForm` is true exactly when the draft is acceptable |
| AddDependent.SeparatorsIgnored | client/src/components/Clients/AddDependent.tsx:81-86 | non-digit separators inside a typed phone number never change its verdict |
| AddDependent.CheckRequired | client/src/components/Clients/AddDependent.tsx:65-75 | the name, gender and type tests give exactly those fields' entries |
| AddDependent.CheckContact | client/src/components/Clients/AddDependent.tsx:77-86 | the e-mail and phone tests add exactly the failing ones |
| AddDependent.CheckBirthdate | client/src/components/Clients/AddDependent.tsx:88-94 | the birthdate test adds its key exactly when a given birthdate lies after today |
| AddDependent.CheckFields | client/src/components/Clients/AddDependent.tsx:62-95 | the `if` chain computes exactly ValidationErrors |
| AddDependent.Payload | client/src/components/Clients/AddDependent.tsx:109-112 | the payload is the draft's six fields plus `clientid` |
| AddDependent.AddDependentDialog.constructor | client/src/components/Clients/AddDependent.tsx:18-27 | the dialog starts with an empty draft, no errors, not submitting |
| AddDependent.AddDependentDialog.HandleInputChange | client/src/components/Clients/AddDependent.tsx:45-60 | the field takes the value, and its error, if any, is blanked |
| AddDependent.AddDependentDialog.ValidateForm | client/src/components/Clients/AddDependent.tsx:62-98 | the errors are stored, and the result is true exactly when the draft is acceptable |
| AddDependent.AddDependentDialog.BeginSubmit | client/src/components/Clients/AddDependent.tsx:100-114 | a request is made exactly when the draft validates; it carries the payload and sets `isSubmitting` |
| AddDependent.AddDependentDialog.FinishSubmit | client/src/components/Clients/AddDependent.tsx:116-137 | a truthy result resets the draft and errors and closes; otherwise the submit message is the only error; `isSubmitting` ends either way |
| AddDependent.AddDependentDialog.HandleClose | client/src/components/Clients/AddDependent.tsx:140-153 | while submitting nothing changes and the dialog stays; otherwise draft and errors reset and it closes |
| EditDependent.FormFor | client/src/components/Clients/EditDependent.tsx:46-57 | each field is copied from the dependent, and a missing one becomes "" |
| EditDependent.ValidationErrors | client/src/components/Clients/EditDependent.tsx:77-95 | the map has a key for exactly the fields that fail, each with its message |
| EditDependent.FieldTests | client/src/components/Clients/EditDependent.tsx:80-94 | blank name, empty gender and empty type are flagged; the e-mail only when typed and rejected by the anchored pattern; birthdate and phone never |
| EditDependent.ValidationPasses | client/src/components/Clients/EditDependent.tsx:96-97 | `validateForm` is true exactly when name is non-blank, gender and type are set, and the e-mail is empty or matches the anchored pattern |
| EditDependent.EmailStricterThanAdd | client/src/components/Clients/EditDependent.tsx:84 | an e-mail this dialog accepts, the add dialog accepts too, but not conversely |
| EditDependent.CheckTexts | client/src/components/Clients/EditDependent.tsx:80-86 | the name and e-mail tests give exactly those fields' entries |
| EditDependent.CheckSelections | client/src/components/Clients/EditDependent.tsx:88-94 | the gender and type tests add exactly the failing ones |
| EditDependent.CheckFields | client/src/components/Clients/EditDependent.tsx:77-95 | the `if` chain computes exactly ValidationErrors |
| EditDependent.Payload | client/src/components/Clients/EditDependent.tsx:110-117 | name, gender and type are copied; an empty e-mail, birthdate or phone becomes null |
| EditDependent.LoadThenSave | client/src/components/Clients/EditDependent.tsx:46-57 | loading from a dependent and saving at once returns its optional fields, with a stored "" turned into null |
| EditDependent.EditDependentDialog.constructor | client/src/components/Clients/EditDependent.tsx:18-27 | the dialog holds the given dependent, an empty draft, no errors, and is not submitting |
| EditDependent.EditDependentDialog.Load | client/src/components/Clients/EditDependent.tsx:46-57 | a non-null dependent fills the draft; null keeps it |
| EditDependent.EditDependentDialog.HandleInputChange | client/src/components/Clients/EditDependent.tsx:59-75 | the field takes the value, and its error, if any, is blanked |
| EditDependent.EditDependentDialog.ValidateForm | client/src/components/Clients/EditDependent.tsx:77-98 | the errors are stored, and the result is true exactly when the draft is acceptable |
| EditDependent.EditDependentDialog.BeginSubmit | client/src/components/Clients/EditDependent.tsx:100-119 | a request is made exactly when the draft validates and a dependent is loaded; it carries the dependent's id and the payload |
| EditDependent.EditDependentDialog.FinishSubmit | client/src/components/Clients/EditDependent.tsx:121-132 | success closes; a failed result and a thrown call store their different messages; `isSubmitting` ends either way |
| EditDependent.EditDependentDialog.HandleClose | client/src/components/Clients/EditDependent.tsx:135-138 | closing clears the errors, even while a save is in flight |
| EditClient.DateField | client/src/components/Clients/EditClient.tsx:62-64 | an absent or empty stored date gives ""; any other gives the ISO text up to the first `T` |
| EditClient.DateFieldOfTimestamp | client/src/components/Clients/EditClient.tsx:62-64 | for an ISO timestamp, the field is exactly its 10-character date part |
| EditClient.FormFor | client/src/components/Clients/EditClient.tsx:54-79 | every text is copied with "" for a missing one, and both birthdates keep only the ISO date part |
| EditClient.KeyNameInjective | client/src/components/Clients/EditClient.tsx:91 | distinct error keys are distinct strings |
| EditClient.WithField | client/src/components/Clients/EditClient.tsx:85-88 | the named field takes the value, and every other field keeps its own |
| EditClient.ValidationErrors | client/src/components/Clients/EditClient.tsx:99-131 | the map has a key for exactly the fields that fail, each with its message |
| EditClient.FieldTests | client/src/components/Clients/EditClient.tsx:102-130 | name, profession and phone are flagged exactly when blank, and selections exactly when empty; the e-mail exactly when the anchored pattern rejects it, with "obrigatório" if blank, else "inválido"; address and partner fields never |
| EditClient.BlankIsNotStrict | client/src/components/Clients/EditClient.tsx:106-110 | a blank e-mail never matches the anchored pattern |
| EditClient.ValidationPasses | client/src/components/Clients/EditClient.tsx:132-133 | `validateForm` is true exactly when all seven client fields are complete and the e-mail is well formed |
| EditClient.CheckIdentity | client/src/components/Clients/EditClient.tsx:102-110 | the name test and the e-mail `if`/`else if` give exactly those fields' entries |
| EditClient.CheckTexts | client/src/components/Clients/EditClient.tsx:112-118 | the profession and phone tests add exactly the failing ones |
| EditClient.CheckSelections | client/src/components/Clients/EditClient.tsx:120-130 | the gender, birthdate and marital-status tests add exactly the failing ones |
| EditClient.CheckFields | client/src/components/Clients/EditClient.tsx:99-131 | the `if` chain computes exactly ValidationErrors |
| EditClient.Payload | client/src/components/Clients/EditClient.tsx:146-163 | every field is copied, and only an empty partner birthdate becomes null |
| EditClient.LoadThenSaveKeepsAbsentDates | client/src/components/Clients/EditClient.tsx:74-76 | a client without a partner birthdate is saved back with null there, and a missing address is saved as "" |
| EditClient.EditClientDialog.constructor | client/src/components/Clients/EditClient.tsx:18-37 | the dialog holds the given client, an empty draft, no errors, and is not submitting |
| EditClient.EditClientDialog.Load | client/src/components/Clients/EditClient.tsx:54-79 | loading a client fills the draft from it |
| EditClient.EditClientDialog.HandleInputChange | client/src/components/Clients/EditClient.tsx:81-97 | the field takes the value, and its error, if any, is blanked while other errors are kept |
| EditClient.EditClientDialog.ValidateForm | client/src/components/Clients/EditClient.tsx:99-134 | the errors are stored, and the result is true exactly when the draft is acceptable |
| EditClient.EditClientDialog.BeginSubmit | client/src/components/Clients/EditClient.tsx:136-165 | a request with the client's id and the payload is made exactly when the draft validates |
| EditClient.EditClientDialog.FinishSubmit | client/src/components/Clients/EditClient.tsx:167-178 | success closes; a failed result and a thrown call store their different messages; `isSubmitting` ends either way |
| EditClient.EditClientDialog.HandleClose | client/src/components/Clients/EditClient.tsx:181-184 | closing clears the errors |
| ClientDetails.FormatPhoneNumber | client/src/components/Clients/ClientDetails.tsx:112-126 | absent or empty gives "Não informado"; 11 digits give `(dd) ddddd-dddd` (15 characters); 10 give `(dd) dddd-dddd` (14); any other count gives the text unchanged |
| ClientDetails.LayoutDigits | client/src/components/Clients/ClientDetails.tsx:116-122 | the layouts add no digits |
| ClientDetails.FormatKeepsDigits | client/src/components/Clients/ClientDetails.tsx:115-125 | the digits of the shown number are the digits of the stored one |
| ClientDetails.FormatIdempotent | client/src/components/Clients/ClientDetails.tsx:112-126 | formatting a formatted number, or the placeholder, changes nothing |
| ClientDetails.AgeCountsAnniversaries | client/src/components/Clients/ClientDetails.tsx:98-109 | the age is the unique `n` whose `n`-th anniversary has come and whose `n+1`-th has not |
| ClientDetails.AgeNonNegative | client/src/components/Clients/ClientDetails.tsx:98-109 | a birthdate not after today gives an age of at least 0 |
| ClientDetails.AgeZeroFirstYear | client/src/components/Clients/ClientDetails.tsx:98-109 | from the birth date until the first anniversary the age is 0 |
| ClientDetails.AgeMonotone | client/src/components/Clients/ClientDetails.tsx:98-109 | the age never decreases as today moves forward |
| ClientDetails.ReadDate | client/src/components/Clients/ClientDetails.tsx:42-52 | a `YYYY-MM-DD…` string is read as that local date; any other text goes to JavaScript's parser; the result exists when present |
| ClientDetails.GetAge | client/src/components/Clients/ClientDetails.tsx:73-110 | "Não informado" exactly for absent or empty input, "Data inválida" exactly for an unreadable date, otherwise the age |
| ClientDetails.GetAgeNonNegative | client/src/components/Clients/ClientDetails.tsx:94-109 | a readable birthdate not after today gives a non-negative number of years |
| ClientDetails.DateText | client/src/components/Clients/ClientDetails.tsx:63-67 | the pt-BR text has `/` at positions 2 and 5 |
| ClientDetails.DateTextRoundTrip | client/src/components/Clients/ClientDetails.tsx:63-67 | reading the `DD/MM/YYYY` text back gives the date |
| ClientDetails.FormatDate | client/src/components/Clients/ClientDetails.tsx:33-71 | "Não informado" for absent or empty input, "Data inválida" for an unreadable date, otherwise a text that reads back as the date |
| ClientDetails.DetailsIgnoreTime | client/src/components/Clients/ClientDetails.tsx:42-47 | `YYYY-MM-DD` and `YYYY-MM-DDT…` are shown and aged identically |
| ClientSearch.Search | client/src/components/Clients/ClientsAside.tsx:31-35 | a client is kept exactly when its lower-cased name or profession contains the lower-cased term; the result is an order-preserving subsequence with multiplicities kept |
| ClientSearch.SearchEmptyKeepsAll | client/src/components/Clients/ClientsAside.tsx:31-35 | an empty term keeps every client in order |
| ClientSearch.SearchNarrows | client/src/components/Clients/ClientsAside.tsx:31-35 | extending the term gives a subsequence of the earlier result |
| ClientSearch.SearchIgnoresCase | client/src/components/Clients/ClientsAside.tsx:31-35 | a term and its lower-cased form match the same clients and list them in the same order |
| ClientSearch.CountText | client/src/components/Clients/ClientsAside.tsx:102-103 | the label is the count in decimal, a space, and "cliente" exactly when the count is 1 |
| ClientSearch.CountTextInjective | client/src/components/ClientsAside.tsx:105-106 | different counts give different labels |
| ClientsAside.ClientsAsidePanel.constructor | client/src/components/Clients/ClientsAside.tsx:26-29 | the panel starts with no clients, no term, no selection, and loading |
| ClientsAside.ClientsAsidePanel.CountLabel | client/src/components/Clients/ClientsAside.tsx:98-105 | "Carregando..." exactly while loading, otherwise the count label of the search result |
| ClientsAside.ClientsAsidePanel.HandleClientClick | client/src/components/Clients/ClientsAside.tsx:37-40 | the clicked client's id is selected, and exactly the cards with that id are marked |
| ClientsAside.ClientsAsidePanel.SetSearchTerm | client/src/components/Clients/ClientsAside.tsx:90 | the term changes and nothing else does |
| ClientsAside.ClientsAsidePanel.BeginFetch | client/src/components/Clients/ClientsAside.tsx:45 | loading starts |
| ClientsAside.ClientsAsidePanel.FinishFetch | client/src/components/Clients/ClientsAside.tsx:46-53 | a fetched list replaces the clients, a thrown fetch keeps them, and loading ends |
| TopLevelClientsAside.ClientsAsidePanel.constructor | client/src/components/ClientsAside.tsx:25-27 | the panel starts with no clients, no term and no selection |
| TopLevelClientsAside.ClientsAsidePanel.HandleClientClick | client/src/components/ClientsAside.tsx:35-38 | the clicked client's id is recorded, and exactly the cards with that id are marked |
| TopLevelClientsAside.ClientsAsidePanel.SetSearchTerm | client/src/components/ClientsAside.tsx:97 | the term changes and nothing else does |
| TopLevelClientsAside.ClientsAsidePanel.FinishFetch | client/src/components/ClientsAside.tsx:40-45 | the fetched list replaces the clients |
| MainBody.Insert | client/src/components/MainBody.tsx:281 | inserting into a list sorted by id, highest first, keeps it sorted and adds exactly the client |
| MainBody.SortByIdDescending | client/src/components/MainBody.tsx:280-281 | the sorted copy has the same clients, with ids never increasing and a missing id counted as 0 |
| MainBody.InsertKeepsTies | client/src/components/MainBody.tsx:281 | insertion puts the client in front of those with an equal key and keeps their order |
| MainBody.SortIsStable | client/src/components/MainBody.tsx:281 | clients with equal keys keep their list order |
| MainBody.RecentActivity | client/src/components/MainBody.tsx:279-282 | the card lists min(3, n) clients, the beginning of the sorted copy |
| MainBody.PrefixHoldsLargest | client/src/components/MainBody.tsx:282 | nothing after a prefix of a descending list has a larger key than anything in it |
| MainBody.RecentActivityIsTopThree | client/src/components/MainBody.tsx:279-282 | the listed clients come from the list in non-increasing key order, and no omitted client has a larger key than a listed one |
| MainBody.RecentCard | client/src/components/MainBody.tsx:277-358 | the empty state is shown exactly when there are no clients; otherwise one to three clients are shown |

## Left out

- The backend, the data-access functions and cookie sessions are not part of this model. A save or fetch is a parameter: its outcome (`CallOutcome`), the list it returns, or whether it threw.
- React: `setState` is a synchronous assignment; batching, effects and re-renders are not modelled. The asynchronous submits are split into a start (`BeginSubmit`) and a finish (`FinishSubmit`).
- `alert`, `console.log`, the `onClose`/`onDependentAdded`/`onClientSelect` callbacks and the dashboard's entrance animation timer are left out. Closing the dialog is reported as a `closed` result.
- White space and case: `\s` and `trim` use the ECMAScript white-space and line-terminator characters; `toLowerCase` is modelled only for ASCII and the Latin-1 capitals. Other Unicode case mappings are not modelled.
- Dates are (year, month, day) triples. Time zones and time values are not modelled. `new Date()` is the `today` parameter: for AddDependent it is the current UTC date, because the date input's text is read as UTC midnight; for the details panel it is the local date.
- JavaScript's parser for non-ISO date strings is a parameter (`parse`, `fallback`). So is EditClient's `new Date(x).toISOString()` (`toIsoString`). The model takes it as total, whereas JavaScript throws on an invalid date.
- Dates.IsoDate: an ISO string whose day or month is out of range (such as `2024-02-30`) is treated as an unreadable date ("Data inválida"). JavaScript's `new Date(y, m - 1, d)` normalises it to a later date.
- Dates.DayNumber: the day field is read as an exact decimal. JavaScript first rounds it to the nearest double, so a field with more than about 17 significant digits (such as `15.99999999999999999`) can give the next day there. A day large enough to overflow to `Infinity` is unreadable in both.
- Dates.IsoTextRoundTrip: holds only from the year 100 on. `new Date(y, m - 1, d)` reads the years 0 to 99 as 1900 to 1999 (ConstructorYear), so the ISO text of an earlier year gives a different date.
- Dates.ParseDateInput: the same applies to an out-of-range 10-character date in AddDependent. That birthdate is treated as never in the future.
- ClientDetails.CalendarDate: the model assumes the fallback parser returns only existing dates of year 1 or later. `Intl.DateTimeFormat`'s era notation for earlier years is not modelled.
- ClientsAside.ClientsAsidePanel.FinishFetch: the `None` branch (the request threw, and the list is kept) models the `catch` at client/src/components/Clients/ClientsAside.tsx:48 as written. `getClients` in the data-access layer catches every error and returns `[]`, so in the running program a failed request arrives as `Some([])` and empties the list.
- TopLevelClientsAside.ClientsAsidePanel.CountLabel: has no contract of its own; it returns ClientSearch.CountText of the search result, and that function's contract states the label.
- The details panel's rendering (`{age} anos`, the avatar initial, `gender || "Não informado"`) is not modelled.
- CreateClient.Payload: the birthdates are kept as the input's text, whereas the source wraps them in `new Date(...)` before posting.
- Ids generated with `Date.now()` are parameters (`AddDependent(newId)`).
- The MainBody loading overlay, the client count and `handleClientCreated` refresh the list wholesale, so they are not modelled. The `slice()` copy is implicit: the model works on immutable sequences, so the input list cannot be reordered.
- Rendering-only components, pages, headers, the rich-text editor and the type declarations in `models/` are not part of this model.
