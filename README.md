# Assisted-user history, social-worker profile and user data: a Dafny model

This project models the client-side logic of four parts of a React application for a
psychological and social assistance service:

- **The appointment history** (`HistoricoUser`). Consultation records from the API are
  normalised into `HistoricoConsulta` values. On every render they are filtered by period,
  status and a case-insensitive search, then sorted by date, rating or specialty in either
  direction. The page also computes statistics, exports the filtered view as CSV and edits
  feedback in place. Module `History`: pure functions plus the class `HistoryPage`, which
  holds the list and the feedback-dialog fields.
- **The social worker's profile form** (`ProfileFormAssistenteSocial`). It has a
  progressive phone mask, shape checks for phones, e-mails and postal codes (CEP), and a
  whole-form validator. Its state has two copies of the profile: `formData` is edited,
  while `originalData` feeds the sidebar and changes only when the profile is loaded or
  saved. Three section saves each run a guard list, send a payload and merge the server's
  answer. The form also fills the address from a CEP lookup, saves the photo and cancels
  edits. Module `ProfileForm`, with the class `ProfilePage`.
- **The user service** (`usuarioApi`). It looks up the current user's id in local storage
  through a priority chain. It converts between the backend record and the front-end
  record, which includes splitting and joining the phone number. It also implements the
  fallback chain of `getCurrentUser`, which uses the API, then the cache, then a fixed
  development user, and the failure fallback of `updateUser`. Module `UserService`, with
  the class `LocalStorage`.
- **The profile-data hook** (`useUserData`). It holds `userData`, `loading` and `error`.
  Its fetch falls back from the service to the cache and then to defaults. Its update
  resolves the user id and merges the new data one level deep. Module `UserDataHook`,
  with the class `UserDataState`.

`Wrappers` holds `Option`, `Result` and `Slot`. A `Slot` is what reading one local-storage
key and parsing it gives: no entry, an empty string, text `JSON.parse` rejects, or a
parsed object. `Text` models the JavaScript string primitives the code relies on: `\d`,
`\s` and `trim`, `||` on strings, removing non-digits, `toLowerCase`, `includes`, number
to text, and `parseInt`.

Everything the code gets from outside is an input to the model. This covers HTTP answers,
the postal-code lookup, the FileReader preview, the clock-derived period cutoffs and
date-fns formatting.

## Model

| member | source | states |
|---|---|---|
| History.TimeOf | src/components/HistoricoUser.tsx:88 | with no `T` in `horario` the time is `00:00`; any time is 1 to 5 characters long and holds no `T` |
| History.TimeOfIsoDateTime | src/components/HistoricoUser.tsx:88 | for `date T hh:mm rest` the time is exactly `hh:mm` |
| History.TimeOfAfterSeparator | src/components/HistoricoUser.tsx:88 | the time is the first up to five characters of the piece between the first and the next `T`, and `00:00` when that piece is empty (as in `2024-01-15T`) |
| History.Normalise | src/components/HistoricoUser.tsx:83-100 | id as text, parsed instant, time from `horario`; name, specialty, service type and status copied; duration 50, cost 0; feedback present iff `avaliacao` is non-zero, then with that rating and the API comment |
| History.NormaliseAll | src/components/HistoricoUser.tsx:83-100 | one normalised record per API record, in the same order |
| History.SelectIsSubsequence | src/components/HistoricoUser.tsx:220-261 | the filtered list is a subsequence of the input, in input order |
| History.SelectMembers | src/components/HistoricoUser.tsx:220-261 | a record is kept iff it is in the input and passes the period, status and search tests |
| History.SelectNoCriteria | src/components/HistoricoUser.tsx:220-261 | period `all`, no status and an empty search keep the whole list |
| History.SelectIdempotent | src/components/HistoricoUser.tsx:220-261 | filtering twice with the same criteria is filtering once |
| History.SearchIgnoresCase | src/components/HistoricoUser.tsx:249-258 | two search terms that differ only in letter case keep the same records, and lower-casing the term first changes nothing |
| History.PeriodAndStatus | src/components/HistoricoUser.tsx:223-258 | a kept record is not before the period's cutoff, has the chosen status, and matches a non-empty search in name, specialty, service type or long date |
| History.Select | src/components/HistoricoUser.tsx:220-261 | the filtered list is no longer than the input and every record in it passes the period, status and search tests (with `SelectMembers` for the converse) |
| History.PeriodOnly | src/components/HistoricoUser.tsx:223-243 | with period alone, a record is dropped iff its period has a cutoff and the record is strictly before it; unknown periods drop nothing |
| History.ToggleStatus | src/components/HistoricoUser.tsx:493-507 | a status button sets its status unless it is already the filter, in which case it clears it |
| History.ToggleTwice | src/components/HistoricoUser.tsx:493-507 | pressing the same button twice restores the filter |
| History.CompareText | src/components/HistoricoUser.tsx:276 | the comparison of two specialties is -1, 0 or 1 |
| History.CompareTextAntisymmetric | src/components/HistoricoUser.tsx:276 | the text order is antisymmetric |
| History.CompareTextZero | src/components/HistoricoUser.tsx:276 | two specialties compare equal iff they are the same text |
| History.CompareTextTransitive | src/components/HistoricoUser.tsx:276 | the text order is transitive |
| History.CompareAntisymmetric | src/components/HistoricoUser.tsx:262-280 | each of the three comparators is antisymmetric |
| History.TieSubstitutes | src/components/HistoricoUser.tsx:262-280 | records tied on the key compare alike with every other record |
| History.LeTransitive | src/components/HistoricoUser.tsx:262-283 | the directed order is transitive in both directions |
| History.LtLeTransitive | src/components/HistoricoUser.tsx:262-283 | strictly-before followed by not-after is strictly before |
| History.SortPermutes | src/components/HistoricoUser.tsx:262-283 | the sorted list is a permutation of the filtered list |
| History.SortSorted | src/components/HistoricoUser.tsx:262-283 | the sorted list is ordered by the directed comparator |
| History.SortOrdersKeys | src/components/HistoricoUser.tsx:262-283 | `asc` gives non-decreasing keys (instant, rating with 0 for none, specialty) and `desc` non-increasing ones |
| History.SortStable | src/components/HistoricoUser.tsx:262-283 | records tied on the key keep their input order, in both directions, because `desc` negates the comparator rather than reversing the list |
| History.SortHistorico | src/components/HistoricoUser.tsx:262-283 | sorting keeps the number of records (with `SortPermutes` and `SortSorted` for contents and order) |
| History.ReverseAscIsDesc | src/components/HistoricoUser.tsx:262-283 | reversing a list sorted ascending gives one sorted descending |
| History.SortedUnique | src/components/HistoricoUser.tsx:262-283 | two lists with the same records, both sorted the same way on a key with no ties, are equal |
| History.SortDescReversesAsc | src/components/HistoricoUser.tsx:262-283 | when no two records tie on the key, `desc` is exactly `asc` reversed |
| History.CountStatus | src/components/HistoricoUser.tsx:287-288 | a status count never exceeds the list length |
| History.CountsWithinTotal | src/components/HistoricoUser.tsx:286-289 | completed plus cancelled never exceed the total |
| History.ComputeStats | src/components/HistoricoUser.tsx:286-296 | `total` is the list length and completed plus cancelled never exceed it (with `StatsCounts`, `AvgRatingIsMean` and `TotalSpentIsRealizadaCost` for the other figures) |
| History.StatsCounts | src/components/HistoricoUser.tsx:286-289 | `total` is the list length and completed plus cancelled are at most `total` |
| History.Rated | src/components/HistoricoUser.tsx:291 | a record is kept by the rating filter iff it is in the list with a non-zero rating, and the kept records are in list order |
| History.MeanStepSum | src/components/HistoricoUser.tsx:290-292 | the reduce that divides each rating by the array length adds up to the sum of the ratings over that length |
| History.AvgRatingIsMean | src/components/HistoricoUser.tsx:290-292 | `avgRating` is 0 when no record is rated, else the mean rating of the rated records |
| History.AvgRatingBounds | src/components/HistoricoUser.tsx:290-292 | with ratings from 0 to 5, the average is between 1 and 5 when some record is rated, and 0 when none is |
| History.TotalSpentIsRealizadaCost | src/components/HistoricoUser.tsx:293-295 | `totalSpent` is the sum of the costs of completed records |
| History.NormalisedSpendsNothing | src/components/HistoricoUser.tsx:293-295 | the spending of freshly loaded records is 0, because the normaliser sets every cost to 0 |
| History.SetFeedbackEffect | src/components/HistoricoUser.tsx:115-123 | a feedback rewrite keeps the list length, sets the feedback of the matching records and leaves every other record as it was |
| History.SetFeedbackIdempotent | src/components/HistoricoUser.tsx:156-160 | with a matcher that ignores feedback, rewriting twice is rewriting once |
| History.MatchersIgnoreFeedback | src/components/HistoricoUser.tsx:114-160 | matching by id and matching by (instant, time) do not look at the feedback |
| History.SavedFeedback | src/components/HistoricoUser.tsx:157-158 | the saved feedback has the chosen rating, and an empty comment is stored as absent |
| History.SaveFeedbackTo | src/components/HistoricoUser.tsx:143-168 | the list keeps its length, and without a selection or with rating 0 it is unchanged (with `SaveFeedbackSpec` for which records change) |
| History.SaveFeedbackSpec | src/components/HistoricoUser.tsx:143-168 | without a selection or with rating 0 the list is unchanged; otherwise exactly the records with the selected id get the new feedback, the length is kept, and saving twice is saving once |
| History.SeedRating | src/components/HistoricoUser.tsx:138 | the dialog opens with the record's rating, or 0 |
| History.SeedComment | src/components/HistoricoUser.tsx:139 | the dialog opens with the record's comment, or the empty text |
| History.NumeralIsNotNA | src/components/HistoricoUser.tsx:194-195 | a number written out is never the text `N/A` |
| History.CsvRow | src/components/HistoricoUser.tsx:185-197 | every data row has as many cells as the 8-column header |
| History.CsvRows | src/components/HistoricoUser.tsx:185-197 | one 8-column header and one 8-field row per filtered record; date, time, name, specialty, type and status in order; the rating cell is the rating's numeral, or `N/A` iff the rating is 0; the cost cell is `R$ ` and the cost, or `N/A` iff the cost is 0 |
| History.HistoryPage.constructor | src/components/HistoricoUser.tsx:48-60 | the initial state: empty list, no selection, rating 0, period `all`, sort by date descending |
| History.HistoryPage.Load | src/components/HistoricoUser.tsx:73-112 | on success the list is the normalised API records and the error is cleared; on failure the list is kept and the error is the message or the fixed fallback; loading ends false |
| History.HistoryPage.SetSearchTerm | src/components/HistoricoUser.tsx:485 | the search input sets the term |
| History.HistoryPage.ToggleStatusFilter | src/components/HistoricoUser.tsx:493-507 | the status buttons toggle the filter as `ToggleStatus` says |
| History.HistoryPage.OpenFeedbackModal | src/components/HistoricoUser.tsx:136-141 | selects the record, seeds rating and comment from its feedback and opens the dialog |
| History.HistoryPage.SetRating | src/components/HistoricoUser.tsx:810 | a star button sets the rating |
| History.HistoryPage.SetComment | src/components/HistoricoUser.tsx:848 | the comment box sets the comment |
| History.HistoryPage.CancelFeedback | src/components/HistoricoUser.tsx:879-883 | closes the dialog and restores the selected record's rating and comment |
| History.HistoryPage.SaveFeedback | src/components/HistoricoUser.tsx:143-168 | saves iff there is a selection and a non-zero rating; the list becomes `SaveFeedbackTo` of the old one; a save closes the dialog and resets rating and comment, a refusal changes nothing |
| History.HistoryPage.AddFeedback | src/components/HistoricoUser.tsx:114-129 | every record with the same instant and time gets the given feedback, whatever the rating |
| History.HistoryPage.ExportHistory | src/components/HistoricoUser.tsx:170-218 | when the endpoint answers ok, the CSV text is built from the current filtered and sorted view; otherwise there is none; `isExporting` ends false |
| Text.Or | src/components/ProfileFormAssistenteSocial.tsx:276-286 | `value \|\| default` is the value when it is present and non-empty, and the default otherwise |
| Text.Digits | src/components/ProfileFormAssistenteSocial.tsx:1354 | removing non-digits leaves only digits; it keeps the whole text iff the text is all digits, and leaves nothing iff the text has no digit |
| Text.DigitsSplit | src/components/ProfileFormAssistenteSocial.tsx:1354 | every character contributes itself when it is a digit and nothing otherwise, in its place: exactly the input's digits are kept, in order |
| Text.ParseInt | src/services/usuarioApi.ts:102 | `parseInt` gives NaN iff no digit follows the leading white space and optional sign |
| Text.ParseIntOfNumeral | src/services/usuarioApi.ts:102 | `parseInt` of the decimal numeral of any integer gives that integer back |
| Text.LowerChar | src/components/HistoricoUser.tsx:251-256 | a capital letter becomes its small letter (32 code points up), every other character is kept, and no capital is left |
| Text.LowerIdempotent | src/components/HistoricoUser.tsx:251-256 | a lower-cased text has no capital letter, so lower-casing it again changes nothing |
| ProfileForm.DottedNamesAreAddressFields | src/components/ProfileFormAssistenteSocial.tsx:172-184 | an input name holds a dot iff it is an address field |
| ProfileForm.SetChangesOnlyThatField | src/components/ProfileFormAssistenteSocial.tsx:143-185 | setting a field changes that field and nothing else; a dotted name changes only that child of the address |
| ProfileForm.FieldsDetermineForm | src/components/ProfileFormAssistenteSocial.tsx:36-60 | two forms with the same id, photo and field values are equal |
| ProfileForm.PhoneDigits | src/components/ProfileFormAssistenteSocial.tsx:1354-1358 | the digits the mask keeps are at most 11 and all digits |
| ProfileForm.Phone | src/components/ProfileFormAssistenteSocial.tsx:1352-1378 | a text without digits is returned unchanged (with `PhoneShape`, `PhoneKeepsDigits` and `PhoneIdempotent` for the mask itself) |
| ProfileForm.IsPhone | src/components/ProfileFormAssistenteSocial.tsx:1380-1384 | an accepted phone is 14 or 15 characters long, `(DD) DDDD-DDDD` or `(DD) DDDDD-DDDD` (with `PhoneShapeAccepted` relating it to the mask) |
| ProfileForm.PhoneShape | src/components/ProfileFormAssistenteSocial.tsx:1352-1378 | after truncation to 11 digits: 1 digit gives `(D`, 2 to 5 give `(DD) rest`, 6 to 10 give `(DD) DDDD-rest`, 11 give `(DD) DDDDD-DDDD`, and no digit returns the input |
| ProfileForm.PhoneKeepsDigits | src/components/ProfileFormAssistenteSocial.tsx:1352-1378 | the digits of the masked text are the first 11 digits of the input |
| ProfileForm.PhoneIdempotent | src/components/ProfileFormAssistenteSocial.tsx:1352-1378 | masking a masked phone changes nothing |
| ProfileForm.NoDigitsPhoneIsIdentity | src/components/ProfileFormAssistenteSocial.tsx:1377 | a text without digits is returned unchanged |
| ProfileForm.PhoneShapeAccepted | src/components/ProfileFormAssistenteSocial.tsx:1352-1384 | the masked text is a well-formed phone iff the input has at least 10 digits |
| ProfileForm.PhoneExample | src/components/ProfileFormAssistenteSocial.tsx:1352-1378 | `11987654321` becomes `(11) 98765-4321` |
| ProfileForm.PhoneIgnoresExtraDigits | src/components/ProfileFormAssistenteSocial.tsx:1354-1358 | once the text holds eleven digits, anything typed after it leaves the mask unchanged |
| ProfileForm.FormErrorsSpec | src/components/ProfileFormAssistenteSocial.tsx:201-251 | an error for each blank name, surname, CRP or specialty; the e-mail gets the required or the invalid message; the phone is checked only when non-blank, the CEP only when non-empty; no other keys |
| ProfileForm.FormErrors | src/components/ProfileFormAssistenteSocial.tsx:201-251 | errors are reported only for name, surname, e-mail, phone, CRP, specialty and CEP |
| ProfileForm.FormErrorsEmpty | src/components/ProfileFormAssistenteSocial.tsx:201-251 | the error map is empty iff every check passes |
| ProfileForm.PersonalProblemSpec | src/components/ProfileFormAssistenteSocial.tsx:342-386 | the personal save passes iff name, surname, e-mail and phone are non-blank and the phone is well formed; each failure reports the first check that fails, in source order |
| ProfileForm.PersonalProblem | src/components/ProfileFormAssistenteSocial.tsx:342-386 | a form that passes has a non-blank, well-formed phone |
| ProfileForm.MaskedPhoneCheck | src/components/ProfileFormAssistenteSocial.tsx:143-197 | a phone typed through the mask passes the personal save's check iff at least 10 digits were typed |
| ProfileForm.PersonalSaveIgnoresEmailFormat | src/components/ProfileFormAssistenteSocial.tsx:342-386 | a form with an e-mail lacking `@` still passes the personal save's checks |
| ProfileForm.PersonalPayload | src/components/ProfileFormAssistenteSocial.tsx:388-398 | the personal save sends exactly the nine personal fields, with their current values |
| ProfileForm.MergePersonalField | src/components/ProfileFormAssistenteSocial.tsx:405-430 | one field of the merge: a sent field takes the response's non-empty value, any other field is kept |
| ProfileForm.MergePersonalSpec | src/components/ProfileFormAssistenteSocial.tsx:405-430 | each of the nine fields becomes the response's value if non-empty, else keeps its own; id, photo and address are kept |
| ProfileForm.MergePersonal | src/components/ProfileFormAssistenteSocial.tsx:405-430 | the merge keeps the id, the photo URL and the address |
| ProfileForm.MergePersonalEmptyResponse | src/components/ProfileFormAssistenteSocial.tsx:405-430 | an empty response leaves a copy as it was |
| ProfileForm.ProfessionalProblem | src/components/ProfileFormAssistenteSocial.tsx:536-552 | the professional save passes iff CRP and specialty are non-blank |
| ProfileForm.ProfessionalPayload | src/components/ProfileFormAssistenteSocial.tsx:561-565 | sends CRP, specialty and `bio \|\| ''` |
| ProfileForm.MergeProfessional | src/components/ProfileFormAssistenteSocial.tsx:570-583 | CRP, specialty and bio are set from the response with no fallback; every other field is kept |
| ProfileForm.AddressProblem | src/components/ProfileFormAssistenteSocial.tsx:612-628 | the address save passes iff CEP and number are non-blank |
| ProfileForm.AddressPayloadOf | src/components/ProfileFormAssistenteSocial.tsx:631-635 | sends CEP, number and `complemento \|\| ''` |
| ProfileForm.FillAddress | src/components/ProfileFormAssistenteSocial.tsx:668-678 | the lookup overwrites street, district, city, state and CEP, and keeps number and complement |
| ProfileForm.LoadedField | src/components/ProfileFormAssistenteSocial.tsx:274-293 | one field of the loaded form: a text field is the profile's value or "", an address field is the lookup's value when the lookup has it |
| ProfileForm.LoadedDataSpec | src/components/ProfileFormAssistenteSocial.tsx:274-293 | every text field is the profile's value or ""; every address key the lookup returned is taken as it is, even when empty |
| ProfileForm.LoadedData | src/components/ProfileFormAssistenteSocial.tsx:274-293 | the id defaults to 0, and the photo URL is kept only when non-empty |
| ProfileForm.ProfilePage.constructor | src/components/ProfileFormAssistenteSocial.tsx:116-141 | both copies start as the default form; no change, no image, no modal, no errors |
| ProfileForm.ProfilePage.LoadProfile | src/components/ProfileFormAssistenteSocial.tsx:253-310 | both copies get the same data: the loaded form, or the default on failure; `originalEmail` is set only on success; a non-empty photo URL updates the shared image |
| ProfileForm.ProfilePage.InputChange | src/components/ProfileFormAssistenteSocial.tsx:143-185 | marks the form changed and sets only the named field; the phone is masked and the CEP formatted; `originalData` is not touched |
| ProfileForm.ProfilePage.SelectImage | src/components/ProfileFormAssistenteSocial.tsx:188-192 | records the chosen file |
| ProfileForm.ProfilePage.PreviewLoaded | src/components/ProfileFormAssistenteSocial.tsx:195-198 | stores the preview once it is read |
| ProfileForm.ProfilePage.ValidateForm | src/components/ProfileFormAssistenteSocial.tsx:201-251 | stores the error map and returns true iff it is empty |
| ProfileForm.ProfilePage.SavePersonalData | src/components/ProfileFormAssistenteSocial.tsx:328-460 | with nothing changed and no image it only notifies; a failing guard sends nothing and changes no copy; otherwise it sends the payload; on success both copies are merged, `formChanged` is cleared, the success banner is set and the e-mail modal opens iff the e-mail differs from `originalEmail`; loading ends false |
| ProfileForm.ProfilePage.ApplyPersonalResponse | src/components/ProfileFormAssistenteSocial.tsx:405-448 | the success branch: merge both copies, update the image from the preview, clear `formChanged`, open the modal when the e-mail changed |
| ProfileForm.ProfilePage.CancelEmailRedirect | src/components/ProfileFormAssistenteSocial.tsx:473-480 | closes the e-mail-change modal |
| ProfileForm.ProfilePage.SavePhoto | src/components/ProfileFormAssistenteSocial.tsx:483-520 | without a file and a preview it only notifies; a successful upload sets the shared image to the returned URL and clears file, preview and `formChanged`; a failed one changes none of those |
| ProfileForm.ProfilePage.SaveProfessionalData | src/components/ProfileFormAssistenteSocial.tsx:523-604 | requires a change, a CRP and a specialty; sends the payload; on success both copies take the response, `formChanged` is cleared and the success banner is set |
| ProfileForm.ProfilePage.SaveAddressData | src/components/ProfileFormAssistenteSocial.tsx:607-658 | no change guard; requires CEP and number; sends the payload; on success only `formChanged` and the success banner change, and neither copy does |
| ProfileForm.ProfilePage.CepBlur | src/components/ProfileFormAssistenteSocial.tsx:661-685 | a CEP shorter than 8 characters, or a lookup miss, changes nothing; a hit fills the address and marks the form changed |
| ProfileForm.ProfilePage.Cancel | src/components/ProfileFormAssistenteSocial.tsx:688-707 | reloads the working copy from the saved entry, or the default when there is none, and resets image, change flag and errors; an unreadable entry throws before anything changes |
| ProfileForm.EditThenSaveSyncsCopies | src/components/ProfileFormAssistenteSocial.tsx:405-430 | after an edit and a save, a field the response fills shows the server's value in both copies |
| UserService.LocalStorage.constructor | src/services/usuarioApi.ts:88-100 | the two storage entries the service reads |
| UserService.UserIdEntry | src/services/usuarioApi.ts:100-103 | the `userId` entry counts only when present and non-empty |
| UserService.UserIdFromStorage | src/services/usuarioApi.ts:85-110 | an unreadable `userData` gives null, and NaN can only come from a present, non-empty `userId` (with `UserIdPriority` for the whole chain) |
| UserService.UserIdPriority | src/services/usuarioApi.ts:85-110 | a truthy `idUsuario` wins, then a truthy `id`, then `parseInt` of `userId`, else null; an unreadable record gives null even when `userId` exists |
| UserService.FromApi | src/services/usuarioApi.ts:113-138 | the converted record has every required key, the backend's id and no photo |
| UserService.FromApiDefaults | src/services/usuarioApi.ts:113-138 | each text key is the backend value or "" (`\|\| ''`); the gender is the backend value or OUTRO, and OUTRO iff the backend gender is missing or empty; CPF, income, type, orientation area, referral and profession pass through; a missing address gives the empty address, otherwise each of the seven keys is the backend value or "", with `logradouro` as the street; the phone is `(ddd) numero` from the phone object, and "" iff that object is missing |
| UserService.RemoveFirstDash | src/services/usuarioApi.ts:144 | `replace('-', '')` removes exactly the first dash and keeps every other character in order; without a dash the text is unchanged |
| UserService.ToApi | src/services/usuarioApi.ts:141-168 | the phone is split by the regular expression; name, surname, e-mail, gender, CPF, birth date, income, type, orientation area, referral and profession are copied; the address keeps only number, CEP and complement |
| UserService.SplitPhone | src/services/usuarioApi.ts:141-145 | no phone gives an empty area code and number (with `PhoneRoundTrip` as its inverse) |
| UserService.SplitPhoneWithoutMatch | src/services/usuarioApi.ts:142-144 | no phone, or no parenthesis, gives an empty area code and number |
| UserService.PhoneRoundTrip | src/services/usuarioApi.ts:119-144 | joining a 2-digit area code with an 8- or 9-digit number and splitting again gives both parts back |
| UserService.SplitMaskedMobile | src/services/usuarioApi.ts:142-144 | `(DD) DDDDD-DDDD` splits into the area code and the nine digits without the dash |
| UserService.SplitPhoneSkipsPrefix | src/services/usuarioApi.ts:142 | the expression is not anchored: text without a parenthesis before the phone is skipped |
| UserService.FromProfileResponse | src/services/usuarioApi.ts:189-207 | with an API answer, the record is complete and has the stored id; name, surname, e-mail, phone and birth date are the answer's value or "", the gender the answer's or OUTRO; the CPF is kept; `idUsuario`, income, type, orientation area, referral, profession and photo are absent; the address is empty |
| UserService.FromCache | src/services/usuarioApi.ts:219-242 | with a cached record, the record is complete, has the stored id and no `idUsuario` or photo; name, surname, e-mail, phone and birth date are the cache's value or "", the gender the cache's or OUTRO; the optional fields pass through; a missing address gives the empty address, otherwise each of its seven keys is the cache's value or "" |
| UserService.CurrentUserCases | src/services/usuarioApi.ts:173-281 | `getCurrentUser` always succeeds with a complete record: the API answer with the stored id and an empty address, else the cache, else the development user; its `throw` cannot be reached |
| UserService.CurrentUser | src/services/usuarioApi.ts:173-281 | every successful answer is a complete user record |
| UserService.GetCurrentUser | src/services/usuarioApi.ts:173-281 | returns `CurrentUser`; writes the development user and `userId` `"1"` exactly when it falls back to them, and otherwise leaves storage alone |
| UserService.DefaultIsFoundNextTime | src/services/usuarioApi.ts:272-273 | after the fallback's writes, the next lookup finds id 1 |
| UserService.UpdatePayloadOf | src/services/usuarioApi.ts:289-296 | the update sends name, surname, e-mail, phone, birth date and gender as given |
| UserService.UpdatePayloadIgnores | src/services/usuarioApi.ts:289-296 | CPF, address and photo do not influence what the update sends |
| UserService.UpdateUser | src/services/usuarioApi.ts:284-315 | a failed request returns the submitted record and leaves storage alone; a successful one returns what `getCurrentUser` gives from storage, which ignores the id the caller passed |
| UserDataHook.CompleteAddressSpec | src/hooks/useUserData.ts:40-49 | the completed address has all seven keys; a present key keeps its value, even "", and a missing key becomes "" |
| UserDataHook.CompleteAddressIdempotent | src/hooks/useUserData.ts:40-49 | completing a completed address changes nothing |
| UserDataHook.CompleteAddress | src/hooks/useUserData.ts:40-49 | every one of the seven address keys is present in the result |
| UserDataHook.RestoreFromCacheSpec | src/hooks/useUserData.ts:62-85 | a readable cache overrides the defaults: each of the 15 user keys is the cache's value when the cache has it, else the default; each of the seven address keys is the cache's address value when present, else ""; a missing, empty or unreadable cache gives exactly the defaults |
| UserDataHook.RestoreFromCache | src/hooks/useUserData.ts:58-86 | the restored record always has an address, and a missing, empty or unreadable cache gives exactly the defaults |
| UserDataHook.ResolveUserIdSpec | src/hooks/useUserData.ts:101-110 | a truthy current id wins; otherwise, with a readable record, its truthy `idUsuario`, else its truthy `id`, else 1; a missing or empty record gives 1; an unreadable record is the only way it throws |
| UserDataHook.ResolveUserId | src/hooks/useUserData.ts:101-110 | a resolved id is never 0 |
| UserDataHook.MergeUserSpec | src/hooks/useUserData.ts:115-122 | each of the 15 user keys is the new value when `newData` has it, else the current one; the address is always present and each of its seven keys follows the same rule, with a missing address counting as one without keys |
| UserDataHook.MergeUser | src/hooks/useUserData.ts:115-122 | the merged record always has an address |
| UserDataHook.MergeKeepsAddressSiblings | src/hooks/useUserData.ts:115-122 | a patch that only changes the street keeps the CEP, the number and the name |
| UserDataHook.UserDataState.constructor | src/hooks/useUserData.ts:24-26 | starts with the default record, loading, no error |
| UserDataHook.UserDataState.FetchUserData | src/hooks/useUserData.ts:29-92 | on success shows and stores the record with a completed address and clears the error; on failure sets the error and shows the record restored from the cache; loading ends false on every branch |
| UserDataHook.UserDataState.UpdateUserData | src/hooks/useUserData.ts:95-160 | resolves the id, sends the merged record, and on success shows and stores the answer with a completed address; on every failure sets the error, keeps the record and storage, and rethrows; loading ends false |
| UserDataHook.FetchThenFailRestores | src/hooks/useUserData.ts:29-92 | after a successful fetch of a complete record, a failed refetch shows the same record from the cache |

## Left out

- Rendering, styling, toasts, timers for success messages, the sidebar, theme, tooltips and logout navigation are presentation or browser side effects with no state the model needs.
- The HTTP calls, the export download (Blob, object URL, link click), the FileReader preview and the photo upload are I/O; their outcomes are method parameters (`Result` values, the preview text, the uploaded URL).
- Dates: `new Date(horario)`, the month arithmetic for the period cutoffs and the date-fns formats are parameters (`parseDate`, `Calendar`). An invalid date (NaN time) is not modelled.
- History.CompareText: `localeCompare` is modelled as code-unit lexicographic order, not locale collation.
- Text.LowerChar: `toLowerCase` is modelled on Basic Latin and Latin-1 letters only.
- History.ComputeStats: `avgRating` is a real number, so IEEE rounding of the per-element division is not modelled.
- History.HistoryPage: `setSortBy`, `setSortOrder` and `setSelectedPeriod` are never called by the page, so no method changes those fields. The details dialog and logout dialog are display only.
- ProfileForm.FormData: the dashboard figures `proximaDisponibilidade`, `atendimentosRealizados` and `avaliacaoMedia` are left out because no modelled logic reads them.
- ProfileForm.FormErrors: the `form` error for undefined form data cannot arise, because the form data always exists in the model.
- ProfileForm.ProfilePage.InputChange: `formatCep` comes from a hook outside this model and is taken as a function parameter. The postal-code lookup behind `CepBlur` is likewise a parameter.
- ProfileForm.ProfilePage.Cancel: the saved `assistenteSocialData` entry is assumed to parse into a complete form. A JSON value of another shape is not modelled.
- ProfileForm.Perfil: the profile and address responses carry only text fields (and an id and photo URL); non-text values in them are not modelled.
- UserService.User: keys whose value is present but `undefined` are treated as missing, which is what `JSON.stringify` does; a spread of such a key would differ.
- UserService: JSON text that parses to something other than an object (for example `null`) is not modelled; the request interceptor and the `uploadProfileImage` simulation are I/O.
- UserService.UpdateUser: the 1.5-second simulated delay is a timer and is left out.
- UserDataHook.UserDataState.FetchUserData: the hook takes the service's outcome as a parameter. Composed with `UserService.GetCurrentUser`, which never fails (`UserService.CurrentUserCases`), the failure branch is unreachable. The parameter keeps that branch in the model as the source writes it.
- UserDataHook: a caught value that is not an `Error` would set the error to `Erro desconhecido`; every failure in the model carries a message, so that case does not arise.
