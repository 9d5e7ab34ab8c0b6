# gestionpaiment: training sessions and their trainers

gestionpaiment is a Spring Boot back end and a Next.js front end used by a training centre.
Coordinators create training sessions (class, speciality, promotion, level, semester, start and
end date) and assign trainers (*formateurs*) to them. Trainers see the sessions they were given.
An admin API lists users by role and deletes users.

This project models the core of that system in Dafny and proves properties about it.

- **Back end.**
  - The `Session` entity is a class whose setters and trainer set change in place.
  - The session store is a class over a map from id to record, with a fresh-id rule. Its service
    operations load an entity, mutate it and save it back, as the Java service does.
  - The two repository queries are functions of the stored rows.
  - The two REST controllers turn service outcomes into status codes. They project sessions and
    users into JSON maps.
  - The admin service filters users by role, with a fallback filter, and deletes users.
- **Front end.**
  - The shared form validators.
  - The API client's response decoding, with soft-failing reads and writes that let errors
    through.
  - The coordinator's session screen (`SessionManager`), modelled as a class whose handlers move
    the component state exactly as pure transition functions say.
  - The trainer's session view (`SessionFormateur`) and its per-session duration.
  - The dashboard page: role derivation, display role and colour, profile loading, profile
    saving, the profile-completion status and the role badges.

Cross-tier lemmas connect the two sides:
- what a controller answers is what the client then reads;
- the session list the server builds is the list the screen shows;
- the edit form's trainer id survives a round trip through `parseInt`.

Source paths below are relative to the repository root. Java files live under
`src/main/java/com/example/gestionpaimentback/`, TypeScript files under `gestionpaiment/app/`.

## Model

| member | source | states |
|---|---|---|
| SessionEntity.Session.constructor | src/main/java/com/example/gestionpaimentback/entity/Session.java:30-33 | `new Session()` has every field null and an empty trainer set |
| SessionEntity.Session.WithFields | src/main/java/com/example/gestionpaimentback/entity/Session.java:35-45 | the eight-argument constructor stores exactly the given id, five strings and two dates; the trainer set starts empty |
| SessionEntity.Session.SetIdSession | src/main/java/com/example/gestionpaimentback/entity/Session.java:49 | the setter changes only `idSession`, and the field then holds the value set |
| SessionEntity.Session.SetClasse | src/main/java/com/example/gestionpaimentback/entity/Session.java:52 | changes only `classe`, to the value set |
| SessionEntity.Session.SetSpecialite | src/main/java/com/example/gestionpaimentback/entity/Session.java:55 | changes only `specialite`, to the value set |
| SessionEntity.Session.SetPromotion | src/main/java/com/example/gestionpaimentback/entity/Session.java:58 | changes only `promotion`, to the value set |
| SessionEntity.Session.SetNiveau | src/main/java/com/example/gestionpaimentback/entity/Session.java:61 | changes only `niveau`, to the value set |
| SessionEntity.Session.SetSemestre | src/main/java/com/example/gestionpaimentback/entity/Session.java:64 | changes only `semestre`, to the value set |
| SessionEntity.Session.SetDateD | src/main/java/com/example/gestionpaimentback/entity/Session.java:67 | changes only `dateD`, to the value set |
| SessionEntity.Session.SetDateF | src/main/java/com/example/gestionpaimentback/entity/Session.java:70 | changes only `dateF`, to the value set |
| SessionEntity.Session.SetFormateurs | src/main/java/com/example/gestionpaimentback/entity/Session.java:73 | changes only the trainer collection, which stays a set (no two trainers with one id) |
| SessionEntity.Session.AddFormateur | src/main/java/com/example/gestionpaimentback/entity/Session.java:30 | `getFormateurs().add(u)`: reports a change iff `u` was absent; `u` is in the set afterwards and nothing else changes |
| SessionEntity.Session.RemoveFormateur | src/main/java/com/example/gestionpaimentback/entity/Session.java:30 | `getFormateurs().remove(u)`: reports a change iff `u` was present; it is absent afterwards and nothing else changes |
| SessionEntity.Session.ClearFormateurs | src/main/java/com/example/gestionpaimentback/entity/Session.java:30 | `getFormateurs().clear()` leaves the set empty and every other field as it was |
| SessionEntity.Session.HasFormateur | src/main/java/com/example/gestionpaimentback/entity/Session.java:30 | `contains(u)` holds iff some trainer of the set has that id |
| SessionEntity.AddTrainer | src/main/java/com/example/gestionpaimentback/entity/Session.java:30 | set insertion: the ids are the old ones plus the new one; distinctness is kept; adding a present trainer changes nothing |
| SessionEntity.RemoveTrainer | src/main/java/com/example/gestionpaimentback/entity/Session.java:30 | set removal: the ids are the old ones minus that id; no trainer is invented; an absent id changes nothing |
| SessionEntity.AnyHasId | src/main/java/com/example/gestionpaimentback/service/SessionService.java:129-130 | `anyMatch(f -> f.getId().equals(id))` holds iff the id is among the set's ids |
| SessionEntity.RemoveAfterAdd | src/main/java/com/example/gestionpaimentback/entity/Session.java:30 | removing a freshly added trainer gives the original set back |
| SessionEntity.AddTrainerIdempotent | src/main/java/com/example/gestionpaimentback/entity/Session.java:30 | adding the same trainer twice is adding it once |
| SessionRepository.FindAll | src/main/java/com/example/gestionpaimentback/service/SessionService.java:29-31 | `findAll()` lists every stored session once, and nothing else, by ascending id |
| SessionRepository.WithTrainer | src/main/java/com/example/gestionpaimentback/repository/SessionRepository.java:14-15 | the inner join keeps exactly the sessions that have a trainer with that id |
| SessionRepository.FindByFormateurId | src/main/java/com/example/gestionpaimentback/repository/SessionRepository.java:14-15 | exactly the stored sessions whose trainer set holds a user with id `f`, by ascending id |
| SessionRepository.CountId | src/main/java/com/example/gestionpaimentback/repository/SessionRepository.java:18-19 | the number of join rows for one session is positive iff a trainer with that id is in its set |
| SessionRepository.IsFormateurInSession | src/main/java/com/example/gestionpaimentback/repository/SessionRepository.java:18-20 | `COUNT(s) > 0` holds iff session `s` exists and has trainer `f` |
| SessionRepository.CheckAgreesWithFind | src/main/java/com/example/gestionpaimentback/repository/SessionRepository.java:14-20 | the check query holds iff session `s` is among the sessions `findByFormateurId(f)` returns |
| SessionRepository.FindNeverReturnsUnassigned | src/main/java/com/example/gestionpaimentback/repository/SessionRepository.java:14-15 | a session the trainer query returns always has at least one trainer |
| SessionService.WithDetails | src/main/java/com/example/gestionpaimentback/service/SessionService.java:46-52 | the seven setters take the five strings and two dates from the details, and keep the id and the trainer set |
| SessionService.SessionService.constructor | src/main/java/com/example/gestionpaimentback/service/SessionService.java:14-21 | an empty store over a given user table, with the next id 1 |
| SessionService.SessionService.FindById | src/main/java/com/example/gestionpaimentback/service/SessionService.java:34 | `findById` gives a fresh entity holding the stored row iff the id is stored |
| SessionService.SessionService.Save | src/main/java/com/example/gestionpaimentback/service/SessionService.java:25 | `save` stores a new entity under the next id and assigns it that id; a stored one overwrites its row |
| SessionService.SessionService.CreateSession | src/main/java/com/example/gestionpaimentback/service/SessionService.java:24-26 | the new session is stored under a fresh id, with the id written back into the entity; nothing else changes |
| SessionService.SessionService.GetAllSessions | src/main/java/com/example/gestionpaimentback/service/SessionService.java:29-31 | exactly the stored sessions, by ascending id |
| SessionService.SessionService.GetSessionById | src/main/java/com/example/gestionpaimentback/service/SessionService.java:33-40 | the stored session when the id is present; otherwise "Session non trouvée avec l'ID: id" |
| SessionService.SessionService.UpdateSession | src/main/java/com/example/gestionpaimentback/service/SessionService.java:43-55 | on a present id, overwrites the seven descriptive fields and keeps the id and the trainers; on an absent id, fails and changes nothing |
| SessionService.SessionService.DeleteSession | src/main/java/com/example/gestionpaimentback/service/SessionService.java:57-60 | removes exactly that id; an absent id fails and changes nothing |
| SessionService.SessionService.GetSessionsByFormateur | src/main/java/com/example/gestionpaimentback/service/SessionService.java:63-82 | exactly the stored sessions that have trainer `f` |
| SessionService.SessionService.AssignerFormateur | src/main/java/com/example/gestionpaimentback/service/SessionService.java:84-94 | fails, changing nothing, when the session or the user is missing; otherwise the trainer is in that session's set and no other session changes |
| SessionService.SessionService.RetirerFormateurs | src/main/java/com/example/gestionpaimentback/service/SessionService.java:96-103 | empties that session's trainer set and leaves every other row; fails on a missing session |
| SessionService.SessionService.RetirerFormateur | src/main/java/com/example/gestionpaimentback/service/SessionService.java:106-122 | fails on a missing session, an unknown user, or a user who is not assigned; otherwise removes only that trainer |
| SessionService.SessionService.IsFormateurInSession | src/main/java/com/example/gestionpaimentback/service/SessionService.java:125-131 | true iff some trainer of the session has that id, agreeing with the repository query; fails when the session is missing |
| SessionService.AssignThenRemoveRestores | src/main/java/com/example/gestionpaimentback/service/SessionService.java:84-122 | assigning a trainer not yet in a session and then removing it gives the store back |
| SessionService.AssignTwiceIsAssignOnce | src/main/java/com/example/gestionpaimentback/service/SessionService.java:92 | assigning the same trainer twice equals assigning once |
| SessionService.AssignedIsFound | src/main/java/com/example/gestionpaimentback/service/SessionService.java:84-94 | after assignment, the check query holds and the trainer query returns the session; other sessions are unaffected |
| SessionService.ClearedIsNeverFound | src/main/java/com/example/gestionpaimentback/service/SessionService.java:96-103 | after clearing, no trainer query returns that session |
| SessionService.RemovingEveryTrainerEmpties | src/main/java/com/example/gestionpaimentback/service/SessionService.java:106-122 | removing every listed trainer one at a time empties the set, as one clear does |
| SessionService.DeletedIsNotListed | src/main/java/com/example/gestionpaimentback/service/SessionService.java:57-60 | after deletion, `findAll` never lists that session |
| Http.MapOutcome | src/main/java/com/example/gestionpaimentback/controller/SessionController.java:79-86 | a success answers its status with the value; a runtime exception answers the rejection status; any other exception answers 500; all failures have a null body |
| SessionController.DateText | src/main/java/com/example/gestionpaimentback/controller/SessionController.java:42-43 | a null date is JSON null, a present date a JSON string |
| SessionController.DateTextReadsBack | src/main/java/com/example/gestionpaimentback/controller/SessionController.java:42-43 | a listed date's text parses back to the same date, whatever its year |
| SessionController.BaseFields | src/main/java/com/example/gestionpaimentback/controller/SessionController.java:35-45 | the id, the five strings and the two dates under exactly the eight base keys |
| SessionController.TrainerSummary | src/main/java/com/example/gestionpaimentback/controller/SessionController.java:48-53 | a trainer map has exactly the keys `id`, `firstName`, `lastName` and `email`, copied from the user |
| SessionController.TrainerSummaries | src/main/java/com/example/gestionpaimentback/controller/SessionController.java:47-54 | one summary per trainer, in the set's order |
| SessionController.SessionSummary | src/main/java/com/example/gestionpaimentback/controller/SessionController.java:35-62 | the id, five strings and two dates; with trainers, a `formateurs` list that is empty for a null set |
| SessionController.SessionSummaries | src/main/java/com/example/gestionpaimentback/controller/SessionController.java:34-65 | one summary per session, in order |
| SessionController.SummaryListsEveryTrainer | src/main/java/com/example/gestionpaimentback/controller/SessionController.java:46-62 | the `formateurs` list has exactly one summary per trainer of the session, none for a null set |
| SessionController.NoTrainersKey | src/main/java/com/example/gestionpaimentback/controller/SessionController.java:153-165 | the trainer's list entries carry no `formateurs` key |
| SessionController.StringField | src/main/java/com/example/gestionpaimentback/controller/SessionController.java:96-100 | `(String) get(key)` is null for an absent or null key, the text for a string, and a cast failure otherwise |
| SessionController.DateField | src/main/java/com/example/gestionpaimentback/controller/SessionController.java:101-102 | `LocalDate.parse((String) get(key))` gives a date iff the value is a string that parses |
| SessionController.ReadNewSession | src/main/java/com/example/gestionpaimentback/controller/SessionController.java:95-102 | the body is accepted iff each text field is absent, null or a string and both dates parse; the session then holds exactly those values |
| SessionController.OtherKeyUnread | src/main/java/com/example/gestionpaimentback/controller/SessionController.java:96-102 | reading one key ignores a write to any other key |
| SessionController.CreateIgnoresOtherKeys | src/main/java/com/example/gestionpaimentback/controller/SessionController.java:91-102 | a `formateurId`, or any key other than the seven fields, changes nothing in what is created |
| SessionController.CreatedDatesEchoed | src/main/java/com/example/gestionpaimentback/controller/SessionController.java:101-102 | a created session's dates are listed back as exactly the text the client sent iff that text wrote its year canonically |
| SessionController.SessionController.constructor | src/main/java/com/example/gestionpaimentback/controller/SessionController.java:20-21 | the controller over a given service |
| SessionController.SessionController.GetAllSessions | src/main/java/com/example/gestionpaimentback/controller/SessionController.java:25-74 | 200 with one summary (trainers included) per stored session, in order; 500 with a null body when the store throws |
| SessionController.SessionController.GetSessionById | src/main/java/com/example/gestionpaimentback/controller/SessionController.java:77-87 | 200 with the stored session, or 404 with a null body when the id is absent |
| SessionController.SessionController.CreateSession | src/main/java/com/example/gestionpaimentback/controller/SessionController.java:90-113 | 201 with a stored session that has no trainers; a cast or date-parse failure answers 500 and stores nothing |
| SessionController.SessionController.UpdateSession | src/main/java/com/example/gestionpaimentback/controller/SessionController.java:116-126 | 200 with the updated session, or 404 and no change |
| SessionController.SessionController.DeleteSession | src/main/java/com/example/gestionpaimentback/controller/SessionController.java:129-139 | 204 once removed, or 404 and no change |
| SessionController.SessionController.GetSessionsByFormateur | src/main/java/com/example/gestionpaimentback/controller/SessionController.java:143-172 | 200 with one summary, without trainers, per session of that trainer; 500 with a null body when the query throws |
| SessionController.SessionController.AffecterFormateur | src/main/java/com/example/gestionpaimentback/controller/SessionController.java:175-194 | 200 with the session after assignment; 400 and no change on a missing session, user or `formateurId` |
| SessionController.SessionController.RetirerFormateur | src/main/java/com/example/gestionpaimentback/controller/SessionController.java:197-215 | 200 after removal, or 400 and no change when the service refuses |
| SessionController.SessionController.IsFormateurInSession | src/main/java/com/example/gestionpaimentback/controller/SessionController.java:218-228 | 200 with the membership answer, or 500 with body `false` |
| AdminService.RoleQuery | src/main/java/com/example/gestionpaimentback/service/AdminService.java:33 | `findByRoles_Name(e)`: exactly the users holding role `e` |
| AdminService.FilterByRole | src/main/java/com/example/gestionpaimentback/service/AdminService.java:40-44 | the fallback filter keeps the same users as the role query, or throws at a user with null roles |
| AdminService.WithoutUser | src/main/java/com/example/gestionpaimentback/service/AdminService.java:91 | `deleteById`: the table minus that user, the rest in order |
| AdminService.WithoutUserKeepsDistinct | src/main/java/com/example/gestionpaimentback/service/AdminService.java:88-101 | deleting keeps the user ids distinct |
| AdminService.AdminService.constructor | src/main/java/com/example/gestionpaimentback/service/AdminService.java:16-17 | the service over a given user table |
| AdminService.AdminService.GetAllUsers | src/main/java/com/example/gestionpaimentback/service/AdminService.java:19-28 | the whole table, or `[]` when the repository fails |
| AdminService.AdminService.UsersWithRole | src/main/java/com/example/gestionpaimentback/service/AdminService.java:30-61 | the holders of the role, in table order, whichever query found them; `[]` on any exception |
| AdminService.AdminService.GetFormateurs | src/main/java/com/example/gestionpaimentback/service/AdminService.java:30-61 | exactly the `ROLE_FORMATEUR` holders in table order, or `[]` on error |
| AdminService.AdminService.GetCoordinateurs | src/main/java/com/example/gestionpaimentback/service/AdminService.java:63-86 | exactly the `ROLE_COORDINATEUR` holders in table order, or `[]` on error |
| AdminService.AdminService.DeleteUser | src/main/java/com/example/gestionpaimentback/service/AdminService.java:88-101 | removes a present id; an absent id fails with the wrapped "Utilisateur non trouvé" and changes nothing |
| AdminController.RoleNames | src/main/java/com/example/gestionpaimentback/controller/AdminController.java:67-69 | the enum names of the roles, one per role in order, or an exception for a role with a null name |
| AdminController.UserSummary | src/main/java/com/example/gestionpaimentback/controller/AdminController.java:59-75 | `id`, `firstName`, `lastName` and `email` copied from the user, with `roles` empty for null roles |
| AdminController.UserSummaries | src/main/java/com/example/gestionpaimentback/controller/AdminController.java:58-76 | one map per user, in the same order and number, or an exception |
| AdminController.FormateurSummaryNamesRole | src/main/java/com/example/gestionpaimentback/controller/AdminController.java:66-73 | a trainer's map lists `ROLE_FORMATEUR` among its roles |
| AdminController.AdminController.constructor | src/main/java/com/example/gestionpaimentback/controller/AdminController.java:22-24 | the controller over a given service |
| AdminController.AdminController.GetAllUsers | src/main/java/com/example/gestionpaimentback/controller/AdminController.java:25-28 | the service's list as it is |
| AdminController.AdminController.GetFormateurs | src/main/java/com/example/gestionpaimentback/controller/AdminController.java:31-88 | 200 with one map per trainer in the service's order, or 500 with a null body |
| AdminController.AdminController.GetCoordinateurs | src/main/java/com/example/gestionpaimentback/controller/AdminController.java:90-93 | the service's list as it is |
| AdminController.AdminController.DeleteUser | src/main/java/com/example/gestionpaimentback/controller/AdminController.java:95-99 | the success text only once the service deleted the user; the service's error propagates |
| Dates.ParseYear | src/main/java/com/example/gestionpaimentback/controller/SessionController.java:101-102 | the year field: four unsigned digits, more than four only after `+`, four to ten after `-` but no negative zero |
| Dates.ParseIso | src/main/java/com/example/gestionpaimentback/controller/SessionController.java:101-102 | a parsed text ends in `-MM-dd` and its year field reads as the date's year; a ten-character text has a year in 0..9999 |
| Dates.YearTextParses | src/main/java/com/example/gestionpaimentback/controller/SessionController.java:42-43 | every year a `LocalDate` holds prints as a canonical year field that reads back as that year |
| Dates.ParseOfToIso | src/main/java/com/example/gestionpaimentback/controller/SessionController.java:42-43 | formatting any date and parsing the text gives the date back |
| Dates.CanonicalYearPrinted | src/main/java/com/example/gestionpaimentback/controller/SessionController.java:101-102 | a canonical year field is exactly the text its year prints as |
| Dates.ToIsoOfParse | src/main/java/com/example/gestionpaimentback/controller/SessionController.java:101-102 | parsed text prints back as itself iff its year field is canonical |
| Dates.PaddedYearNotEchoed | src/main/java/com/example/gestionpaimentback/controller/SessionController.java:101-102 | `-00001-01-01` parses as year -1 but prints as `-0001-01-01` |
| Validators.ValidateEmail | gestionpaiment/app/types.ts:58-60 | true iff there is no whitespace, exactly one `@` with text before it, and after it a `.` with text on both sides |
| Validators.EmailPatternIsRule | gestionpaiment/app/types.ts:58-60 | the regular expression's three-run form is equivalent to that rule |
| Validators.MatchDigits | gestionpaiment/app/types.ts:62-68 | matching `^[0-9]{n}$` digit by digit succeeds iff the text is exactly `n` ASCII digits |
| Validators.ValidateCIN | gestionpaiment/app/types.ts:62-64 | true iff the text is 8 ASCII digits, by the digit rule |
| Validators.ValidateRIB | gestionpaiment/app/types.ts:66-68 | true iff the text is 20 ASCII digits, by the digit rule |
| Validators.ValidatePassword | gestionpaiment/app/types.ts:70-72 | true iff the UTF-16 length is at least 6; six characters always pass and fewer than three never do |
| Validators.EmptyFailsAll | gestionpaiment/app/types.ts:58-72 | the empty string fails all four validators |
| Validators.CinIsNeverRib | gestionpaiment/app/types.ts:62-68 | no string is both a valid CIN and a valid RIB |
| JsText.Utf16Length | gestionpaiment/app/types.ts:71 | `length` counts UTF-16 code units: at least the characters, at most twice as many |
| JsText.ReplaceFirst | gestionpaiment/app/admin/dashboard/page.tsx:348 | a string pattern replaces only its first occurrence; text without it is unchanged |
| JsText.ParseInt | gestionpaiment/app/components/features/sessions/SessionManager.tsx:192 | `parseInt(s)` is NaN for blank text, a number when the text starts with a nonzero digit, and never negative without a leading `-` |
| JsText.ParseIntOfDecimal | gestionpaiment/app/components/features/sessions/SessionManager.tsx:521-533 | `parseInt(String(n)) == n` for every integer, so an option's id value reads back as the id |
| JsonValues.Text | src/main/java/com/example/gestionpaimentback/controller/SessionController.java:37-41 | a null Java string becomes JSON null, any other its text |
| ApiClient.ErrorMessage | gestionpaiment/app/services/api.ts:21-30 | a non-2xx response's error message is the parsed body's truthy `error`, else its truthy `message`, else the raw text |
| ApiClient.FetchWithAuth | gestionpaiment/app/services/api.ts:8-41 | a network error or non-2xx response throws; 2xx answers null for empty text, the text when not declared JSON, else the parsed body or the text if it does not parse |
| ApiClient.ReadList | gestionpaiment/app/services/api.ts:113-132 | the list readers answer the array returned, and `[]` for anything else or any error; they never throw |
| ApiClient.IsFormateurInSession | gestionpaiment/app/services/api.ts:180-188 | true iff the answer is `true` or `'true'`; false on any error |
| ApiClient.CheckAuth | gestionpaiment/app/services/api.ts:74-82 | the answer as it is, or `{authenticated: false}` on any error |
| ApiClient.WriteVoid | gestionpaiment/app/services/api.ts:234-245 | the writers throw exactly when the call throws, with the same message |
| ApiClient.ClientSeesServerStatus | gestionpaiment/app/services/api.ts:21-40 | the client throws exactly on a non-2xx status, and a 2xx JSON body arrives as the value the server sent |
| ApiClient.CheckAnswerReachesClient | gestionpaiment/app/services/api.ts:180-188 | the check endpoint's 200/500 answers reach the caller as exactly the boolean the server sent |
| ApiClient.TrainerSessionsPath | gestionpaiment/app/services/api.ts:220-222 | the path `getSessionsByFormateur` fetches; a numeric id reads back from its last segment |
| ApiClient.TrainerPathNamesTrainer | gestionpaiment/app/services/api.ts:220-222 | two different trainer ids are fetched at two different paths |
| ApiClient.ListReachesClient | gestionpaiment/app/services/api.ts:154-163 | a list reader answers the array the server sent, and `[]` when the server failed |
| SessionManager.ReadRows | gestionpaiment/app/components/features/sessions/SessionManager.tsx:49-58 | the list read, or the TypeError of the first null row the logging pass reads |
| SessionManager.SessionsLoaded | gestionpaiment/app/components/features/sessions/SessionManager.tsx:45-67 | `loadSessions` sets the rows read and clears the error, or sets no rows and the load error; `loading` ends false; nothing else changes |
| SessionManager.FormateursLoaded | gestionpaiment/app/components/features/sessions/SessionManager.tsx:70-109 | the trainers read, or none; `formateursLoaded` becomes true whether the load succeeds or fails |
| SessionManager.Shown | gestionpaiment/app/components/features/sessions/SessionManager.tsx:35-43 | nothing while hidden; once visible, the sessions reload and the trainers load unless already loaded |
| SessionManager.Thrown | gestionpaiment/app/components/features/sessions/SessionManager.tsx:123-126 | the message of an awaited call, iff it threw |
| SessionManager.Completed | gestionpaiment/app/components/features/sessions/SessionManager.tsx:116-126 | a thrown write shows its prefix and message and keeps the list; a completed one shows the success text and reloads |
| SessionManager.AssignDone | gestionpaiment/app/components/features/sessions/SessionManager.tsx:111-127 | a failed assignment sets "Erreur: " and its message with the list unchanged; success sets its banner and reloads |
| SessionManager.RemoveDone | gestionpaiment/app/components/features/sessions/SessionManager.tsx:130-144 | the same for trainer removal |
| SessionManager.DateCheck | gestionpaiment/app/components/features/sessions/SessionManager.tsx:167-182 | a start before today's midnight gives the start message; else an end not after the start gives the end message; an Invalid Date passes both |
| SessionManager.SubmittedTrainer | gestionpaiment/app/components/features/sessions/SessionManager.tsx:192 | absent iff the field is falsy; otherwise the parsed integer, or null for NaN |
| SessionManager.SubmitBody | gestionpaiment/app/components/features/sessions/SessionManager.tsx:184-193 | the body holds exactly the defined fields among the seven form fields and the trainer id |
| SessionManager.SubmitRequest | gestionpaiment/app/components/features/sessions/SessionManager.tsx:174-203 | no call iff a date check fails; else an update of the edited session, or a create when none is edited |
| SessionManager.Endpoint | gestionpaiment/app/services/api.ts:173-239 | the method and path each call uses: create, update, delete, assign and remove name the session (and the removed trainer) in the path; no call has none |
| SessionManager.DeletePathNamesSession | gestionpaiment/app/services/api.ts:211-215 | deleting two different sessions calls two different paths |
| SessionManager.FormReset | gestionpaiment/app/components/features/sessions/SessionManager.tsx:146-159 | every field '', no session being edited, the form closed, nothing else changed |
| SessionManager.Submitted | gestionpaiment/app/components/features/sessions/SessionManager.tsx:162-211 | a failed check sets only its message; a thrown call sets only the error; a completed one sets its banner, resets the form and reloads |
| SessionManager.HasEntries | gestionpaiment/app/components/features/sessions/SessionManager.tsx:224 | only a truthy value has entries; an array has them iff it is non-empty |
| SessionManager.FirstTrainerId | gestionpaiment/app/components/features/sessions/SessionManager.tsx:224-226 | the first entry's `id`; a null first entry throws |
| SessionManager.EditForm | gestionpaiment/app/components/features/sessions/SessionManager.tsx:224-237 | the row's seven fields, with `formateurId` the first trainer's id, or '' when there is none |
| SessionManager.Edited | gestionpaiment/app/components/features/sessions/SessionManager.tsx:214-239 | the row becomes the edited session; unless reading its trainer throws, the form is filled from it and opened |
| SessionManager.DeleteDone | gestionpaiment/app/components/features/sessions/SessionManager.tsx:241-252 | nothing without confirmation; otherwise the success banner and a reload, or the deletion error with the list unchanged |
| SessionManager.SelectedTrainer | gestionpaiment/app/components/features/sessions/SessionManager.tsx:520-526 | the selection assigns iff `parseInt` gives a nonzero number, and then exactly that number |
| SessionManager.SessionManager.constructor | gestionpaiment/app/components/features/sessions/SessionManager.tsx:13-32 | the initial state: no rows, empty form, nothing loaded |
| SessionManager.SessionManager.LoadSessions | gestionpaiment/app/components/features/sessions/SessionManager.tsx:45-67 | moves the state exactly as `SessionsLoaded` |
| SessionManager.SessionManager.LoadFormateurs | gestionpaiment/app/components/features/sessions/SessionManager.tsx:70-109 | moves the state exactly as `FormateursLoaded` |
| SessionManager.SessionManager.OnVisible | gestionpaiment/app/components/features/sessions/SessionManager.tsx:35-43 | moves the state exactly as `Shown` |
| SessionManager.SessionManager.HandleAffecterFormateur | gestionpaiment/app/components/features/sessions/SessionManager.tsx:111-127 | asks to assign exactly the given trainer to the given session, and moves the state as `AssignDone` |
| SessionManager.SessionManager.HandleRetirerFormateur | gestionpaiment/app/components/features/sessions/SessionManager.tsx:130-144 | asks to remove exactly the given trainer from the given session, and moves the state as `RemoveDone` |
| SessionManager.SessionManager.ResetForm | gestionpaiment/app/components/features/sessions/SessionManager.tsx:146-159 | moves the state exactly as `FormReset` |
| SessionManager.SessionManager.HandleSubmit | gestionpaiment/app/components/features/sessions/SessionManager.tsx:162-211 | makes exactly the call `SubmitRequest` names and moves the state as `Submitted` |
| SessionManager.SessionManager.HandleEdit | gestionpaiment/app/components/features/sessions/SessionManager.tsx:214-239 | on a component whose rows are non-null, moves the state exactly as `Edited` |
| SessionManager.SessionManager.HandleDelete | gestionpaiment/app/components/features/sessions/SessionManager.tsx:241-252 | asks to delete exactly the given session iff confirmed, and moves the state as `DeleteDone` |
| SessionManager.SessionManager.SelectTrainer | gestionpaiment/app/components/features/sessions/SessionManager.tsx:519-527 | asks to assign the trainer `SelectedTrainer` reads to that row's session, and makes no call otherwise |
| SessionManager.SessionManager.ExpireSuccess | gestionpaiment/app/components/features/sessions/SessionManager.tsx:122 | the timer clears the success banner and nothing else |
| SessionManager.HandlersKeepRowsNonNull | gestionpaiment/app/components/features/sessions/SessionManager.tsx:45-252 | every handler keeps the loaded rows free of null, which the logging pass needs |
| SessionManager.ShowsSelector | gestionpaiment/app/components/features/sessions/SessionManager.tsx:495-518 | a row without a `formateurs` key or with an empty list shows the selector; a row that lists trainers holds a truthy value there |
| SessionManager.SelectorOnlyForUnassigned | gestionpaiment/app/components/features/sessions/SessionManager.tsx:495-538 | a row the server built shows the selector iff the session has no trainer |
| SessionManager.OptionSelectsTrainer | gestionpaiment/app/components/features/sessions/SessionManager.tsx:521-533 | picking trainer `id`'s option (nonzero) assigns exactly `id`; the placeholder assigns nothing |
| SessionManager.EditThenSubmitKeepsTrainer | gestionpaiment/app/components/features/sessions/SessionManager.tsx:192-237 | editing a server row and submitting valid dates updates that session and sends its first trainer's id |
| SessionManager.EditedSummaryForm | gestionpaiment/app/components/features/sessions/SessionManager.tsx:214-237 | editing a server row with a trainer edits that session and fills the form with the first trainer's id |
| SessionManager.TrainerFieldSent | gestionpaiment/app/components/features/sessions/SessionManager.tsx:192 | a nonzero trainer id in the form is sent as that number |
| SessionManager.SubmittedFormIsCreated | gestionpaiment/app/components/features/sessions/SessionManager.tsx:184-201 | a typed form with parseable dates is accepted by the create endpoint with exactly those values |
| SessionManager.PickedTrainerIgnoredOnCreate | gestionpaiment/app/components/features/sessions/SessionManager.tsx:192-201 | the trainer picked in the form plays no part in what the create endpoint stores |
| SessionManager.TrainerKeyUnread | src/main/java/com/example/gestionpaimentback/controller/SessionController.java:95-102 | dropping `formateurId` from a create body changes nothing the endpoint reads |
| SessionManager.BlankTrainerBody | gestionpaiment/app/components/features/sessions/SessionManager.tsx:192 | clearing the trainer field only drops `formateurId` from the body |
| SessionManager.ServerListIsShown | gestionpaiment/app/components/features/sessions/SessionManager.tsx:45-67 | the session list the server answers is exactly the list the screen holds |
| SessionFormateurView.CeilDiv | gestionpaiment/app/components/features/sessions/SessionFormateur.tsx:176 | `Math.ceil(a / d)`: the least `q` with `a <= q * d` |
| SessionFormateurView.DurationDays | gestionpaiment/app/components/features/sessions/SessionFormateur.tsx:176 | the duration is the ceiling of (end − start) / 86 400 000 ms, and NaN when a date is invalid |
| SessionFormateurView.WholeDays | gestionpaiment/app/components/features/sessions/SessionFormateur.tsx:176 | a session ending exactly `k` days after it starts lasts `k` days |
| SessionFormateurView.PartialDayCountsWhole | gestionpaiment/app/components/features/sessions/SessionFormateur.tsx:176 | one millisecond past `k` whole days counts as `k + 1` days |
| SessionFormateurView.SummaryCount | gestionpaiment/app/components/features/sessions/SessionFormateur.tsx:192-203 | the summary is shown iff there is a session, with their number |
| SessionFormateurView.SessionFormateur.constructor | gestionpaiment/app/components/features/sessions/SessionFormateur.tsx:27-30 | no sessions, not loading, no error |
| SessionFormateurView.SessionFormateur.LoadMesSessions | gestionpaiment/app/components/features/sessions/SessionFormateur.tsx:50-76 | no user: `[]` and no call; otherwise fetches the sessions of the user's `id`, then holds the list read (`[]` for a non-array or error), no error, `loading` false |
| SessionFormateurView.SessionFormateur.OnChange | gestionpaiment/app/components/features/sessions/SessionFormateur.tsx:35-47 | fetches the signed-in user's sessions iff visible with a user; otherwise resets the sessions to `[]` |
| SessionFormateurView.TrainerSeesOwnSessions | gestionpaiment/app/components/features/sessions/SessionFormateur.tsx:57-67 | the trainer the server reads from the fetched path is the signed-in user; that user sees one entry per session the store holds for them, each assigned to them, and the summary counts them |
| Dashboard.IsFormateur | gestionpaiment/app/admin/dashboard/page.tsx:70-72 | only a non-empty role list passes; holding `ROLE_FORMATEUR` passes |
| Dashboard.IsCoordinateur | gestionpaiment/app/admin/dashboard/page.tsx:74-76 | only a non-empty role list passes; holding `ROLE_COORDINATEUR` or `ROLE_ADMIN` passes |
| Dashboard.IsAdministrateur | gestionpaiment/app/admin/dashboard/page.tsx:78-80 | only a non-empty role list passes; holding `ROLE_ADMIN` passes |
| Dashboard.AdminIsCoordinator | gestionpaiment/app/admin/dashboard/page.tsx:74-80 | every administrator is also a coordinator |
| Dashboard.DisplayRole | gestionpaiment/app/admin/dashboard/page.tsx:173-178 | Administrateur > Coordinateur > Formateur > Utilisateur, each label iff its test holds and no higher one does |
| Dashboard.RoleColor | gestionpaiment/app/admin/dashboard/page.tsx:181-186 | each colour iff the matching display role is shown |
| Dashboard.IncludesAt | gestionpaiment/app/admin/dashboard/page.tsx:70-80 | a text occurring at some position is included |
| Dashboard.BackendRoleNamesRecognised | gestionpaiment/app/admin/dashboard/page.tsx:70-80 | the back end's role names pass the substring tests meant for them, and an admin is shown as Administrateur |
| Dashboard.RoleBadge | gestionpaiment/app/admin/dashboard/page.tsx:348 | the role with its first "ROLE_" removed, and unchanged when it has none |
| Dashboard.BadgeStripsPrefix | gestionpaiment/app/admin/dashboard/page.tsx:685 | `ROLE_x` is shown as `x` |
| Dashboard.FonctionnalitesFor | gestionpaiment/app/admin/dashboard/page.tsx:104-121 | `{}` for a non-coordinator; for a coordinator, a fetched non-null object, else the five defaults |
| Dashboard.SomeCoordinatorRole | gestionpaiment/app/admin/dashboard/page.tsx:104-106 | on string and array entries, whether some entry passes the coordinator test (an array by exact element); true only then; it throws only at a null, number, boolean or object entry |
| Dashboard.ArrayRoleEntries | gestionpaiment/app/admin/dashboard/page.tsx:104-106 | an array entry holding "ADMIN" counts, one holding only "ROLE_ADMIN" does not; the search stops at the first coordinator role and throws at a number before one |
| Dashboard.ProfileIsCoordinator | gestionpaiment/app/admin/dashboard/page.tsx:104-106 | a null profile throws; absent or null roles are falsy; an array is searched |
| Dashboard.ProfileTestAgreesWithUserTest | gestionpaiment/app/admin/dashboard/page.tsx:74-106 | the profile's coordinator test agrees with the signed-in user's test on the same roles |
| Dashboard.ProfileStatus | gestionpaiment/app/admin/dashboard/page.tsx:699-701 | "100%" iff `cin`, `rib` and `bankName` are all truthy, else "En cours" |
| Dashboard.ValidProfileIsComplete | gestionpaiment/app/admin/dashboard/page.tsx:699-701 | a profile with a valid CIN, a valid RIB and a bank name shows "100%" |
| Dashboard.UserDataLoaded | gestionpaiment/app/admin/dashboard/page.tsx:97-131 | shows the profile and its features, raises the CIN and name flags; a failed profile call only sets the error; `loading` ends false |
| Dashboard.ProfileSaveDone | gestionpaiment/app/admin/dashboard/page.tsx:154-166 | success shows the submitted data, sets both flags, closes editing and shows the banner; failure sets only the error |
| Dashboard.DashboardPage.constructor | gestionpaiment/app/admin/dashboard/page.tsx:48-67 | the initial page state |
| Dashboard.DashboardPage.LoadUserData | gestionpaiment/app/admin/dashboard/page.tsx:97-131 | moves the state exactly as `UserDataLoaded`, keeping the features an object |
| Dashboard.DashboardPage.MarkModified | gestionpaiment/app/admin/dashboard/page.tsx:123-124 | raises the CIN flag for a truthy `cin` and the name flag for truthy first and last names; nothing else changes |
| Dashboard.DashboardPage.LoadMesSessions | gestionpaiment/app/admin/dashboard/page.tsx:87-144 | fetches the sessions of `authUser.id` iff a user is signed in and is a trainer, then holds the list read; nothing else changes |
| Dashboard.DashboardPage.HandleSaveProfile | gestionpaiment/app/admin/dashboard/page.tsx:154-166 | moves the state exactly as `ProfileSaveDone` |
| Dashboard.DashboardPage.ExpireSuccess | gestionpaiment/app/admin/dashboard/page.tsx:162 | the timer clears the success banner and nothing else |
| Dashboard.FlagsOnlyRise | gestionpaiment/app/admin/dashboard/page.tsx:123-124 | reloading the profile never lowers a "modified" flag |

## Left out

- HTTP transport is not modelled: `fetch`, cookies, headers and the base URL. A call takes the response it receives (ok flag, content type, text, and what `JSON.parse` makes of the text) or a network error as an input.
- Spring and JPA machinery is not modelled. Ids are generated by a counter. `User.equals` is not part of this model, so trainers are identified by id.
- Console and `System.out` logging is left out. The one exception is the session screen's logging pass over each loaded row: it reads a property of every row, so a null row makes it throw, and that is modelled.
- JSX markup, styling and icons are left out. The rendering rules kept are the trainer selector, the trainer's session summary and duration in days, the display role and its colour, the role badge and the profile status.
- `setTimeout` is an explicit `ExpireSuccess` call. `confirm()` is a boolean input.
- Overlapping async reloads and updates after unmount are concurrency, not logic, and are not modelled.
- JavaScript dates are integer milliseconds given as inputs, with `None` for an Invalid Date. Today's midnight is an input too, so the UTC-versus-local-midnight subtlety of `new Date("yyyy-MM-dd")` is not modelled.
- Numbers are unbounded integers. `parseInt`'s loss of precision above 2^53 and fractional numbers in JSON are not modelled.
- Dates.ParseIso: `LocalDate.parse` is modelled with its default `ISO_LOCAL_DATE` formatter only: strict, ASCII digits, `+`/`-` signs. Other formatters, lenient resolving and localised digits are not part of this model.
- AdminService.RoleQuery: the derived query has no ORDER BY, so the database may return the holders in any order. The model answers them in table order, and so do the rows above that say "in table order" (AdminService.AdminService.UsersWithRole, GetFormateurs, GetCoordinateurs).
- The order of a Java `HashSet` is unspecified. The trainer set keeps insertion order, and `findAll` and the trainer query list sessions by ascending id.
- SessionManager.HasEntries: JavaScript `length` on a parsed object with its own `length` key is not modelled. Only arrays and strings have entries.
- The messages of V8 `TypeError`s are modelled by their wording, as the error banner would show them.
- The client endpoints that no controller shown here maps (`/assign-formateur/{id}`, POST `/retirer`) are not modelled. Their wrappers are the general writer `WriteVoid`.
- The authentication, profile and login wrappers of the API client, the `useAuth` hook, `ProfileMenu` and `EditProfileForm` are not part of this model. The signed-in user and its roles are inputs.
- The dashboard's `checkAuth` redirect effect and the effect that closes the profile menu while editing are left out. They only navigate or toggle a menu that is not modelled.
- DTO classes and the `bankNames` constant are left out; the modelled logic does not use them.
- AdminService.AdminService.DeleteUser: the admin service and SessionService.SessionService.AssignerFormateur each hold their own copy of the user table. So a user deleted here can still be assigned to a session, and the `session_formateurs` join rows that name the user are kept. What the database does with those rows on such a delete is not part of this model.
- SessionService.SessionService.Save: requires a saved entity to be new or already stored. A detached entity with an unknown id is not modelled.
- SessionService.SessionService.CreateSession: requires the entity to have no id, as every caller in the code does.
- SessionEntity.Session.AddFormateur: requires a present trainer collection. A `null` collection set through `setFormateurs(null)` would throw; that case is not modelled.
- SessionEntity.Session.RemoveFormateur: requires a present trainer collection, for the same reason.
- SessionEntity.Session.ClearFormateurs: requires a present trainer collection, for the same reason.
- SessionEntity.Session.HasFormateur: requires a present trainer collection, for the same reason.
- JsText.ParseInt: its own contract gives only these coarse facts. The exact value is stated for decimal renderings of integers by JsText.ParseIntOfDecimal, and fractional or exponent text is not modelled.
- SessionFormateurView.SessionFormateur.LoadMesSessions: the catch block that sets an error is unreachable, because the list reader never throws, so the model has no error path.
- Dashboard.DashboardPage.LoadMesSessions: its catch block is unreachable for the same reason.
