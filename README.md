# Access scoping of the plataforma-back recruiting backend, in Dafny

plataforma-back is a REST backend for a recruiting hierarchy:
- directors manage coaches;
- coaches manage recruiters, linked through the `coach_recruiter` pivot table;
- recruiters manage candidates;
- candidates carry jobs, logs and notes.

A coach can let one of its recruiters reach a candidate of another of its recruiters. It does this by issuing a permission row for one sub-resource type ('Jobs', 'Logs' or 'Notes').

This project models the controllers and the route gates that decide who may read or change which rows. The store is an in-memory relational database. `Database.Db` is a class with one field per table. Each table an action writes is a map from id to row plus an auto-increment counter (`Records.Table`). The permission_types table is a plain map of reference rows. Each controller action is a method:
- it checks scope;
- it then inserts, merges or deletes rows;
- it answers a `Http.Response(status, message, body)`.

Every state-changing action states the following:
- the exact response in every branch, with the source's own message strings;
- the exact new rows of the table it writes;
- `Snapshot()` equality for all other tables, so nothing else changes.

Candidate resolution for notes and logs works like this:
1. It tries ownership first.
2. Only if that fails, it looks for a grant matching (recruiter, permission type, candidate) exactly.

This is the pure function `Access.ResolveCandidate`. The step-by-step lookup the controllers run is the method `Access.LookupCandidate`, which is proved equal to it. The lemmas in `Access` state what grants do and do not give:
- ownership wins;
- the issuing coach is irrelevant;
- a new grant works at once;
- a grant of another type changes nothing;
- revoking the only grant ends access.

The module `Scenarios` calls the controllers in sequence on a fresh store, and the postconditions pin every answer:
- a coach shares a candidate's notes;
- logs and jobs stay closed;
- only the issuing coach can revoke;
- after revocation the note is refused;
- a coach writes a note through the delegating gate.

Inputs the program gets from outside become parameters:
- `authRecruiter` and `authCoach` are the authenticated user's recruiter and coach rows, `None` when the user has none;
- `roleName` is the user's role name;
- `attachFails` and `deleteFails` stand for a persistence failure of the second write of a transaction.

Where the code departs from what the role hierarchy suggests, the model follows the code:
- JobController takes `recruiter_id` and `candidate_id` from the request body and reaches a candidate by ownership only. A 'Jobs' permission therefore never opens a job to another recruiter. The gate's delegation fields are ignored there. `Scenarios.JobsGrantStillRefused` shows the 404 after a 'Jobs' grant.
- RecruiterController.store creates the recruiter row and the pivot row but no user row.
- LogController has no coach-delegation branch. A coach that passes the gate on a log route gets the answer its own user's recruiter (normally none) would get.
- PermissionController.destroy reads `coach.id` inside its guarded block. A user without a coach row therefore gets the 500 answer, not a crash.
- The Notes and Logs `show`, `update` and `destroy` also dereference the recruiter inside their guarded blocks. Without an acting recruiter they answer 500 with their own message.
- The route table exposes only `index` and `show` of DirectorController. `update` and `destroy` are modelled as the controller defines them.

## Model

| member | source | states |
|---|---|---|
| Access.OwnedCandidate | app/Controllers/Http/NoteController.js:111 | the recruiter's candidate query finds the candidate exactly when it exists and its recruiter_id is the recruiter's |
| Access.FindCandidate | app/Controllers/Http/NoteController.js:122 | lookup by id finds the candidate exactly when it exists |
| Access.ResolveCandidate | app/Controllers/Http/NoteController.js:109-125 | a candidate resolves iff there is an acting recruiter, the candidate exists, and the recruiter owns it or holds a grant matching recruiter, type and candidate exactly; what resolves is that candidate |
| Access.LookupCandidate | app/Controllers/Http/NoteController.js:111-125 | the stepwise ownership-then-grant-then-find lookup returns exactly what `ResolveCandidate` returns |
| Access.TypeIdOf | app/Controllers/Http/NoteController.js:104 | `findBy('table_name', …)` returns the one permission type row with that name |
| Access.EntriesOf | app/Controllers/Http/NoteController.js:77 | a candidate's notes, logs or jobs are exactly the rows whose candidate_id is its id, with their stored values |
| Access.RecruitersOf | app/Controllers/Http/RecruiterController.js:35 | a coach's recruiters are exactly the existing recruiters linked to it by a pivot row |
| Access.Detach | app/Controllers/Http/RecruiterController.js:231 | detach keeps exactly the pivot rows other than (coach, recruiter), unchanged |
| Access.DirectOwnershipComesFirst | app/Controllers/Http/NoteController.js:113-126 | an owner reaches its candidate whatever the permissions table holds |
| Access.GrantIgnoresCoach | app/Controllers/Http/NoteController.js:116-118 | the grant lookup gives the same answer for permission tables that differ only in coach_id |
| Access.IssuedGrantResolves | app/Controllers/Http/NoteController.js:116-123 | once a grant row is added, its recruiter resolves its candidate for its type |
| Access.OtherTypeGrantChangesNothing | app/Controllers/Http/LogController.js:92-94 | adding a grant of another permission type leaves resolution for this type unchanged |
| Access.RevokingOnlyGrantEndsAccess | app/Controllers/Http/PermissionController.js:106-109 | deleting a non-owner's only matching grant makes the candidate unresolvable for it |
| Access.DetachEndsOnlyThatAssignment | app/Controllers/Http/RecruiterController.js:231 | after a detach the pair is no longer assigned and every other (coach, recruiter) pair keeps its assignment status |
| Access.DetachFromLastCoachLeavesNoRow | app/Controllers/Http/RecruiterController.js:231-232 | detaching a recruiter from its only coach leaves no pivot row naming it |
| RecruiterAuth.Handle | app/Middleware/RecruiterAuth.js:12-24 | the request passes iff the role is "Recruiter"; otherwise exactly the 403 answer with the fixed message; no request field is touched |
| CoachAuth.Handle | app/Middleware/CoachAuth.js:12-24 | the request passes iff the role is "Coach"; otherwise exactly the 403 answer with the fixed message |
| RecruiterAuthVariant.Decide | app/Middleware/RecruiterAuthVariant.js:25-52 | a recruiter passes as itself; a coach is delegated iff the candidate exists, its owner exists and is assigned to the coach, and the delegate is that owner; everyone else is denied, including a coach without a coach row whose candidate or owner is missing |
| RecruiterAuthVariant.WidensRecruiterGateByAssignedCoaches | app/Middleware/RecruiterAuthVariant.js:25-61 | the users the recruiter gate passes are exactly those passed as themselves; any other user let through is one the coach gate passes, delegated to the owner of the candidate, a recruiter assigned to that coach; all others are denied |
| RecruiterAuthVariant.DelegateOwnsCandidate | app/Middleware/RecruiterAuthVariant.js:36-50 | the delegated recruiter owns the route's candidate |
| RecruiterAuthVariant.Handle | app/Middleware/RecruiterAuthVariant.js:19-62 | exactly one of next and the 403 answer; on delegation the request carries `middleware_coach` and the owner's id, otherwise the request is unchanged |
| NoteController.GetRecruiter | app/Controllers/Http/NoteController.js:25-40 | with the delegation flag set, the gate's recruiter if it still exists; otherwise the authenticated user's recruiter |
| NoteController.Index | app/Controllers/Http/NoteController.js:51-90 | all notes of the resolved candidate, or the empty list when nothing resolves |
| NoteController.Store | app/Controllers/Http/NoteController.js:100-158 | 404 with its message and no insert when the recruiter is missing or the candidate does not resolve; otherwise one new note with the acting recruiter's id under a fresh id, and 201 |
| NoteController.Show | app/Controllers/Http/NoteController.js:169-220 | the note only when it belongs to the resolved candidate; distinct 404s for an unresolved candidate and a missing note; 500 when there is no acting recruiter |
| NoteController.Update | app/Controllers/Http/NoteController.js:230-287 | only the title and description of a note under the resolved candidate change; otherwise 404 (500 without an acting recruiter) and no change |
| NoteController.Destroy | app/Controllers/Http/NoteController.js:297-352 | exactly the matched note under the resolved candidate is deleted; otherwise 404 (500 without an acting recruiter) and no deletion |
| LogController.Index | app/Controllers/Http/LogController.js:25-64 | all logs of the candidate resolved for the authenticated user's recruiter, or the empty list |
| LogController.Store | app/Controllers/Http/LogController.js:74-132 | 404 and no insert without a recruiter or a resolved candidate; otherwise one new log with the user's recruiter id, and 201 |
| LogController.Show | app/Controllers/Http/LogController.js:143-194 | the log only when it is among the resolved candidate's logs; distinct 404s for an unresolved candidate and a missing log; 500 without a recruiter |
| LogController.Update | app/Controllers/Http/LogController.js:204-261 | only title and description of the matched log change; otherwise 404 (500 without a recruiter) and the table is unchanged |
| LogController.Destroy | app/Controllers/Http/LogController.js:271-326 | only the matched log is deleted; otherwise 404 (500 without a recruiter) and the table is unchanged |
| JobController.Index | app/Controllers/Http/JobController.js:23-49 | the candidate's jobs iff the body's recruiter exists and owns the candidate; otherwise the empty object |
| JobController.Store | app/Controllers/Http/JobController.js:59-105 | 404 and no insert for an unknown recruiter, then for a candidate it does not own; otherwise one new job with the body's recruiter id, and 201 |
| JobController.Show | app/Controllers/Http/JobController.js:116-154 | 404 unless a candidate matches both id and recruiter_id and the job is under it |
| JobController.Update | app/Controllers/Http/JobController.js:164-208 | only title and description of the matched job change |
| JobController.Destroy | app/Controllers/Http/JobController.js:218-259 | only the matched job is deleted; a job not under the candidate gives 404 |
| PermissionController.Store | app/Controllers/Http/PermissionController.js:22-85 | 201 iff the coach exists, both recruiters are assigned to it and the source recruiter owns the candidate; the first failing check in that order sets its 404 message and nothing is inserted; a success adds one new row with the caller's coach id even when an identical grant exists |
| PermissionController.Destroy | app/Controllers/Http/PermissionController.js:96-127 | a row is deleted only when its id and its coach_id match the caller's coach; exactly that row goes, all other grants stay; otherwise 404 (500 without a coach row) |
| PermissionController.IssuanceOpensOnlyItsTriple | app/Controllers/Http/PermissionController.js:33-60 | inserting an issued grant changes resolution only for its own (recruiter, type, candidate), which then resolves, and that candidate's owner is a recruiter of the issuing coach |
| RecruiterController.Index | app/Controllers/Http/RecruiterController.js:24-47 | exactly the recruiters assigned to the coach, or the empty object when the coach is missing |
| RecruiterController.Store | app/Controllers/Http/RecruiterController.js:57-97 | all or nothing: a missing coach or a failed pivot insert leaves every table unchanged with 500; otherwise one recruiter and one pivot row linking it to the coach, and 201 |
| RecruiterController.Show | app/Controllers/Http/RecruiterController.js:108-145 | 404 for a missing coach or a recruiter not assigned to it |
| RecruiterController.Update | app/Controllers/Http/RecruiterController.js:155-197 | only the name of a recruiter assigned to the coach changes |
| RecruiterController.Destroy | app/Controllers/Http/RecruiterController.js:207-251 | all or nothing: a missing coach, an unassigned recruiter or a failed delete gives 500 with every table unchanged; otherwise only this coach's pivot rows for the recruiter and the recruiter row go |
| RecruiterController.CreatedRecruiterIsAssigned | app/Controllers/Http/RecruiterController.js:73-81 | the recruiter created by `store` is assigned to its coach |
| CandidateController.CandidatesOf | app/Controllers/Http/CandidateController.js:28 | the recruiter_id filter keeps exactly the recruiter's candidates |
| CandidateController.Index | app/Controllers/Http/CandidateController.js:23-37 | exactly the candidates whose recruiter_id is the given one |
| CandidateController.Store | app/Controllers/Http/CandidateController.js:47-80 | 404 and no insert for an unknown recruiter; otherwise one new candidate with the given name and recruiter, and 201 |
| CandidateController.Show | app/Controllers/Http/CandidateController.js:91-118 | 404 unless a candidate matches both id and recruiter_id |
| CandidateController.Update | app/Controllers/Http/CandidateController.js:128-159 | only the name changes; recruiter_id and all other candidates stay |
| CandidateController.Destroy | app/Controllers/Http/CandidateController.js:169-199 | only an owned candidate is deleted; otherwise 404 and nothing is removed |
| CandidateController.CreatedCandidateListedForItsRecruiterOnly | app/Controllers/Http/CandidateController.js:58-62 | a new candidate is listed for its recruiter and leaves every other recruiter's list as it was |
| CoachController.CoachesOf | app/Controllers/Http/CoachController.js:27 | the director_id filter keeps exactly the director's coaches |
| CoachController.Index | app/Controllers/Http/CoachController.js:22-36 | exactly the coaches with the given director_id |
| CoachController.Store | app/Controllers/Http/CoachController.js:46-68 | one new coach with the given name and director_id, and 201, without a director lookup |
| CoachController.Show | app/Controllers/Http/CoachController.js:79-104 | always 200; the coach on an (id, director_id) match, else 'Coach not found' and no coach |
| CoachController.Update | app/Controllers/Http/CoachController.js:114-144 | 404 unless (id, director_id) match; on a match only the name changes |
| CoachController.Destroy | app/Controllers/Http/CoachController.js:154-182 | 404 unless (id, director_id) match; on a match only that coach is deleted |
| CoachController.DeletedCoachLeavesOnlyItsList | app/Controllers/Http/CoachController.js:161-169 | a deleted coach leaves its director's list and no other director's list changes |
| DirectorController.Index | app/Controllers/Http/DirectorController.js:22-32 | every director |
| DirectorController.Show | app/Controllers/Http/DirectorController.js:78-104 | 404 for an unknown id, else 200 with that director |
| DirectorController.Update | app/Controllers/Http/DirectorController.js:119-150 | only the name of an existing director changes; an unknown id gives 404 |
| DirectorController.Destroy | app/Controllers/Http/DirectorController.js:164-193 | only the director with that id is deleted; an unknown id gives 404 and no change |
| Scenarios.ShareNotes | app/Controllers/Http/PermissionController.js:22-85 | a coach with two recruiters grants one of them 'Notes' access to the other's candidate: 201 and the exact resulting tables |
| Scenarios.JobsGrantStillRefused | app/Controllers/Http/JobController.js:68-90 | after the coach grants recruiter 2 'Jobs' access to recruiter 1's candidate (201), recruiter 2's job on it is still refused (404) |
| Scenarios.GrantReachesNotesOnly | app/Controllers/Http/LogController.js:92-94 | the 'Notes' grantee can add a note (201) but not a log or a job (404) |
| Scenarios.RevocationIsImmediate | app/Controllers/Http/PermissionController.js:96-127 | another coach cannot revoke (404), the issuing coach can (200), and the grantee's next note is refused (404) |
| Scenarios.CoachWritesNoteForItsRecruiter | app/Middleware/RecruiterAuthVariant.js:44-50 | a coach passes the gate for its recruiter's candidate and the note is written under that recruiter; a coach without recruiters gets 403 |

## Left out

- Database and ORM mechanics are not modelled: queries, FK enforcement and cascades. A delete that referential constraints would block (a recruiter with candidates, a coach with pivot rows) is modelled as succeeding. Rolled-back auto-increment values are restored together with the rows.
- The relation methods the controllers call (`recruiter.candidates()`, `coach.recruiters()`, `candidate.notes()`) are modelled with the foreign-key meaning of the migrations. The model classes define differently named relations, so the calls would fail at run time.
- In the RecruiterController transactions only the second write carries a failure flag: `attachFails` in `store`, `deleteFails` in `destroy`. A failure of the first write (`Recruiter.create`, the detach) has the same outcome (rollback, 500, nothing changed), so it is covered by the same branch. Any other database failure (the 500 answers of the single-write actions, their error objects) is left out.
- NoteController and LogController actions require the 'Notes' or 'Logs' permission type row to exist. The source reads its id outside the guarded block, so a missing row crashes the request.
- RecruiterAuthVariant.Handle and RecruiterAuthVariant.Decide require a coach row for a "Coach" user only when the candidate and its recruiter both exist. Past those two checks the gate dereferences the coach row without a guard, so a missing row crashes the request.
- Access.TypeIdOf assumes the permission type names are distinct, as in the seed data; `Database.Db.Valid` carries that assumption. The schema does not enforce it, and with duplicate names the source takes whichever matching row the database returns first.
- UserController is not part of this model: login and registration are calls into the authentication library and hidden model hooks. The roles and the user's recruiter and coach rows are inputs.
- Request validators are not part of this model. They are declarative rules for an external library, so the title, description and name length bounds are not encoded.
- DirectorController.store is not modelled: it is not routed and not part of the scoped core.
- The hierarchy and share endpoints are not part of this model: they are named in the routes but have no implementation.
- The scope ids read from the request body are assumed present. These are `recruiter_id` and `candidate_id` in JobController, `recruiter_id` in CandidateController, `director_id` in CoachController and `coach_id` in RecruiterController; each is a plain `int` parameter. Nothing validates them. When one is missing, the source passes `undefined` to its guarded query, and the query builder's error gives the action's 500. CoachController.store has no query and inserts a coach with no director_id, which `Records.Coach` cannot represent.
- JSON shaping is not modelled: an absent record is `None` whether the source would send `{}` or `null`, and a collection is a map from id to row.
- Async scheduling and logging are not modelled. `next()` is modelled as the `Next` verdict; what the downstream handler does is not part of the gate.
- RecruiterController.Store: the counter of the recruiters table is restored on rollback, which some databases do not do (ids can have gaps).
