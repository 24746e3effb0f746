# Bosphorus Fellas API — a verified model of the request logic

Bosphorus Fellas API is the back end of a car-enthusiast club. It is an
ASP.NET minimal API over a relational database. Admins and members log in
with an email and a password and get a JWT. People apply for membership,
and an admin approves or rejects each application. Approval creates an
active member with the temporary password "123456". Members edit their
own profile, list and join club events, and upload images. Admins create
events and switch members between active and passive. Every protected
handler first checks the `UserType` claim of the validated token, and the
listing handlers re-check that a member's row is still active.

The model covers the decision and state-changing code of the handlers in
`Program.cs`, and the configuration, claim set and acceptance rule of
`Services/JwtService.cs`. Each part is a module:

- `Base`: `Option` (C# `null`), and `FirstIndex`, the "first row whose
  key matches" lookup that every handler does with `FirstOrDefaultAsync`.
- `Decimal`: `int.ToString()` and `int.Parse` on 32-bit integers, with
  their round trip.
- `Models`: the rows of the five tables the core touches, and the
  lookups the handlers make on them.
- `Jwt`: the token service. A token is the decoded record of its claims
  and of `iss`, `aud` and `exp` (sections 4.1.1, 4.1.3 and 4.1.4 of
  RFC 7519). The HMAC-SHA256 signature is abstract: a token records the
  key it was signed with.
- `Credentials`: the login's password policy. bcrypt is a parameter
  `Crypto`, a hash and a verifier. The model relies only on `Sound`: a
  password verifies against its own hash, and every hash starts with `$2`.
- `Http`: the responses and their message texts.
- `Gates`: the role checks on the `UserType` and NameIdentifier claims,
  and the active-member re-check of the listings.
- `Login`, `Membership`, `Events`, `Profile`, `Upload`: each handler's
  guard chain as a pure function, the rows it creates, and the lemmas
  about them.
- `Store`: the class `Database`. Its fields are the five tables and the
  identity counters. Its methods are the handlers that write. Each method
  runs its guard, changes the tracked rows and saves them.
  - `saveOk` says whether `SaveChangesAsync` succeeds. When it does not,
    the tables are left as they were.
  - The event-listing sweep is the source's loop over the past active
    events.
- `Sessions`: properties that span handlers: approval followed by login,
  and deactivation followed by the listings.

Clock readings, the GUID of an upload, the storage service's answer and
the outcome of DataAnnotations validation (`dtoValid`) are parameters.

Token lifetime: the validation in `Services/JwtService.cs` sets the clock
skew to zero, and the token library rejects a token only when `exp` lies
strictly before the validation instant. So `Jwt.ValidateToken` accepts a
token at `now == exp` and rejects it from `exp + 1` on (`Jwt.NoClockSkew`).

## Model

| member | source | states |
|---|---|---|
| Base.FirstIndex | bosphorus_fellas_api/Program.cs:152-153 | the result is the first position whose row satisfies the key predicate, and None exactly when no row does |
| Decimal.NatToDecimal | bosphorus_fellas_api/Services/JwtService.cs:26 | the decimal form of a natural number is a non-empty digit string without a leading zero |
| Decimal.IntToDecimal | bosphorus_fellas_api/Services/JwtService.cs:26 | `userId.ToString()` is never empty |
| Decimal.ParseInt | bosphorus_fellas_api/Program.cs:1382 | a string that parses is non-empty (an optional '-' and at least one digit) |
| Decimal.ParseInt32 | bosphorus_fellas_api/Program.cs:1382 | `int.Parse` succeeds only with a value inside the 32-bit range, and then agrees with the unbounded parse |
| Decimal.NatRoundTrip | bosphorus_fellas_api/Services/JwtService.cs:26 | parsing the decimal form of a natural number gives the number back |
| Decimal.IntRoundTrip | bosphorus_fellas_api/Services/JwtService.cs:26 | parsing the decimal form of any integer gives it back |
| Decimal.Int32RoundTrip | bosphorus_fellas_api/Program.cs:1382 | the id claim written at token issue parses back to the same user id in a handler |
| Decimal.IntToDecimalInjective | bosphorus_fellas_api/Services/JwtService.cs:26 | distinct user ids give distinct NameIdentifier claims |
| Jwt.NewJwtService | bosphorus_fellas_api/Services/JwtService.cs:13-17 | construction fails exactly when the secret key is missing or the lifetime setting does not parse; otherwise the key is kept and the window is the parsed setting, "3600" when absent |
| Jwt.DefaultExpiry | bosphorus_fellas_api/Services/JwtService.cs:16 | without a lifetime setting the window is 3600 seconds |
| Jwt.FindClaim | bosphorus_fellas_api/Program.cs:1365-1366 | a claim lookup finds a value exactly when some claim of that type exists |
| Jwt.IssuedTokenClaims | bosphorus_fellas_api/Services/JwtService.cs:24-32 | each of the six claims reads back as issued: NameIdentifier the decimal id, Email, Name `ad + " " + soyad`, UserType, Ad, Soyad |
| Jwt.GenerateToken | bosphorus_fellas_api/Services/JwtService.cs:19-45 | the token expires one window after its issue instant, and with a positive window it is accepted at issue with exactly its claims |
| Jwt.ValidateToken | bosphorus_fellas_api/Services/JwtService.cs:47-73 | accepted exactly when a token is present, its signing key, issuer and audience match and `now <= exp`; an accepted token yields exactly its own claims, and every other case yields None |
| Jwt.GetExpiryTime | bosphorus_fellas_api/Services/JwtService.cs:75-78 | the result is the call instant plus the window |
| Jwt.IssuedTokenLifetime | bosphorus_fellas_api/Services/JwtService.cs:37 | an issued token is accepted exactly until its issue instant plus the window, inclusive |
| Jwt.NoClockSkew | bosphorus_fellas_api/Services/JwtService.cs:62-63 | a matching token is accepted at `exp` and rejected one instant later |
| Jwt.ForeignTokenRejected | bosphorus_fellas_api/Services/JwtService.cs:56-61 | a token with another issuer, audience or signing key is rejected at every instant |
| Credentials.Authenticate | bosphorus_fellas_api/Program.cs:152-281 | the admin outcome exactly when the admin row the lookup finds verifies, and then that row; otherwise a member outcome exactly when the member row the lookup finds verifies, and then that row, refused when it is inactive; upgrade exactly for a plaintext match; generic failure exactly when neither row verifies |
| Credentials.AdminPrecedence | bosphorus_fellas_api/Program.cs:152-209 | a verified admin gets the admin outcome whatever the member table holds |
| Credentials.AdminMismatchFallsThrough | bosphorus_fellas_api/Program.cs:157-211 | an admin row that does not verify is as good as no admin row |
| Credentials.LaterMemberRowIgnored | bosphorus_fellas_api/Program.cs:213-214 | once a member row has the email, a later row with the same email never changes the outcome |
| Credentials.UpgradeOnlyFromPlaintext | bosphorus_fellas_api/Program.cs:163-176 | only a non-`$2` stored secret equal to the input is marked for rewriting |
| Credentials.UpgradeKeepsPassword | bosphorus_fellas_api/Program.cs:183-195 | the rewritten secret verifies the same password by hash and is not rewritten again |
| Credentials.SecondAdminLogin | bosphorus_fellas_api/Program.cs:163-195 | after the upgrade the same admin login verifies against the same row, now by hash with no further upgrade |
| Credentials.SecondMemberLogin | bosphorus_fellas_api/Program.cs:224-263 | the same for a member row |
| Credentials.PasswordMatches | bosphorus_fellas_api/Program.cs:163-176 | no contract of its own; characterised by `Credentials.UpgradeKeepsPassword` and `Credentials.Authenticate` |
| Credentials.NeedsUpgrade | bosphorus_fellas_api/Program.cs:163-176 | no contract of its own; characterised by `Credentials.UpgradeOnlyFromPlaintext` |
| Jwt.ClaimSet | bosphorus_fellas_api/Services/JwtService.cs:24-32 | no contract of its own; characterised by `Jwt.IssuedTokenClaims` |
| Gates.AdminOnly | bosphorus_fellas_api/Program.cs:674-678 | no contract of its own; characterised by `Gates.AdminGateExact` |
| Gates.AdminWithId | bosphorus_fellas_api/Program.cs:1498-1506 | no contract of its own; characterised by `Gates.RolesDisjoint` and `Gates.EitherRoleIsUnion` |
| Gates.MemberOnly | bosphorus_fellas_api/Program.cs:1365-1371 | no contract of its own; characterised by `Gates.MemberGateExact` |
| Gates.EitherRole | bosphorus_fellas_api/Program.cs:1696-1701 | no contract of its own; characterised by `Gates.EitherRoleIsUnion` |
| Gates.EitherRoleWithId | bosphorus_fellas_api/Program.cs:1569-1577 | no contract of its own; characterised by `Gates.EitherRoleIsUnion` |
| Gates.AnyUser | bosphorus_fellas_api/Program.cs:550-554 | no contract of its own; characterised by `Upload.CheckUpload` |
| Gates.ActiveMemberCheck | bosphorus_fellas_api/Program.cs:1228-1237 | no contract of its own; characterised by `Gates.MemberListingNeedsActiveRow` |
| Gates.ContentGate | bosphorus_fellas_api/Program.cs:1220-1237 | no contract of its own; characterised by `Gates.ListingUnauthorizedExact`, `Gates.AdminsNotRechecked` and `Gates.MemberListingNeedsActiveRow` |
| Gates.EventListGate | bosphorus_fellas_api/Program.cs:1302-1320 | no contract of its own; characterised by the same three lemmas |
| Gates.AdminGateExact | bosphorus_fellas_api/Program.cs:674-678 | the admin gate admits exactly `"admin"` and answers every other caller, with or without the claim, with Forbid |
| Gates.MemberGateExact | bosphorus_fellas_api/Program.cs:1365-1371 | the member gate admits exactly `"uye"` with a non-empty id claim; every other caller gets Forbid |
| Gates.RolesDisjoint | bosphorus_fellas_api/Program.cs:1365-1371 | no caller passes both the admin and the member gate |
| Gates.EitherRoleIsUnion | bosphorus_fellas_api/Program.cs:1569-1577 | the either-role gates admit exactly the union of the two roles |
| Gates.ListingUnauthorizedExact | bosphorus_fellas_api/Program.cs:1220-1226 | a listing answers Unauthorized exactly when the user type or the id claim is missing or empty |
| Gates.AdminsNotRechecked | bosphorus_fellas_api/Program.cs:1228-1237 | an admin with both claims passes the sponsor and news listings whatever the member table holds, and the event listing when the id claim parses |
| Gates.MemberListingNeedsActiveRow | bosphorus_fellas_api/Program.cs:1228-1237 | a member passes a listing exactly when the first member row with its id exists and is active, and otherwise gets Forbid; the event listing agrees with the sponsor and news listings |
| Upload.ToLower | bosphorus_fellas_api/Program.cs:580 | lower-casing keeps the length and maps each character by itself |
| Upload.GetExtension | bosphorus_fellas_api/Program.cs:593 | the extension is empty, or a suffix of the name that starts with '.' and holds no other '.' and no '/' |
| Upload.ExtensionAfterLastDot | bosphorus_fellas_api/Program.cs:593 | the extension of `stem.ext` is `.ext`, whatever the stem holds |
| Upload.CheckUpload | bosphorus_fellas_api/Program.cs:550-608 | proceeds exactly for a caller with a user type, a non-empty file of at most 5 MiB, a lower-cased type in the five-type allow list and a folder in the four-folder allow list; then the name is GUID plus extension and the path is `folder/name` |
| Upload.UploadFile | bosphorus_fellas_api/Program.cs:548-623 | success exactly when the checks pass and storage answers, with the URL, the generated name and path, and the size; a refusal of the checks is the response; a storage failure is the problem response carrying the exception's message |
| Upload.ContentTypeCaseInsensitive | bosphorus_fellas_api/Program.cs:579-583 | a content type and its lower-case form are treated alike |
| Upload.SizeBoundary | bosphorus_fellas_api/Program.cs:573-576 | exactly 5 MiB is accepted and one byte more is refused with the size message |
| Upload.MissingFolderFirst | bosphorus_fellas_api/Program.cs:563-571 | an empty folder name is reported before the size is checked |
| Membership.NewApplication | bosphorus_fellas_api/Program.cs:459-484 | the new application records every form field (`FormOf` gives the form back), its id, its instant, and the pending state |
| Membership.SubmitGuard | bosphorus_fellas_api/Program.cs:437-456 | a submission proceeds exactly when the form validates and no application has its email; otherwise the validation errors or the duplicate message |
| Membership.SubmitKeepsEmailsUnique | bosphorus_fellas_api/Program.cs:450-484 | accepted submissions keep application emails unique |
| Membership.ResubmissionRefused | bosphorus_fellas_api/Program.cs:450-456 | a second submission with the same email is refused, whatever became of the first |
| Membership.Outcome | bosphorus_fellas_api/Program.cs:796 | approval gives `onaylandı` and rejection `reddedildi`, never the pending state |
| Membership.DecideGuard | bosphorus_fellas_api/Program.cs:757-789 | a decision proceeds exactly for an admin, a valid form, karar `onayla` or `reddet`, an existing application and a pending state; approval exactly for `onayla`; a missing id gives NotFound |
| Membership.Decided | bosphorus_fellas_api/Program.cs:796-839 | only the decided row changes, only in its state, which becomes `onaylandı` on approval and `reddedildi` on rejection |
| Membership.DecisionIsFinal | bosphorus_fellas_api/Program.cs:786-789 | once decided, every further decision on the id is refused as already processed |
| Membership.DecidedOnlyMovesPending | bosphorus_fellas_api/Program.cs:796-839 | only the pending row changes, and only its state, which becomes `onaylandı` exactly on approval and otherwise `reddedildi` |
| Membership.MemberFromApplication | bosphorus_fellas_api/Program.cs:799-823 | the new member is active, takes the given id, instant and secret, and copies every personal, contact, vehicle, emergency, notification and photo field and both consents from the application |
| Membership.ApprovedMemberHasTemporaryPassword | bosphorus_fellas_api/Program.cs:822 | the new member's secret is a hash that accepts "123456" and needs no upgrade |
| Membership.StatusGuard | bosphorus_fellas_api/Program.cs:897-919 | a status change proceeds exactly for an admin, a valid form and an existing member; a missing one gives NotFound |
| Membership.StatusUpdateIdempotent | bosphorus_fellas_api/Program.cs:913-924 | repeating the same status change finds the same row and changes nothing more |
| Events.NewEvent | bosphorus_fellas_api/Program.cs:1148-1157 | the new event records the form (`EventFormOf` gives it back), is active and has no PDF |
| Events.CreateGuard | bosphorus_fellas_api/Program.cs:1127-1146 | creation proceeds exactly for an admin, a valid form and a time not before now; a past time gets the date message |
| Events.Expired | bosphorus_fellas_api/Program.cs:1324-1331 | the sweep changes only the active flag, which stays set exactly when it was set and the time is not past |
| Events.Swept | bosphorus_fellas_api/Program.cs:1321-1336 | the swept table has the same length and each row is that row swept |
| Events.SweptLeavesNoPastActive | bosphorus_fellas_api/Program.cs:1324-1331 | after the sweep no past event is active, and an event is active exactly when it was and is not past |
| Events.SweptOnlyDeactivates | bosphorus_fellas_api/Program.cs:1328-1331 | the sweep only changes active flags, and events not yet past are untouched |
| Events.SweptIdempotent | bosphorus_fellas_api/Program.cs:1321-1336 | a second sweep at the same instant changes nothing |
| Events.SweptChangesIffPastActive | bosphorus_fellas_api/Program.cs:1333-1336 | the sweep changes the table exactly when some past event is active, which is when the handler saves |
| Events.SweptMonotone | bosphorus_fellas_api/Program.cs:1321-1336 | a sweep at a later instant covers an earlier one |
| Events.SweptKeepsLookup | bosphorus_fellas_api/Program.cs:1388 | after the sweep every event id finds the same row |
| Events.NewEventSurvivesSweep | bosphorus_fellas_api/Program.cs:1143-1157 | an event created at `now` is not deactivated by a sweep at `now` |
| Events.JoinGuard | bosphorus_fellas_api/Program.cs:1365-1417 | a join proceeds exactly for a member with a parsable id, a valid form, an existing active event not yet past, no existing row for the pair, and an existing member row whose flag is not read; each failing check, in source order, gets its own response: Forbidden, validation errors, an unhandled error for an unparsable id, event not found, inactive, past, already joined, member not found |
| Events.NewAttendance | bosphorus_fellas_api/Program.cs:1421-1426 | the new row pairs the event with the member, with the given id and instant |
| Events.LeaveGuard | bosphorus_fellas_api/Program.cs:1446-1476 | a leave proceeds exactly for a member with a parsable id, an existing event not yet past and an existing row for the pair, which it returns; each failing check, in source order, gets its own response: Forbidden, an unhandled error for an unparsable id, event not found, past, not joined |
| Events.RemoveAt | bosphorus_fellas_api/Program.cs:1480 | removing one row keeps every other row in order |
| Events.JoinKeepsPairsUnique | bosphorus_fellas_api/Program.cs:1409-1429 | accepted joins keep (event, member) pairs unique |
| Events.LeaveRemovesPair | bosphorus_fellas_api/Program.cs:1468-1481 | with unique pairs, a leave removes the member's only row for the event, and the pairs stay unique |
| Events.SecondJoinRefused | bosphorus_fellas_api/Program.cs:1409-1417 | joining the same event twice gives the already-joined message |
| Events.JoinThenLeave | bosphorus_fellas_api/Program.cs:1421-1480 | joining and then leaving at the same instant is allowed and gives back the attendance table as it was |
| Events.JoinIgnoresMemberStatus | bosphorus_fellas_api/Program.cs:1412-1417 | a join's outcome does not depend on the member's active flag |
| Events.LeaveIgnoresEventStatus | bosphorus_fellas_api/Program.cs:1457-1476 | a leave's outcome does not depend on the event's active flag |
| Profile.Merge | bosphorus_fellas_api/Program.cs:406-420 | each text field takes the supplied value when it is non-empty and keeps its stored value otherwise; experience and the notification flag take a supplied value; id, name, email, secret, active flag, creation instant, birth date and consents are never touched |
| Profile.NoChangesIsIdentity | bosphorus_fellas_api/Program.cs:406-420 | an update that supplies nothing changes nothing |
| Profile.MergeIdempotent | bosphorus_fellas_api/Program.cs:406-420 | applying the same update twice is applying it once |
| Profile.MergeThen | bosphorus_fellas_api/Program.cs:406-420 | two updates in a row are one combined update in which the later supplied value wins field by field |
| Profile.EmptyStringKeeps | bosphorus_fellas_api/Program.cs:406-417 | an empty string counts as absent, so a stored value cannot be cleared |
| Profile.ProfileGuard | bosphorus_fellas_api/Program.cs:372-401 | an update proceeds exactly for a member with a parsable id, a valid form and an existing active row, which it returns; otherwise, in source order: Forbidden, validation errors, an unhandled error for an unparsable id, member not found, Forbidden for an inactive row |
| Profile.ProfileUpdateKeepsAccess | bosphorus_fellas_api/Program.cs:389-420 | after an update the same row is found again and is still active |
| Login.LoginResponse | bosphorus_fellas_api/Program.cs:135-281 | a token exactly for a verified admin or active member when the lifetime is positive, with the user type, id, names and email of that row and a token carrying that row's claims and valid at issue; the problem response for a non-positive lifetime; the generic message exactly when neither verifies; the inactive message for a verified inactive member; `ExpiresAt` from `GetExpiryTime` |
| Login.UpgradedAdmins | bosphorus_fellas_api/Program.cs:183-195 | on a saved upgrade the verified admin row's secret becomes the hash of the password, and every other row, and every row otherwise, is kept |
| Login.UpgradedMembers | bosphorus_fellas_api/Program.cs:250-262 | the same for the verified member row |
| Login.PlaintextRewrittenToHash | bosphorus_fellas_api/Program.cs:183-195 | after a saved login with a plaintext secret, the row that verified stores a `$2` hash that accepts the same password and the other table is kept; without a save or an upgrade both tables are kept |
| Login.AdminTokenGrantsAdmin | bosphorus_fellas_api/Program.cs:197-208 | an admin's token passes the admin gate and fails the member gate until its expiry, and is refused after it |
| Login.MemberTokenGrantsMember | bosphorus_fellas_api/Program.cs:265-276 | a member's token passes the member gate, fails the admin gate and carries an id that parses back to the id of the member row that verified, until its expiry, and is refused after it |
| Login.ExpiresAtFromSeparateClock | bosphorus_fellas_api/Program.cs:207 | `ExpiresAt` differs from the token's `exp` by exactly the time between the two clock readings |
| Login.UpgradeInvisible | bosphorus_fellas_api/Program.cs:183-195 | after a saved upgrade the same credentials get the same response |
| Login.NoAccountProbing | bosphorus_fellas_api/Program.cs:280-281 | whenever no row verifies, unknown email or wrong password, the answer is the one generic message |
| Login.InactiveNotUpgraded | bosphorus_fellas_api/Program.cs:241-248 | an inactive member gets the inactive message, no token, and no rewrite of a plaintext secret |
| Store.Database.constructor | bosphorus_fellas_api/Data/ApplicationDbContext.cs:12-18 | the tables start empty except for the seeded admins, the counters start at 1, and the invariant holds; the seeding itself has no counterpart in the source |
| Store.Database.Login | bosphorus_fellas_api/Program.cs:135-291 | the response is `LoginResponse` of the tables as found, so a failed save of the upgrade does not change the outcome; the tables become the upgraded ones and nothing else changes |
| Store.Database.SubmitApplication | bosphorus_fellas_api/Program.cs:437-505 | a refusal or a failed save changes nothing; otherwise exactly one pending application with a fresh id is appended and the invariant holds |
| Store.Database.DecideApplication | bosphorus_fellas_api/Program.cs:755-856 | a refusal or a failed save changes nothing; approval sets the final state and appends one active member with the hashed temporary password and advances the member counter by one; rejection adds no member and keeps the counter |
| Store.Database.SetMemberStatus | bosphorus_fellas_api/Program.cs:895-940 | a refusal or a failed save changes nothing; otherwise only the found member's flag is set |
| Store.Database.UpdateProfile | bosphorus_fellas_api/Program.cs:370-430 | a refusal or a failed save changes nothing; otherwise only the found member's row becomes the merged row |
| Store.Database.CreateEvent | bosphorus_fellas_api/Program.cs:1125-1169 | a refusal or a failed save changes nothing; otherwise exactly one active event with a fresh id is appended |
| Store.Database.ListEvents | bosphorus_fellas_api/Program.cs:1300-1356 | after the gate the event table is the swept table; a failed save when something was swept is an unhandled error and changes nothing |
| Store.Database.JoinEvent | bosphorus_fellas_api/Program.cs:1363-1437 | a refusal or a failed save changes nothing; otherwise exactly one row for the pair is appended and pairs stay unique |
| Store.Database.LeaveEvent | bosphorus_fellas_api/Program.cs:1444-1489 | a refusal or a failed save changes nothing; otherwise exactly the found row is removed and the member no longer attends the event |
| Sessions.ApprovedApplicantLogsIn | bosphorus_fellas_api/Program.cs:799-834 | an approved applicant whose email no member has yet can log in with "123456" as that new member, without an upgrade |
| Sessions.ApprovalShadowedByExistingMember | bosphorus_fellas_api/Program.cs:799-827 | approval does not check for an existing member with the same email; the login lookup keeps finding the older row |
| Sessions.DeactivationLocksOut | bosphorus_fellas_api/Program.cs:913-924 | after an admin sets a member passive, that member's token is refused by both listings and by the profile update, while joining is unaffected |
| Sessions.ReactivationReadmits | bosphorus_fellas_api/Program.cs:913-924 | setting the flag back to active readmits the member to the listings |

## Left out

- Hosting, Swagger, CORS, ports and the health endpoint: configuration and I/O.
- bcrypt: hashing with a random salt, and `Verify` throwing on a malformed `$2` hash. Both are a library call. `Crypto` stands for them and `Sound` is all the model assumes.
- HMAC-SHA256 signing, the compact serialisation and the `nbf`/`iat` claims the token library adds. A signing key that is too short makes the library throw; that is not modelled.
- `Jwt.GenerateToken`: it does not itself model the library's exception for a zero or negative window. `Login.LoginResponse` answers with the problem response in that case.
- `Login.LoginResponse`: the problem response's detail is the handler's fixed prefix only. The library's exception message that follows it is not modelled.
- `int.Parse` is modelled on an optional '-' and decimal digits. Leading and trailing white space, a '+' sign and culture-specific forms are not.
- `Upload.ToLower` lower-cases ASCII letters only. It does not model culture-sensitive lower-casing.
- `Credentials.IsBcryptHash` is a plain prefix test. It does not model culture-sensitive `StartsWith`.
- `Upload.GetExtension` treats '/' as the only directory separator, as on Unix.
- Reading the multipart form, copying the file and the storage service (`Services/SupabaseStorageService.cs`): I/O. The storage answer, a URL or an exception message, is a parameter. An exception while reading or copying the file gets the same problem response and is represented by a storage failure.
- The read-only listings and details: profile GET, application status GET, admin lists and details, landing page, participant list. They are LINQ projections and orderings; `Store.Database.ListEvents` returns `EventsListed` instead of the projected list. Their role gates (`Gates.EitherRole`, `Gates.AdminWithId`, `Gates.EitherRoleWithId`) are modelled.
- Sponsor and news creation and editing, event editing and file deletion: admin CRUD outside the named core. Their gates are the ones in `Gates`.
- The `/api/hash-password` test endpoint: a bcrypt pass-through.
- Logging, and exceptions from the database outside `SaveChangesAsync`, such as a failed query. In the login these end in the catch-all 500.
- Success message texts. The model keeps the fields of each success body.
- Concurrency: the check-then-insert races on duplicate emails and on joins. Each handler is run as one atomic step.
- EF change tracking: a failed save is modelled as leaving the tables unchanged, and ids are assigned by counters that only a successful save advances.
- Id overflow: the identity columns are 32-bit `int` in the source and can overflow there. The model's counters are unbounded, so the model has no such overflow. `Login.MemberTokenGrantsMember` assumes an id in the 32-bit range for this reason.
- Each handler reads the clock once, with three exceptions. The login reads it in `GenerateToken` and in `GetExpiryTime` (Services/JwtService.cs:37 and 77). The event creation reads it for the date check and for `CreatedAt` (Program.cs:1143 and 1156). The join reads it for the past-event check and for `CreatedAt` (Program.cs:1398 and 1425). The model keeps the login's two readings apart and uses one instant for each of the other two pairs.
