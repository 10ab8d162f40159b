# NeoSante backend core in Dafny

A model of the business core of the NeoSante pharmacy backend (a NestJS
service over MongoDB). It covers:

- the account flows of the auth service: registration, account verification,
  login with device recognition and OTP challenge, device verification, OTP
  re-sending, and password reset;
- the agent classifier that decides whether a login comes from a new, an
  untrusted or a trusted device;
- the user and agent documents, with their unique indexes as a store invariant;
- the validation rules of the auth request bodies (phone number, CIN number,
  OTP code, password confirmation);
- the bearer-token parsing of the HTTP guard;
- the pharmacy service: creation with its duplicate and five-per-owner rules,
  administrator approval, owner-only update with its merge rules, deletion
  with the list of image URLs whose keys are then deleted from storage, and the "open now" search filter;
- `isPharmacyOpen`, the schema defaults of a pharmacy and its helpers validator;
- the product service (creation with the name/barcode clash check, update with
  the stock timestamp rule, listing a pharmacist's products) and the product form;
- `getChangedProperties`, `toObjectId` and the S3 `getKeyFromUrl`.

## How the model is built

- Each database collection is a `map` from `ObjectId` to a document
  datatype. Each collection sits in a shared store class: `UserStore`,
  `PharmacyStore` or `ProductStore`.
- Every service flow is specified by a pure function on the collections.
  The function returns the flow's result (an `Ok` value or the `HttpError`
  the flow throws), the collections afterwards, and the e-mails sent.
- The service classes (`AuthService.AuthService`,
  `PharmacyService.PharmacyService`, `ProductService.ProductService`)
  implement each flow as a method that updates the stores. Each method is
  proved equal to its spec function on the old state. The messages sent go
  to a ghost `outbox`.
- Lemmas about the spec functions state:
  - what each flow promises;
  - the invariants it keeps. Users keep the unique e-mail, phone and CIN and
    canonical ids. Pharmacies keep at most five per owner and pass the helpers
    validator. Products keep a unique name and barcode within a pharmacy;
  - end-to-end scenarios. One is register, verify, log in, challenge, verify
    the device, then log in again without a challenge. Another is a reset link
    that resets the password.
- JavaScript values are modelled as follows:
  - a missing request field or header, and any falsy text, is `""`; the
    product form's `stock` is the exception, an option, because a missing
    stock is refused while an empty one converts to 0;
  - `Number(...)` of text is `JsNumber`, the digit-string part of `Number`:
    decimal digits give their value, `""` gives 0, and every other text is
    treated as NaN (`None`), although `Number` reads some of it (" 9", "9.5",
    "-1", "1e2") as a number;
  - the flows are modelled, and their lemmas proved, for every request body,
    that is for the service called directly; the bodies the routes' validation
    pipes let through are those of `RegisterDtoValid`, `LoginDtoValid`,
    `VerifyDeviceDtoValid`, `ResendOtpCodeDtoValid` and
    `ResetPasswordPasswordDtoValid`. The register and login pipes forbid
    undecorated properties, so over HTTP a register body has no `role_id` and
    a login body no `remember_me`;
  - an error that is not an `HttpException` (an invalid ObjectId, a property
    read on null, a duplicate key) is a 500 carrying the thrown error's own
    message; the global exception filter shows the client "Internal Server
    Error" for every one of them;
  - `split` and `join` are `Text.Split` and `Text.Join`;
  - the time is a parameter (`now`), and so are:
    - the OTP generator's draw;
    - the password hash function;
    - `jwt.verify` (claims or an error);
    - the ids the database assigns;
    - the answers of repository functions whose code is not part of this model.

## Model

| member | source | states |
|---|---|---|
| ObjectIds.ToObjectId | src/common/transformers/object.id.transformer.ts:3-8 | the conversion succeeds exactly for 24 hexadecimal digits, yields the canonical lower-case id, and otherwise fails with "Invalid ObjectId: " followed by the input |
| ObjectIds.CanonicalRoundTrip | src/common/transformers/object.id.transformer.ts:3-8 | the text of a stored id converts back to the same id |
| Text.Split | src/core/services/s3.service.ts:42 | `split` never yields an empty list and no piece contains the separator |
| Text.JoinSplit | src/core/services/s3.service.ts:42-53 | joining the pieces of a split gives back the original string |
| Text.SplitWithoutSeparator | src/modules/pharmacy/helpers/pharmacy.helper.ts:22-28 | text without the separator splits into itself alone |
| Text.SplitConcat | src/modules/pharmacy/helpers/pharmacy.helper.ts:22-28 | a separator between two texts splits exactly there |
| Text.SplitJoin | src/core/services/s3.service.ts:42-53 | splitting the join of separator-free pieces gives back the pieces |
| Text.SplitHead | src/core/guards/auth.guard.ts:12 | the first piece of a split is the text up to the first separator |
| Text.DecimalRoundTrip | src/modules/auth/services/otp.service.ts:5-7 | `Number` of a number's decimal text is that number |
| Text.DecimalLength | src/modules/auth/services/otp.service.ts:5-7 | a number between 10^k and 10^(k+1) is written with k+1 digits |
| Text.DecimalNoLeadingZero | src/modules/auth/services/otp.service.ts:5-7 | the decimal text of a positive number does not start with '0' |
| UserEntity.SameIdentitiesKeepInvariant | src/modules/user/entities/user.entity.ts:19-50 | replacing a user with a version that keeps its e-mail, phone and CIN, has only named agents and keeps the store's unique indexes and canonical ids |
| UserEntity.DistinctUserKeepsInvariant | src/modules/user/entities/user.entity.ts:27-42 | adding a user under a fresh canonical id whose identities nobody shares keeps the invariant |
| UserEntity.UserIdWithEmail | src/modules/user/entities/user.entity.ts:27 | `findUserByEmail` returns a stored user with that e-mail |
| UserEntity.EmailFindsUser | src/modules/user/entities/user.entity.ts:27 | under the unique e-mail index, a user's own e-mail finds exactly that user |
| AgentService.FindAgent | src/modules/auth/services/agent.service.ts:12 | `find` returns the first agent with the name, or none when no agent carries it |
| AgentService.FirstMatchUnique | src/modules/auth/services/agent.service.ts:12 | the first match is unique |
| AgentService.CheckUserAgent | src/modules/auth/services/agent.service.ts:7-22 | NEW_AGENT iff no agent has the name; NOT_VERIFIED_AGENT iff the first match is not current; VERIFIED_AGENT iff the first match is current |
| AgentService.LaterDuplicatesIgnored | src/modules/auth/services/agent.service.ts:12-21 | agents appended after a matching agent do not change the classification |
| AgentService.AppendedDeviceFollowsItsFlag | src/modules/auth/services/agent.service.ts:12-21 | after a new device is appended, it classifies as verified exactly when its flag was true |
| AgentService.MarkingFirstMatchVerifies | src/modules/auth/services/agent.service.ts:17-21 | setting `isCurrent` on the first match makes the device verified |
| AuthDtos.PhoneNumberLengths | src/modules/auth/DTOs/register/register.dto.ts:24-29 | a number matching the pattern has 10 or 13 characters, and its first national digit is 5, 6 or 7 |
| AuthDtos.PhoneNumberValidIffPattern | src/modules/auth/DTOs/register/register.dto.ts:24-29 | the phone field is valid exactly when it matches the pattern; the length bounds add nothing |
| AuthDtos.BothPhonePrefixesAccepted | src/modules/auth/DTOs/register/register.dto.ts:28 | every national number is accepted both with "0" and with "+212" in front |
| AuthDtos.CinNumberLengths | src/modules/auth/DTOs/register/register.dto.ts:35-38 | a CIN number has 7 to 9 characters, starting with two capitals and ending with a digit |
| AuthDtos.IssuedOtpPassesValidator | src/modules/auth/DTOs/verify-device/verify-device.dto.ts:4-8 | every code the generator issues is six digits and passes the OTP rules |
| AuthDtos.IssuedCodeBodyValid | src/modules/auth/DTOs/verify-device/verify-device.dto.ts:3-12 | `VerifyDeviceDtoValid` accepts a body carrying an issued code exactly when `rememberMe` is present |
| AuthDtos.LeadingZeroCodeNeverIssued | src/modules/auth/services/otp.service.ts:5-7 | a well-formed code starting with '0' is never one the generator issued |
| AuthDtos.ResetPasswordBodyValid | src/modules/auth/DTOs/reset-password/reset-password-password.dto.ts:9-21 | `ResetPasswordPasswordDtoValid` holds exactly when the password is valid and the confirmation repeats it (so `ConfirmPasswordError`, the mismatch message, is absent) |
| AuthGuard.BearerToken | src/core/guards/auth.guard.ts:10-13 | a missing or empty header is "Token not provided"; a non-empty header not starting with "Bearer " is "Invalid authorization format"; a "Bearer " header is never refused for its format; an accepted token is non-empty and has no space |
| AuthGuard.Authenticate | src/core/guards/auth.guard.ts:8-22 | a header refusal is passed on; a token `jwt.verify` rejects is "Invalid token"; a verified token yields its claims; every refusal is 401 Unauthorized |
| AuthGuard.TokenIsWordAfterPrefix | src/core/guards/auth.guard.ts:11-13 | after "Bearer ", the token is the text up to the next space, and an empty one counts as missing |
| AuthGuard.BearerTokenAccepts | src/core/guards/auth.guard.ts:10-13 | a header is accepted exactly when it is "Bearer " followed by a non-empty word, which is then the token |
| AuthGuard.BearerRoundTrip | src/core/guards/auth.guard.ts:11-13 | the header built from a space-free token gives back that token |
| AuthGuard.EmptyTokenIsMissing | src/core/guards/auth.guard.ts:12-13 | "Bearer " alone and "Bearer " followed by a space both read as a missing token |
| AuthGuard.CanActivate | src/core/guards/auth.guard.ts:8-22 | returns true and stores the claims on the request, or throws the guard's error and leaves the request unchanged |
| AuthService.RegisterOutcome | src/modules/auth/services/auth.service.ts:41-67 | `RegisterSpec`: registration either conflicts and changes nothing, or stores exactly one new user: the body's first and last name, e-mail, phone number, city and CIN, the hashed password and the 'User' role, unverified and without agents (`NewUser`), and mails one verification link naming that user |
| AuthService.RegisterIgnoresRoleId | src/modules/auth/services/auth.service.ts:49-53 | the role id in the body never reaches the stored user |
| AuthService.RegisterKeepsInvariant | src/modules/auth/services/auth.service.ts:41-67 | registration keeps e-mail, phone and CIN unique |
| AuthService.VerifyAccountOutcome | src/modules/auth/services/auth.service.ts:69-79 | `VerifyAccountSpec`: a missing token is 400; a token `jwt.verify` rejects gives its error; an id naming no user is 404 "User Not Found"; in every failure nothing changes; otherwise only `verifiedAt` of the user the token names is stamped with `now` |
| AuthService.VerifyAccountKeepsInvariant | src/modules/auth/services/auth.service.ts:69-79 | account verification keeps the store invariant |
| AuthService.LoginCredentialFailuresAlike | src/modules/auth/services/auth.service.ts:82-87 | an unknown e-mail and a wrong password give the same "Invalid credentials" error and change nothing |
| AuthService.UnverifiedLoginResendsLink | src/modules/auth/services/auth.service.ts:88-97 | a correct login to an unverified account re-sends the verification link without an OTP and changes nothing |
| AuthService.VerifiedLoginByDevice | src/modules/auth/services/auth.service.ts:98-111 | `LoginSpec` on a verified account: a trusted device gets a session token; a new device is recorded and challenged; a known untrusted device is challenged without a new record |
| AuthService.RouteLoginRecordsNewDeviceUntrusted | src/modules/auth/auth.controller.ts:80-99 | a body the login route accepts (`LoginDtoValid`, so no `remember_me`) records a new device untrusted and challenges it |
| AuthService.LoginKeepsInvariant | src/modules/auth/services/auth.service.ts:81-128 | login keeps the store invariant |
| AuthService.WrongOtpRejected | src/modules/auth/services/auth.service.ts:141-142 | a code different from the challenge's is refused and nothing changes |
| AuthService.VerifyDeviceOutcome | src/modules/auth/services/auth.service.ts:140-153 | `VerifyDeviceSpec` with the right code: without rememberMe nothing changes; with it, the user's agent list becomes the old one with only the first matching agent set current, or the flow fails when no agent matches |
| AuthService.VerifyDeviceKeepsInvariant | src/modules/auth/services/auth.service.ts:140-153 | device verification keeps the store invariant |
| AuthService.ResendOtpOutcome | src/modules/auth/services/auth.service.ts:159-174 | `ResendOtpSpec`: re-sending mails a fresh code to an existing user, answers 404 otherwise, and changes nothing |
| AuthService.ResetRequestOutcome | src/modules/auth/services/auth.service.ts:176-188 | `ResetRequestSpec` changes nothing; an unregistered e-mail is 404 "User doesn't exist" with nothing mailed; a registered one mails exactly one reset link to that address, whose token carries the user id and the identifier "password-reset-" + id |
| AuthService.ResetIdentifierInjective | src/modules/auth/services/auth.service.ts:181-194 | the reset identifier names one user only |
| AuthService.ResetPasswordOutcome | src/modules/auth/services/auth.service.ts:190-200 | `ResetPasswordSpec` mails nothing; an id that does not convert fails with its message; an unknown user is 404 "User doesn't exist" before the identifier is looked at; a foreign identifier is 400 "Invalid token"; otherwise only that user's password changes, to the hash of the new one |
| AuthService.ForeignResetTokenRejected | src/modules/auth/services/auth.service.ts:194 | a reset token whose identifier names another user is refused and the password stays |
| AuthService.ResetPasswordKeepsInvariant | src/modules/auth/services/auth.service.ts:190-200 | password reset keeps the store invariant |
| AuthService.FreshAccountMustVerifyFirst | src/modules/auth/services/auth.service.ts:41-97 | a freshly registered account cannot log in before verification; it gets the link again |
| AuthService.FirstLoginAfterVerificationChallenges | src/modules/auth/services/auth.service.ts:41-128 | after registration and verification, the first login challenges the new device |
| AuthService.UntrustedDeviceChallengedAgain | src/modules/auth/services/auth.service.ts:98-103 | without remember_me, a second login from a known device is challenged again and no duplicate agent is recorded |
| AuthService.ChallengeRecordsDevice | src/modules/auth/services/auth.service.ts:114-128 | `SendOtpSpec`: a challenge records the device (`AgentRecord`, stamped with `now`) and puts the code and the user id in the token |
| AuthService.RememberedDeviceSkipsChallenge | src/modules/auth/services/auth.service.ts:140-153 | after device verification with rememberMe, the next login from that device gets a session token directly |
| AuthService.LoginRememberMeTrustsNewDevice | src/modules/auth/services/auth.service.ts:101-120 | remember_me at login records the new device as trusted, so the next login skips the OTP |
| AuthService.ResetLinkResetsPassword | src/modules/auth/services/auth.service.ts:176-200 | the link from a reset request resets that user's password, and the new password then passes the credential check |
| AuthService.AuthService.HandleRegistration | src/modules/auth/services/auth.service.ts:41-67 | the store and the outbox become what `RegisterSpec` gives on the old state; the invariant is kept |
| AuthService.AuthService.VerifyAccount | src/modules/auth/services/auth.service.ts:69-79 | the store becomes what `VerifyAccountSpec` gives; the invariant is kept |
| AuthService.AuthService.HandleLogin | src/modules/auth/services/auth.service.ts:81-112 | the store and the outbox become what `LoginSpec` gives; the invariant is kept |
| AuthService.AuthService.SendOtpAndGenerateToken | src/modules/auth/services/auth.service.ts:114-128 | the device is appended only for a non-empty user agent; the response is the challenge of `SendOtpSpec` |
| AuthService.AuthService.HandleVerifyingDevice | src/modules/auth/services/auth.service.ts:140-153 | the store becomes what `VerifyDeviceSpec` gives |
| AuthService.AuthService.HandleResendOtpCode | src/modules/auth/services/auth.service.ts:159-174 | the result and the outbox are those of `ResendOtpSpec`; the store is unchanged |
| AuthService.AuthService.HandleResetRequest | src/modules/auth/services/auth.service.ts:176-188 | the result and the outbox are those of `ResetRequestSpec`; the store is unchanged |
| AuthService.AuthService.HandleResetPasswordToken | src/modules/auth/services/auth.service.ts:190-200 | the store becomes what `ResetPasswordSpec` gives |
| ObjectUtil.GetChangedProperties | src/core/utils/object.util.ts:1-9 | the loop yields `ChangedProperties`: exactly the update keys whose value is defined and differs from the existing one, each with the update's value |
| ObjectUtil.EmptyUpdatesNoChanges | src/core/utils/object.util.ts:1-9 | no updates give no changes |
| ObjectUtil.ApplyingChangesSettles | src/core/utils/object.util.ts:1-9 | once the changes are written, the same updates change nothing more |
| ObjectUtil.ApplyingChangesIsApplyingUpdates | src/core/utils/object.util.ts:1-9 | writing only the changes gives the same object as writing every defined update |
| S3Service.GetKeyFromUrl | src/core/services/s3.service.ts:37-58 | the key (`KeyFromUrl`) is the pathname (`UrlPathname`) without the leading '/' and without a leading bucket segment, or null for a URL that does not parse |
| S3Service.PathnameStartsWithSlash | src/core/services/s3.service.ts:41-45 | a parsed pathname starts with '/', so the first shift removes an empty part |
| S3Service.PathnameSplit | src/core/services/s3.service.ts:42-45 | splitting "/" + rest gives an empty part, then the parts of rest |
| S3Service.JoinAfterShifts | src/core/services/s3.service.ts:45-53 | joining after the shifts gives `KeyOfPath` of the rest |
| S3Service.JoinAfterDroppingSegment | src/core/services/s3.service.ts:48-53 | shifting a first part equal to the bucket drops exactly that segment |
| S3Service.SegmentFirst | src/core/services/s3.service.ts:48 | a path that is the bucket name, or starts with it and a '/', has it as its first part |
| S3Service.UploadUrlRoundTrip | src/core/services/s3.service.ts:30-58 | the key of the URL the upload returns is the uploaded key, when the key uses only characters the URL parser leaves unchanged, has no "." or ".." segment, plain or with a percent-encoded dot, and does not start with the bucket segment |
| S3Service.PathnameOfUrl | src/core/services/s3.service.ts:41 | the pathname of "https://host/key" is "/key" |
| PharmacyEntity.DefaultWorkingHoursEveryDay | src/modules/pharmacy/entities/pharmacy.schema.ts:104-116 | the default hours cover exactly the seven days, each 09:00 to 18:00 |
| PharmacyEntity.HelperEmails | src/modules/pharmacy/entities/pharmacy.schema.ts:93 | the helper e-mails in order, one per helper |
| PharmacyEntity.DistinctCount | src/modules/pharmacy/entities/pharmacy.schema.ts:94 | a list has at most as many distinct elements as entries, and exactly as many iff no entry repeats |
| PharmacyEntity.HelpersValidIffDistinct | src/modules/pharmacy/entities/pharmacy.schema.ts:88-99 | `HelpersValid`, the helpers validator, accepts exactly the lists with pairwise distinct e-mails |
| PharmacyEntity.SharedEmailRefused | src/modules/pharmacy/entities/pharmacy.schema.ts:88-99 | two helpers with one e-mail are refused |
| PharmacyHelper.TwoDigits | src/modules/pharmacy/entities/pharmacy.schema.ts:104-116 | two-digit "HH" text is two digits |
| PharmacyHelper.DayNamesInOrder | src/modules/pharmacy/helpers/pharmacy.helper.ts:12-13 | day 0 is sunday, through day 6, saturday |
| PharmacyHelper.TwoDigitsValue | src/modules/pharmacy/helpers/pharmacy.helper.ts:22-28 | `Number` of the two-digit text is the number |
| PharmacyHelper.ClockTextMinutes | src/modules/pharmacy/helpers/pharmacy.helper.ts:22-28 | `TimeOfDay` of "HH:MM" is H*60+M minutes |
| PharmacyHelper.OpenWithinWindow | src/modules/pharmacy/helpers/pharmacy.helper.ts:6-32 | with "HH:MM" hours, `IsPharmacyOpen` holds exactly from the opening minute to the closing minute, both included |
| PharmacyHelper.MissingHoursClosed | src/modules/pharmacy/helpers/pharmacy.helper.ts:15-19 | a missing day, or one without an opening or closing time, is closed |
| PharmacyHelper.HourWithoutMinutesUnparsed | src/modules/pharmacy/helpers/pharmacy.helper.ts:22-28 | `TimeOfDay` of a time without ':' is NaN |
| PharmacyHelper.OvernightNeverOpen | src/modules/pharmacy/helpers/pharmacy.helper.ts:30-31 | a window that closes before it opens is never open |
| PharmacyHelper.DefaultHoursOpen | src/modules/pharmacy/helpers/pharmacy.helper.ts:6-32 | with the default hours, a pharmacy is open exactly from minute 540 to minute 1080, every day |
| PharmacyService.CreateOutcome | src/modules/pharmacy/pharmacy.service.ts:38-84 | `CreateSpec` refuses in the source's order: a match (verified or pending), five owned pharmacies, an unverified account, then a create that returns nothing (409 "Failed to create Pharmacy."); refusals store and mail nothing; otherwise it adds the new pending pharmacy and mails the administrator |
| PharmacyService.OwnPendingUnreachable | src/modules/pharmacy/pharmacy.service.ts:49-60 | the third refusal can never be given |
| PharmacyService.NewPharmacyDefaults | src/modules/pharmacy/pharmacy.repository.ts:40-67 | a new pharmacy has the form's name, image, city, street and certifications (one for one, in order), no coordinates, is pending, has no helpers, is off weekend duty, and is open 09:00 to 18:00 unless the form gives hours, which it then takes |
| PharmacyService.ToCertifications | src/modules/pharmacy/pharmacy.service.ts:148-154 | the stored certifications are the form's, one for one and in order, each with its name, image and date |
| PharmacyService.AddingKeepsLimit | src/modules/pharmacy/pharmacy.service.ts:61-62 | adding a pharmacy for an owner below five keeps every owner within five |
| PharmacyService.CreateKeepsInvariant | src/modules/pharmacy/pharmacy.service.ts:38-84 | creation keeps every owner at five or fewer and every helpers list valid |
| PharmacyService.ApproveOutcome | src/modules/pharmacy/pharmacy.service.ts:91-115 | `ApproveSpec`: a missing pharmacy is a 500; otherwise a missing owner or an already approved pharmacy is refused; otherwise the pharmacy is stamped, the owner gets the pharmacy role, and the owner is mailed |
| PharmacyService.ApproveOnlyOnce | src/modules/pharmacy/pharmacy.service.ts:101-103 | a second approval is refused and changes nothing |
| PharmacyService.ApproveKeepsInvariants | src/modules/pharmacy/pharmacy.service.ts:91-115 | approval keeps the pharmacy invariant and the user invariant |
| PharmacyService.CreatedPharmacyCanBeApproved | src/modules/pharmacy/pharmacy.service.ts:38-115 | a pharmacy a verified user has just created can then be approved |
| PharmacyService.UpdateMergeRules | src/modules/pharmacy/pharmacy.service.ts:131-162 | `Updated`: name, image and hours are replaced only by truthy form values; city and street merge over the stored address; when the form gives a city or a street, a truthy lng or lat is written and a falsy one keeps the stored value; certifications only when the form has some |
| PharmacyService.EmptyUpdateChangesNothing | src/modules/pharmacy/pharmacy.service.ts:131-162 | a form with nothing truthy in it leaves the pharmacy unchanged |
| PharmacyService.ZeroCoordinatesIgnored | src/modules/pharmacy/pharmacy.service.ts:136-141 | coordinates given as 0 are never written |
| PharmacyService.UpdateIdempotent | src/modules/pharmacy/pharmacy.service.ts:131-167 | submitting the same form twice gives the same pharmacy as submitting it once |
| PharmacyService.UpdateOutcome | src/modules/pharmacy/pharmacy.service.ts:117-172 | `UpdateSpec`: a missing pharmacy is 404 and a non-owner is 401, both changing nothing; otherwise only that pharmacy changes, to the merged one |
| PharmacyService.UpdateKeepsInvariant | src/modules/pharmacy/pharmacy.service.ts:117-172 | an update keeps the pharmacy invariant |
| PharmacyService.CertificationImages | src/modules/pharmacy/pharmacy.service.ts:181-187 | the truthy certification images, in order |
| PharmacyService.NonEmpty | src/modules/pharmacy/pharmacy.service.ts:190 | `filter(Boolean)` keeps exactly the non-empty strings of the list and never lengthens it |
| PharmacyService.NonEmptyConcat | src/modules/pharmacy/pharmacy.service.ts:190 | the filter works entry by entry, so it keeps the order of the list |
| PharmacyService.ImagesToDeleteContents | src/modules/pharmacy/pharmacy.service.ts:180-190 | an image is deleted exactly when it is non-empty and is the pharmacy's image or a certification's image |
| PharmacyService.ImagesToDelete | src/modules/pharmacy/pharmacy.service.ts:180-190 | the loop with push, followed by the filter, yields the spec's list |
| PharmacyService.DeleteOutcome | src/modules/pharmacy/pharmacy.service.ts:174-207 | `DeleteSpec`: only the owner deletes; the pharmacy is then gone, the others stay, and the image URLs whose keys are then deleted from storage are exactly `ImagesToDeleteSpec` of the deleted pharmacy, none empty; a refused delete changes nothing and hands over nothing |
| PharmacyService.DeleteKeepsInvariant | src/modules/pharmacy/pharmacy.service.ts:174-207 | deleting keeps the pharmacy invariant |
| PharmacyService.OpenOnlyMembers | src/modules/pharmacy/pharmacy.service.ts:211-213 | `OpenOnly`, the open-now filter, keeps exactly the open pharmacies of the search result |
| PharmacyService.OpenOnlyConcat | src/modules/pharmacy/pharmacy.service.ts:211-213 | the filter works piece by piece, so it keeps the search order |
| PharmacyService.FindPharmaciesResult | src/modules/pharmacy/pharmacy.service.ts:209-215 | `FindPharmacies`: without openNow the search result comes back as it is; with it only open pharmacies, and filtering again changes nothing |
| PharmacyService.OpenOnlyIdempotent | src/modules/pharmacy/pharmacy.service.ts:211-213 | filtering twice is filtering once |
| PharmacyService.PharmacyService.HandleCreatePharmacy | src/modules/pharmacy/pharmacy.service.ts:38-84 | the stores and the outbox become what `CreateSpec` gives; the invariant is kept |
| PharmacyService.PharmacyService.HandleApprovePendingPharmacy | src/modules/pharmacy/pharmacy.service.ts:91-115 | the stores and the outbox become what `ApproveSpec` gives |
| PharmacyService.PharmacyService.HandleUpdatePharmacy | src/modules/pharmacy/pharmacy.service.ts:117-172 | builds `updateData` field by field and leaves the store as `UpdateSpec` gives |
| PharmacyService.PharmacyService.HandleDeletePharmacy | src/modules/pharmacy/pharmacy.service.ts:174-207 | the result, the store and the images are those of `DeleteSpec` |
| ProductDto.ToProductDto | src/modules/product/DTOs/product.dto.ts:30-33 | a stock written as the decimal digits of n reaches the service as the number n, and an empty stock as 0; name, barcode, ids and the prescription text are carried unchanged |
| ProductDto.StockRoundTripsAll | src/modules/product/DTOs/product.dto.ts:30-33 | `Number` of the decimal writing of every natural number is that number |
| ProductDto.BarcodeShape | src/modules/product/DTOs/product.dto.ts:35-37 | `BarcodeValid`: a barcode is exactly twelve decimal digits; one more, one less or a non-digit fails |
| ProductDto.ValidFormIdsConvert | src/modules/product/DTOs/product.dto.ts:23-45 | the ids of a form passing `ProductFormValid` always convert |
| ProductDto.StockCoercion | src/modules/product/DTOs/product.dto.ts:30-33 | decimal stock is that number; an empty stock field is 0 and passes; a form without a stock field is refused |
| ProductService.CreateProductOutcome | src/modules/product/product.service.ts:19-34 | `CreateProductSpec` refuses exactly when the pharmacy already has a product with that name or barcode, or the schema's validation fails (no image, or a prescription text `CastBoolean` rejects); otherwise it stores one new product with the converted ids and the form's name, description, image, stock, barcode, generic name and stock timestamp, its prescription flag true exactly for "true", "1" or "yes" |
| ProductService.CreateKeepsProductsUnique | src/modules/product/entities/product.schema.ts:44-45 | a created product never shares a name or barcode with another product of its pharmacy |
| ProductService.UpdateProductOutcome | src/modules/product/product.service.ts:44-66 | `UpdateProductSpec` succeeds exactly when the product is in the given pharmacy and no other product of that pharmacy has the new name or barcode; a missing product is refused; a clash with the unique indexes is a 500 carrying the duplicate-key error; a refused update writes nothing; otherwise only that product changes, to `UpdatedProduct` |
| ProductService.UpdateKeepsProductsUnique | src/modules/product/entities/product.schema.ts:44-45 | an update keeps every pharmacy's product names and barcodes unique |
| ProductService.StockTimestampRule | src/modules/product/product.service.ts:60-62 | `lastStockUpdate` changes with the clock exactly when the stock changes |
| ProductService.UpdateWritesConvertedValues | src/modules/product/product.service.ts:52-63 | the update writes the converted ids and the form's stock, stamping the clock when the stock changes, and the prescription flag is true exactly for the text "true" |
| ProductService.PharmacyProducts | src/modules/product/product.service.ts:36-42 | a product is listed exactly when its pharmacy is one of the user's |
| ProductService.OthersProductsNotListed | src/modules/product/product.service.ts:36-42 | products of someone else's pharmacy, or of a deleted one, are never listed |
| ProductService.ProductService.HandleCreateProduct | src/modules/product/product.service.ts:19-34 | the store becomes what `CreateProductSpec` gives; unique names and barcodes are kept |
| ProductService.ProductService.HandleUpdateProduct | src/modules/product/product.service.ts:44-66 | builds `productData` and leaves the store as `UpdateProductSpec` gives; unique names and barcodes are kept |

## Left out

- Calls into other code are modelled as parameters: e-mail delivery, bcrypt, the JWT signature, the random OTP draw, the Date clock, and the database's id generation. E-mails are recorded with their recipient and payload only; their templates are not modelled.
- JWT expiry: `jwt.verify` is a parameter returning the claims or an error, so "has expired" and "invalid token" are not told apart.
- The `default` branch of the login switch ("Invalid agent status") is not modelled: the classifier returns only the three statuses.
- The e-mail format check (`IsEmail`) is simplified to a local part of at most 64 non-blank characters, then '@', then a domain of two or more letter-digit-hyphen labels ending in a letters-only top-level label. The quoted local parts, IP-literal domains and international characters of the validator library are not modelled.
- The resend-OTP controller provides only a stub. The service flow is modelled, not the controller.
- `getUserByEmailOrPhoneNumberOrCINNumber` is modelled by its query: some user shares the e-mail, the phone number or the CIN number. `getPharmacyByTitleAndAddress` is modelled by its answer, the `found` parameter, because that repository query is not part of this model.
- `getUserPharmaciesCount` is not part of this model. It is modelled as the number of pharmacies whose `userId` is the owner.
- `getProductsByIdAndPharmacyId` and `updateProduct` are not part of this model. They are modelled by their interface names: the product with that id and that pharmacy, and a `$set` of the product data.
- Role lookups by name (`findRoleByName`, the changeUserRoles helper) are not part of this model. The 'User' role id and the 'Pharmacy' role id are parameters, and approval sets the owner's role to the latter.
- PharmacyService.DeleteOutcome: the `Promise.all` over `deleteFile` and the swallowed per-image errors are not modelled; the model yields the list of image URLs; turning each into its key with `getKeyFromUrl` and skipping empty keys before `deleteFile` is not part of the deletion model.
- The administrator lookup (`findRoleByName('Admin')`, then `getUsersByRole`) is not part of this model. The recipient of the new-pharmacy e-mail is the parameter `adminEmail`. The e-mail's address text (`${newPharmacy.address}`, an object turned into text) is not modelled.
- `JSON.parse` of `certifications`, `workingHours` and product `alternatives`: forms carry these already parsed, and product `alternatives` are not modelled, because JSON text parsing is outside this model.
- ProductService.CreateProductOutcome: mongoose schema validation on save is abstracted to "the image is missing or empty, or the prescription text does not cast to a Boolean", and its message text is a parameter. Other validation failures and the 500 "Failed to create pharmacy" path are not modelled.
- Pharmacy creation's own schema validation errors (`createPharmacy` in the repository) are not modelled, beyond the create result `created`. The schema marks `lng` and `lat` required, yet the document `createPharmacy` builds has an address of street and city only, so its save may be refused as a validation error (whether it is depends on mongoose checking the `required` flags of an undecorated nested class) (400 "Validation Error: …"); `NewPharmacy` keeps the coordinates absent and leaves that outcome to `created`.
- Product stock is a whole number: `Number` of decimal or whitespace-padded text is not modelled.
- StockValid: rejects stock texts such as "-3", "9.5", " 9" or "1e2", which `Number` turns into numbers and `@IsNumber()` accepts.
- PharmacyHelper.TimeOfDay: hours and minutes are digit strings only, so "08:00 " or " 8:00" counts as unparsed in the model (the day is closed), whereas `Number` trims the spaces and the source finds the pharmacy open.
- PharmacyHelper.IsPharmacyOpen: inherits the `TimeOfDay` restriction above; every other branch is as in the source.
- ProductService.UpdateProductOutcome: the body of `updateProduct` is not part of this model; the refusal of a name or barcode already used in the pharmacy comes from the schema's unique indexes. The duplicate-key message is cut to its head "E11000 duplicate key error"; the collection, index and key the driver appends are not modelled.
- The order of repository results (`getProductsByPharmaciesIds`) is not modelled: the products come back as a map. Its `populate` of `pharmacyId` (name and address) and `category` (category name) is not modelled either: a listed product carries the stored ids, not those sub-documents. `findPharmacies` is the `found` parameter, and its text search is not modelled.
- Absent optional DTO fields keep the stored value on product update; the exact undefined-versus-absent behaviour of `$set` is not modelled.
- ObjectUtil.GetChangedProperties: `!==` is modelled as value inequality, so two distinct objects with equal contents count as unchanged, whereas JavaScript compares them by reference.
- S3Service.UploadUrlRoundTrip: covers only keys made of characters the URL parser copies unchanged. The upload keys embed the client's file name, and a name with a space or a non-ASCII letter comes back percent-encoded from `getKeyFromUrl`, so deleting the pharmacy would ask storage for a key that does not exist; the model's parser does not percent-encode, so this case is not captured.
- S3Service.GetKeyFromUrl: URL parsing accepts only a lower-case "http://" or "https://" followed by a non-empty host, with '?' and '#' ending the path; so "ftp://h/k" and "HTTPS://h/k", whose key the source finds, give null in the model. Percent-encoding, dot segments and other WHATWG URL rules are not modelled.
- The upload itself (`uploadFile`, `deleteFile`) is I/O and is left out; only the URL shape it returns is used.
- Concurrency between requests is not modelled: each flow runs alone on the stores.
- Remembering a new device at login (`remember_me` true) trusts that device without an OTP when the service is called directly. `AuthService.LoginRememberMeTrustsNewDevice` and `AuthService.RegisterIgnoresRoleId` describe such direct calls; over HTTP the pipe refuses both fields, and `AuthService.RouteLoginRecordsNewDeviceUntrusted` shows a new device then always starts untrusted.
- Product creation casts the prescription text the mongoose way ("true", "1", "yes"), while update stores `=== "true"`. So "yes" and "1" store true on create but false on update; the model keeps both behaviours.
