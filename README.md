# evas-auth, modelled in Dafny

evas-auth is a PHP library for user authentication. A user signs in through
a *grant*. A grant is a password, a one-time code sent to an e-mail address
or phone, or a foreign OAuth provider (Facebook, Google, VK). Codes are
*confirmation* rows with an expiry time. A successful sign-in makes a
*session*, whose random token is put in a cookie. The library has two
generations side by side:

- The newer one: the `Auth` class with its traits (password, code,
  confirmation, foreign sign-in), the `Help` classes (`Token`, `BaseOauth`)
  and the providers under `Sources/*.php`.
- The older one: the static `AuthAdapter` with its `Config`, the `Actions`
  classes, the `Helpers` (`Config`, `ApiConfig`, `BaseApi`) and the providers
  under `Sources/Fb`, `Sources/Vk` and `Sources/Google`.

The model keeps both generations apart, one Dafny module per PHP file or
class:

- **Database tables.** Each table is a `seq` of rows held in one `Db` object
  (`Database.Db`). An auto-increment id is the row's position plus one. A
  query's `one()` is the first row that matches.
- **PHP arrays.** An array is an ordered sequence of key/value entries
  (`Php.PhpArray`). Assigning to a new key appends it, as PHP does. This
  keeps the order that `supportedSources`, `renameDataKeys` and `buildLink`
  depend on.
- **Errors.** An exception is an `Errors.AuthError` value. Each operation
  returns a `Result` and states which error it raises and when.
- **Objects the PHP code mutates** are Dafny classes whose methods carry
  `modifies` clauses. These are `Auth`, `Config`, `ApiConfig`, `Token`,
  `BaseOauth`, the validators, the adapter's static slots and the tables.
- **Pure reshaping.** Request checks, the providers' user-data formatting
  and the configuration merges are functions. The lemmas state what they
  produce.
- **Outside the model.** Randomness, the clock, the password hash, the
  host application's validators and every HTTP exchange are parameters of
  the operations.

## Model

| member | source | states |
|---|---|---|
| Php.ArrayMergeLookup | src/Helpers/Config.php:50-53 | after array_merge a string key of the second array reads its value there, and any other string key its value in the first |
| Php.ArrayMergeInts | src/Helpers/Config.php:50-53 | after array_merge the integer-keyed values are the first array's followed by the second's, renumbered from 0 |
| Php.ArrayMergeDistinct | src/Helpers/Config.php:50-53 | array_merge yields distinct keys |
| Php.IntegerKeysAppend | src/Helpers/ApiConfig.php:48 | merging `[1 => x]` into a three-element list appends x under 3 rather than replacing the element at 1 |
| Php.MergeKeepsOtherKeys | src/Auth.php:72 | after array_merge_recursive a string key the new array lacks keeps its old value |
| Php.MergeNewKeyWins | src/Auth.php:72 | after array_merge_recursive a string key only the new array holds takes its value there |
| Php.MergeScalarsCollect | src/Help/BaseOauth.php:38 | two non-array values under the same string key are collected into the list `[x, y]` |
| Php.MergeListsAppend | src/Auth.php:72 | two lists under the same string key are concatenated, the new list's values renumbered after the old list's largest index |
| Php.MergeIntoList | src/Auth.php:72 | merging a list into an array appends its values after the largest integer index |
| Php.MergeRecursiveInts | src/Auth.php:72 | after array_merge_recursive the top-level integer-keyed values are the first array's followed by the second's, renumbered from 0 |
| Tokens.Token.constructor | src/Help/Token.php:25-30 | each property given in the props overrides its default; the others keep the defaults |
| Tokens.Token.Generate | src/Help/Token.php:37-46 | the token has the requested length (the object's length when none is given; empty for a negative length) and its i-th character is the symbol drawn for position i |
| Tokens.FirstUnique | src/Help/Token.php:56-79 | fails, with token_exceeed_max_try_generated, exactly when every try up to maxTries is taken |
| Tokens.FirstUniqueFound | src/Help/Token.php:56-79 | a token found is the candidate of some try below maxTries that is free in the column, and every earlier try was taken |
| Tokens.Token.GenerateUniqueIn | src/Help/Token.php:56-79 | a target that names no table and field is an invalid argument; otherwise the result is the first free candidate of FirstUnique |
| Tokens.NoTriesAlwaysFails | src/Help/Token.php:69-78 | with maxTries at most 0 the loop never runs and the generator always raises |
| Tokens.EmptyColumnTakesFirst | src/Help/Token.php:69-78 | when no row holds any value, the first candidate is returned |
| AuthConfirm.ArraySearch | src/Models/AuthConfirm.php:84-92 | `array_search`: false exactly when no entry holds the value, otherwise the key of an entry that does |
| AuthConfirm.ExplicitTypes | src/Models/AuthConfirm.php:84-92 | an explicit type "email" or "phone" is stored as its number, "unknown" as the empty string, any other name as false |
| AuthConfirm.RecipientType | src/Models/AuthConfirm.php:68-75 | corrected, with the validation library's EmailField and PhoneField: email when the e-mail check accepts the recipient, otherwise phone when the phone check does, otherwise null; each result holds exactly in its case |
| AuthConfirm.EmailRecipientIsTypedEmail | src/Models/AuthConfirm.php:84-92 | corrected make: an e-mail recipient, with no type or the type "email", is stored with the e-mail type |
| AuthConfirm.StoredTypeAsWritten | src/Models/AuthConfirm.php:68-75 | as written, make raises "class not found" for the unimported EmailField exactly when it is given no truthy type |
| AuthConfirm.UntypedEmailRaisesAsWritten | src/Models/AuthConfirm.php:83-87 | as written, an e-mail recipient with no type raises, where the corrected make stores the e-mail type |
| AuthConfirm.TypedMakeAgreesAsWritten | src/Models/AuthConfirm.php:83-86 | with a truthy type name, as every flow passes, make as written stores the corrected type |
| AuthConfirm.Complete | src/Models/AuthConfirm.php:46-60 | completing fails with code_is_outdated exactly when the code has expired; otherwise only the completion time changes, to now |
| AuthConfirm.CompleteTwice | src/Models/AuthConfirm.php:55-60 | a code completed again before its expiry succeeds and carries the later completion time |
| AuthConfirm.FindByUserIdAnd | src/Models/AuthConfirm.php:115-119 | findByUserIdAndCode (the code column) and findByUserIdAndTo (the to column): finds a row with this user whose column holds the value; none exactly when no row has both |
| AuthConfirm.CompletedCodeIsFoundAgain | src/Models/AuthConfirm.php:115-119 | once the found row is completed and saved, the same lookup still finds it |
| AuthConfirm.IssuedCodeIsFound | src/Models/AuthConfirm.php:84-119 | a row just made, whose code no earlier row holds, is the one the lookup finds for its user and code |
| AuthConfirm.OldestRowWins | src/Traits/AuthConfirmTrait.php:136-141 | rows appended later never change which row the lookup by user and recipient finds |
| AuthConfirm.AppendKeepsCodesUnique | src/Models/AuthConfirm.php:84-92 | appending a row whose code no row holds keeps the codes unique |
| AuthConfirm.GenerateCode | src/Models/AuthConfirm.php:98-107 | a generated code is all digits, has the configured length and is not held by any row; failure happens exactly when every try is taken |
| AuthConfirm.SpelledDigits | src/Models/AuthConfirm.php:98-107 | a code spelled from the digit alphabet has the requested length and only digits |
| AuthConfirm.Make | src/Models/AuthConfirm.php:84-92 | appends exactly one row with the next id, this user and recipient, the stored type, expiry now + lifetime, no completion and a fresh code; the other table is untouched; it fails, writing nothing, with token_exceeed_max_try_generated exactly when every candidate code is taken |
| AuthConfirm.CompleteRow | src/Models/AuthConfirm.php:55-60 | saves the completed row in place of row k, or writes nothing when the code is outdated |
| AuthSession.FindByToken | src/Models/AuthSession.php:48-51 | finds a session with this token; none exactly when no session has it |
| AuthSession.FindByTokenIsExact | src/Models/AuthSession.php:48-51 | while tokens are unique, a session's own token finds that session |
| AuthSession.FindReusable | src/Models/AuthSession.php:71-93 | finds the session of this user, ip and user agent; none exactly when there is none |
| AuthSession.HourOfDay | src/Models/AuthSession.php:78 | the hour of a timestamp lies in 0..23 |
| AuthSession.EndTimeAsWrittenShift | src/Models/AuthSession.php:78 | as written, with the 12-hour `h`, an afternoon end time is stored 12 hours early and a midnight end time 12 hours late |
| AuthSession.EndTimeAsWrittenIsInThePast | src/Models/AuthSession.php:78 | as written, a one-hour session made at 13:00 is stored as ending at 02:00, before it was made |
| AuthSession.SessionLivesForItsLifetime | src/Models/AuthSession.php:78 | with the 24-hour clock, the session is alive from now through now + lifetime and has expired one second later |
| AuthSession.InsertCookieAsWrittenLosesToken | src/Models/AuthSession.php:88-91 | the insert path is taken exactly when the lookup found no session, so the cookie, read from the lookup's result, is null and never the new token |
| AuthSession.AppendKeepsTokensUnique | src/Models/AuthSession.php:71-93 | appending a session with a token no session holds keeps tokens unique |
| AuthSession.GenerateToken | src/Models/AuthSession.php:88 | a generated token is held by no session; it fails, with token_exceeed_max_try_generated, exactly when every one of the 20 candidate tokens is already held |
| AuthSession.Make | src/Models/AuthSession.php:71-93 | corrected make (24-hour end time; the cookie carries the new token): the session of the same user, ip and agent is prolonged in place, with no new cookie; otherwise one session with a fresh token and the new end time is appended, or nothing is written exactly when every candidate token is taken (SessionMade) |
| AuthSession.SignInAgainProlongs | src/Models/AuthSession.php:80-87 | after a successful sign-in, a second one from the same ip and agent finds that session, so it succeeds and appends nothing |
| AuthSession.SessionMadeKeepsTokensUnique | src/Models/AuthSession.php:88-92 | a sign-in keeps session tokens unique, and an inserted session is the one its token finds, for the grant's user |
| AuthGrant.Insert | src/Models/AuthGrant.php:61-70 | appends exactly one grant with the next id and the given fields, without a status |
| AuthGrant.Make | src/Models/AuthGrant.php:61-70 | make appends one grant with this user, source, login and token |
| AuthGrant.FindBySourceToken | src/Models/AuthGrant.php:78-83 | finds a grant with this source and token; none exactly when no grant has both |
| AuthGrant.FindById | src/Models/AuthGrantRecovery.php:62 | finds the grant with this id; none exactly when there is none |
| AuthGrant.Confirm | src/Models/AuthGrant.php:89-93 | the status becomes confirmed and nothing else changes |
| AuthGrant.Recovery | src/Models/AuthGrant.php:100-104 | the token becomes the new one, the status becomes confirmed, and nothing else changes |
| AuthGrant.RecoveryIdempotent | src/Models/AuthGrant.php:100-104 | recovering twice with the same token is the same as recovering once |
| AuthGrant.Save | src/Models/AuthGrant.php:89-104 | saving replaces the grant at its position and nothing else |
| AuthGrant.StatusLabel | src/Models/AuthGrant.php:112-113 | the label is the statuses map's entry for the status, the empty key for a null status |
| AuthGrant.GetStringStatus | src/Models/AuthGrant.php:110-115 | raises ArgumentCount exactly when the format asks for more values than the source and the label |
| AuthGrant.StatusTextFilled | src/Models/AuthGrant.php:110-115 | a format with two `%s` gives its text with the source first and the label second |
| AuthGrant.DefaultStringStatus | src/Models/AuthGrant.php:110-115 | with the default format, the status text is "Вход через <source> <status label>" |
| AuthGrant.FindWithPasswordByUserId | src/Traits/AuthPasswordTrait.php:67 | finds this user's password grant; none exactly when the user has none |
| AuthGrant.MakeWithPassword | src/Traits/AuthPasswordTrait.php:41 | appends one password grant for the user whose stored hash verifies the given password |
| AuthGrant.CreateWithPassword | src/Actions/PasswordAuth.php:41 | the older name: appends one password grant holding the password's hash |
| AuthGrant.SetPasswordHash | src/Traits/AuthConfirmTrait.php:104 | afterwards the grant verifies the new password; only the token changes |
| AuthGrant.ChangePassword | src/Traits/AuthPasswordTrait.php:94 | succeeds exactly when the old password verifies, and then sets the new hash; otherwise fails with user_fail_password |
| AuthGrant.ChangedPasswordVerifies | src/Traits/AuthPasswordTrait.php:94 | after a change the new password verifies, and the old one no longer does unless the two hash alike |
| AuthGrant.MakeWithCode | src/Traits/AuthCodeTrait.php:104 | appends one code grant for the user, whose login is the recipient |
| AuthGrant.FindForeign | src/Traits/AuthForeignTrait.php:40 | finds a grant of this source whose login is the provider key; none when the key is null or no grant matches |
| AuthGrant.MakeForeign | src/Traits/AuthForeignTrait.php:46 | appends one grant of this source whose login is the provider key |
| AuthGrant.MadeForeignIsFound | src/Traits/AuthForeignTrait.php:40-46 | once made, the foreign grant is the one found for its source and key |
| AuthGrantRecovery.FindByCode | src/Models/AuthGrantRecovery.php:45-48 | finds a recovery row with this code; none exactly when no row has it |
| AuthGrantRecovery.Remove | src/Models/AuthGrantRecovery.php:68 | deleting the row keeps every other row, in order |
| AuthGrantRecovery.RemoveKeepsKeys | src/Models/AuthGrantRecovery.php:68 | deletion keeps the rows keyed by grant and the codes unique |
| AuthGrantRecovery.RecoveryCodeIsSpent | src/Models/AuthGrantRecovery.php:55-69 | after its row is deleted, a recovery code is no longer found |
| AuthGrantRecovery.RecoveryByCode | src/Models/AuthGrantRecovery.php:55-69 | an unknown code raises the undefined constant's error and a missing grant raises error 8, both with nothing written; otherwise the grant is recovered with the new token and the row is deleted, so the code cannot be reused |
| AuthGrantConfirm.FindByCodeAsWritten | src/Models/AuthGrantConfirm.php:45-48 | as written, a found row breaks the declared return type (TypeError), so only "not found" is ever returned |
| AuthGrantConfirm.ConfirmByCodeAsWrittenNeverSucceeds | src/Models/AuthGrantConfirm.php:55-61 | as written, confirmByCode always raises: a TypeError for a known code, "not found" for an unknown one |
| AuthGrantConfirm.FindByCode | src/Models/AuthGrantConfirm.php:45-48 | with the row's own type, a row is found exactly when one holds the code |
| AuthGrantConfirm.ConfirmByCode | src/Models/AuthGrantConfirm.php:55-61 | succeeds exactly when a row holds the code; otherwise raises ERROR_AUTH_GRANT_CONFIRM_NOT_FOUND |
| LoginUser.KeysOf | src/Models/LoginUserTrait.php:41-53 | the keys of the key/label list, in order |
| LoginUser.FilterColumns | src/Models/LoginUserTrait.php:41-53 | a key is kept exactly when the table has a column of that name |
| LoginUser.FilterColumnsKeepsOrder | src/Models/LoginUserTrait.php:41-53 | the kept keys are in their declared order |
| LoginUser.UserModel.constructor | src/Models/LoginUserTrait.php:41-53 | a user model over the given columns, with no unique keys computed yet |
| LoginUser.UserModel.UniqueKeys | src/Models/LoginUserTrait.php:41-53 | the unique keys the table has; computed once, then served from the cache |
| LoginUser.AllColumnsGiveAllKeys | src/Models/LoginUserTrait.php:41-53 | a table with email, phone and login columns has exactly those unique keys, in that order |
| LoginUser.GetUniqueKeyLabel | src/Models/LoginUserTrait.php:60-63 | the label of each unique key (Email, Телефон, Логин); none exactly for other names |
| LoginUser.SetKeysMembers | src/Models/LoginUserTrait.php:73-79 | a key is among the set keys exactly when it is a unique key set in the data |
| LoginUser.PlaceholderAt | src/Models/LoginUserTrait.php:75 | the condition at each position is "key = ?" for the key at that position |
| LoginUser.ParamAt | src/Models/LoginUserTrait.php:76 | the bound value at each position is the data's value for the key at that position |
| LoginUser.BuildCondition | src/Models/LoginUserTrait.php:73-79 | the loop builds exactly the conditions and values of the set keys, in order |
| LoginUser.SetKeysSnoc | src/Models/LoginUserTrait.php:73-79 | one more loop step adds the key exactly when it is set |
| LoginUser.SetKeysSplitOne | src/Models/LoginUserTrait.php:73-79 | the set keys of a list are those of its prefix followed by those of its suffix |
| LoginUser.PlaceholdersAppend | src/Models/LoginUserTrait.php:73-79 | conditions of a concatenation are the concatenated conditions |
| LoginUser.ParamsAppend | src/Models/LoginUserTrait.php:73-79 | bound values of a concatenation are the concatenated values |
| LoginUser.FindBySetKeys | src/Models/LoginUserTrait.php:70-83 | finds a user equal to the data on some set key; none when no key is set or no user matches |
| LoginUser.FindByUniqueKeys | src/Models/LoginUserTrait.php:70-83 | the user found by the OR of the set keys; no query at all exactly when no key is set |
| LoginUser.ConflictKey | src/Traits/AuthPasswordTrait.php:31-37 | the first set key on which the user equals the data; none exactly when there is none |
| LoginUser.ScanConflict | src/Traits/AuthPasswordTrait.php:31-37 | the loop returns exactly the first conflicting key |
| LoginUser.FoundUserConflicts | src/Traits/AuthPasswordTrait.php:30-37 | a user found by the unique keys always conflicts on one of them |
| LoginUser.FindByUniqueKeysFilled | src/Traits/AuthCodeTrait.php:64 | finds the user whose field of the recipient's type equals the recipient; none exactly when there is none |
| LoginUser.Insert | src/Models/LoginUserTrait.php:16-28 | appends exactly one user with the next id and the data |
| LoginUser.InsertByPassword | src/Models/LoginUserTrait.php:25-28 | inserts the data as a new user |
| LoginUser.InsertByForeign | src/Models/LoginUserTrait.php:16-19 | inserts the provider's data as a new user |
| Validators.Classify | src/Validators/EmailOrPhoneField.php:26-40 | e-mail first, then phone: valid exactly when one of the two checks accepts, with that check's type and cleaned value |
| Validators.EmailOrPhoneField.constructor | src/Validators/EmailOrPhoneField.php:26-40 | a field with no value, no type and no errors |
| Validators.EmailOrPhoneField.IsValid | src/Validators/EmailOrPhoneField.php:26-40 | valid exactly when classified, storing the type and cleaned value; otherwise the value is kept and a "pattern" error is added |
| Validators.ReshapeReadsBack | src/Validators/GetCodeFieldset.php:28-35 | after afterValidate, `type` holds the type, the field named by the type holds the recipient, `to` is gone and nothing else changes |
| Validators.GetCodeFieldset.constructor | src/Validators/GetCodeFieldset.php:28-35 | a fieldset over the given values |
| Validators.GetCodeFieldset.AfterValidate | src/Validators/GetCodeFieldset.php:28-35 | the values become the reshaped values |
| Validators.ValidateGetCode | src/Traits/AuthCodeTrait.php:24-32 | fails exactly when the recipient is neither an e-mail nor a phone; on success the request carries its type and recipient |
| Validators.ValidateCheckCode | src/Traits/AuthCodeTrait.php:39-48 | fails exactly when the recipient or the code does not validate; on success the request carries type, recipient and code |
| Auth.SupportedSources | src/Auth.php:180-186 | raises a TypeError exactly when `foreigns` is not an array (array_keys of null); otherwise the configured foreign sources in order, then "password" and "code" when enabled, and nothing else |
| Auth.NoForeignsSupportsPasswordThenCode | src/Auth.php:180-186 | with an empty `foreigns` array and both flags on, the list is exactly password then code |
| Auth.ThrowIfNotSupportedSource | src/Auth.php:193-208 | a TypeError when `foreigns` is not an array; otherwise raises auth_not_supported exactly for a source not in the supported list |
| Auth.GetOauth | src/Auth.php:217-229 | the supported-sources TypeError, then auth_not_supported for an unsupported source, oauth_handler_not_setted for a source without a handler class, and oauth_config_not_setted for one without a config; otherwise the handler's class and config; `new $oauthClass` itself is AuthForeignTrait.Handler |
| Auth.GetError | src/Auth.php:136-140 | the configured message for the name, or "Unknown error" |
| Auth.GetModelTableName | src/Auth.php:148-154 | the table configured for the model, raising model_table_not_exists exactly when none is |
| Auth.UserModelName | src/Auth.php:161-174 | succeeds exactly when `userModel` is a truthy string naming a class that implements LoginUserInterface, with that name; an empty one raises "User model not exists"; a class that does not implement the interface, and a truthy non-string value (which `is_subclass_of` rejects: `true` and `1` print as "1", an array as "Array"), raise `User model "<name>" must implement the <interface>` |
| Auth.MissingForeignsRaises | src/Auth.php:180-208 | without a `foreigns` array (as in the packaged defaults) every source check and getOauth raise a TypeError |
| Auth.Auth.constructor | src/Auth.php:44-48 | an Auth over the tables, with an empty config and no resolved user |
| Auth.Auth.SetConfig | src/Auth.php:56-74 | a non-array configuration is an invalid argument and leaves the config alone; otherwise the config is merged recursively over the old one, with array_merge_recursive's semantics (Php.MergeRecursive) |
| Auth.Auth.Init | src/Auth.php:44-74 | non-array defaults raise with the config unchanged; array defaults are merged first; then a truthy argument is merged over them, and a truthy non-array argument raises with only the defaults merged |
| Auth.Auth.SetUserModel | src/Auth.php:109-119 | succeeds exactly when the class implements the interface, storing it as userModel; otherwise raises with the config unchanged |
| Auth.Auth.LoggedUserId | src/Auth.php:271-278 | resolved once: later calls return the stored id; the first call looks up the cookie's session |
| Auth.LoggedUserIdByCookie | src/Auth.php:271-288 | a user exactly when the cookie is a non-empty string that some session holds as its token, and then the user of the first such session |
| Auth.CookieOfSessionLogsIn | src/Auth.php:271-288 | with unique session tokens, a non-empty cookie holding a session's token logs in that session's user |
| Auth.Auth.MakeSession | src/Auth.php:260-265 | a cookie is set exactly when a session is made, and it carries that session's token; the sessions are as the session step of make: a session of the same user, ip and agent is prolonged in place and the step succeeds; otherwise it fails, with the sessions unchanged and token_exceeed_max_try_generated, exactly when all 20 candidate tokens are taken, and on success exactly one session is appended (next id, the grant's user and id, the ip, the agent, end time now + lifetime, a token no session holds) |
| AuthConfirmTrait.FindRecipient | src/Traits/AuthConfirmTrait.php:25-41 | the validation error, or user_not_found when no user has the recipient, or the request and that user |
| AuthConfirmTrait.GetConfirmCode | src/Traits/AuthConfirmTrait.php:25-41 | the recipient's errors raise with nothing written; otherwise token exhaustion with the rows unchanged exactly when every candidate code is taken, or exactly one appended row built as make builds it (next id, the user, the recipient, the stored type, end time now + lifetime, not completed, a fresh code), whose code is returned |
| AuthConfirmTrait.IssueRow | src/Traits/AuthConfirmTrait.php:25-41 | make on the selected table for the user and recipient: token exhaustion with the rows unchanged exactly when every candidate code is taken, otherwise one appended row built as make builds it, whose code is returned; the other table is untouched |
| AuthConfirmTrait.CheckedRow | src/Traits/AuthConfirmTrait.php:50-71 | the recipient's error, code_is_not_active without the user's row for the code, code_is_outdated past its end time; otherwise that row, completed now |
| AuthConfirmTrait.IssuedCodeIsChecked | src/Traits/AuthConfirmTrait.php:25-71 | a code just issued to the recipient and checked before its end time is found as the new row and completed |
| AuthConfirmTrait.ConfirmCheck | src/Traits/AuthConfirmTrait.php:50-71 | only the checked table can change; an unknown code or an outdated one raises with nothing written; success completes exactly the row found and returns it |
| AuthConfirmTrait.RecoveryCheck | src/Traits/AuthConfirmTrait.php:90-110 | a failed check raises with nothing written; once it passes the recovery row stays completed, also when the new password is then rejected with PasswordResetFieldset and no grant change; an accepted password re-hashes the checked user's first password grant in place and changes no other grant, or, when the user has none, appends one password grant with the next id and the password's hash; that grant verifies the password and is returned |
| AuthConfirmTrait.ResetPassword | src/Traits/AuthConfirmTrait.php:97-108 | a rejected new password raises with the grants untouched; an accepted one re-hashes the user's first password grant in place, or appends one new password grant when there is none, changes no other grant, and returns the grant, which verifies the password |
| AuthConfirmTrait.StorePassword | src/Traits/AuthConfirmTrait.php:102-108 | the user's first password grant is re-hashed in place and no other grant changes, or, when the user has none, exactly one password grant with the next id, no login and the password's hash is appended; the grant returned verifies the password |
| AuthConfirmTrait.FindOrInsertUser | src/Traits/AuthCodeTrait.php:62-68 | the user holding the recipient, or a new user inserted with the data when there is none |
| AuthConfirmTrait.CodeUser | src/Traits/AuthConfirmTrait.php:130-135 | the user a login code or a resend works with holds the validated recipient |
| AuthConfirmTrait.GetCodeForResend | src/Traits/AuthConfirmTrait.php:121-148 | code support, validation and the user model raise in that order with nothing written; then the resend outcome: the user found or inserted, the user's row for the recipient reused unchanged (its code, or code_is_not_active when completed), or one new row whose code is returned, or token exhaustion with the rows unchanged |
| AuthConfirmTrait.ResendFor | src/Traits/AuthConfirmTrait.php:130-148 | the resend outcome on the checked table; the other table never changes |
| AuthConfirmTrait.ResendRow | src/Traits/AuthConfirmTrait.php:137-147 | the row step of the resend outcome for the given user |
| AuthConfirmTrait.ResendTwice | src/Traits/AuthConfirmTrait.php:121-148 | a second resend of the same request after a successful one returns the same code and writes nothing |
| AuthConfirmTrait.ResendFindsIssuedRow | src/Traits/AuthConfirmTrait.php:121-148 | a row issued for a user and recipient is the one a resend finds, with the same code |
| AuthCodeTrait.LoginByCodeCheck | src/Traits/AuthCodeTrait.php:82-109 | code support, validation, the user lookup and the row lookup are checked in that order, each with its error; expiry is left to completion |
| AuthCodeTrait.IssueLoginCode | src/Traits/AuthCodeTrait.php:55-73 | the user holding the recipient is found or inserted; then token exhaustion with the rows unchanged exactly when every candidate code is taken, or exactly one appended row for that user built as make builds it (next id, recipient, stored type, end time now + lifetime, not completed, a fresh code), whose code is returned |
| AuthCodeTrait.GetCodeForLogin | src/Traits/AuthCodeTrait.php:55-73 | code support, validation and the user model raise in that order with nothing written; otherwise the user is found or inserted, and a code is issued as in IssueLoginCode: one appended row for that user whose code is returned, or token exhaustion with the rows unchanged |
| AuthCodeTrait.CompleteAndSignIn | src/Traits/AuthCodeTrait.php:101-108 | users are untouched: an outdated row (past its end time) raises code_is_outdated with nothing written; otherwise the row is completed, one code grant is made for the user, and the session step for that grant returns the user; the sessions are as the session step of make: a session of the same user, ip and agent is prolonged in place and the step succeeds; otherwise it fails, with the sessions unchanged and token_exceeed_max_try_generated, exactly when all 20 candidate tokens are taken, and on success exactly one session is appended (next id, the grant's user and id, the ip, the agent, end time now + lifetime, a token no session holds) |
| AuthCodeTrait.LoginByCode | src/Traits/AuthCodeTrait.php:82-109 | no user is ever created; the checks of LoginByCodeCheck raise with nothing written; then completion, the code grant and the session step as in CompleteAndSignIn, which fails exactly when no session is prolonged and all 20 candidate tokens are taken |
| AuthPasswordTrait.LabelValue | src/Traits/AuthPasswordTrait.php:33-35 | the error argument is a string exactly for a key with a label |
| AuthPasswordTrait.RegistrationConflict | src/Traits/AuthPasswordTrait.php:30-37 | a conflicting key exists exactly when a user is found by the unique keys, and it is set in the data |
| AuthPasswordTrait.RegistrationCheck | src/Traits/AuthPasswordTrait.php:22-38 | password support, the user model, the validator and then the uniqueness check, in that order, each with its error; success is the validated data |
| AuthPasswordTrait.RegistrationGuards | src/Traits/AuthPasswordTrait.php:22-38 | the guards as the code runs them give the same outcome as RegistrationCheck |
| AuthPasswordTrait.RegistrationByPassword | src/Traits/AuthPasswordTrait.php:22-44 | a failed guard raises with nothing written; otherwise exactly one user and one password grant for that user are added |
| AuthPasswordTrait.RegisteredDataConflicts | src/Traits/AuthPasswordTrait.php:22-44 | data with a set unique key cannot register twice |
| AuthPasswordTrait.FillKeys | src/Traits/AuthPasswordTrait.php:60 | `array_fill_keys`: exactly the keys given, each holding the value |
| AuthPasswordTrait.FindByLogin | src/Traits/AuthPasswordTrait.php:60-61 | a found user holds the login on one of its unique keys, and the login is not null |
| AuthPasswordTrait.LoginCheck | src/Traits/AuthPasswordTrait.php:52-81 | the guards in order, with user_not_found, password_grant_not_found and user_fail_password; success is a user and its own password grant that verifies the password |
| AuthPasswordTrait.Credentials | src/Traits/AuthPasswordTrait.php:59-76 | user_not_found, then password_grant_not_found, then user_fail_password; success is the user and its own password grant that verifies the password |
| AuthPasswordTrait.CheckCredentials | src/Traits/AuthPasswordTrait.php:59-76 | the lookups give exactly Credentials' outcome and change only the unique keys cache |
| AuthPasswordTrait.SignInWithCredentials | src/Traits/AuthPasswordTrait.php:59-80 | failed credentials raise with no session written; otherwise success returns the user, and the sessions are as the session step of make: a session of the same user, ip and agent is prolonged in place and the step succeeds; otherwise it fails, with the sessions unchanged and token_exceeed_max_try_generated, exactly when all 20 candidate tokens are taken, and on success exactly one session is appended (next id, the grant's user and id, the ip, the agent, end time now + lifetime, a token no session holds), for the user's password grant |
| AuthPasswordTrait.LoginByPassword | src/Traits/AuthPasswordTrait.php:52-81 | a failed check raises with no session written; otherwise the session step as in SignInWithCredentials, which fails exactly when no session is prolonged and all 20 candidate tokens are taken |
| AuthPasswordTrait.LoginAfterRegistration | src/Traits/AuthPasswordTrait.php:22-81 | a newly registered user is found by its login, with the grant registration made, and the registration's password verifies |
| AuthPasswordTrait.ChangePassword | src/Traits/AuthPasswordTrait.php:90-95 | password_grant_not_found with nothing written when the user has no password grant; otherwise the grant's change, saved only when it succeeds |
| AuthPasswordTrait.SetPassword | src/Traits/AuthPasswordTrait.php:103-106 | one new password grant for the user, whatever grants exist |
| BaseOauth.RenameDataKeys | src/Help/BaseOauth.php:123-131 | the loop computes the renaming over the original entries, in order |
| BaseOauth.RenameLeavesOthers | src/Help/BaseOauth.php:123-131 | a key neither renamed nor a replacement keeps its value |
| BaseOauth.RenameMoves | src/Help/BaseOauth.php:123-131 | a renamed entry's value ends under its replacement and its old key is gone |
| BaseOauth.RenamedData | src/Help/BaseOauth.php:123-131 | on a PHP array: every renamed key moves with its value, and every other key (not a replacement) is untouched |
| BaseOauth.AsOptionalString | src/Help/BaseOauth.php:179-191 | null exactly when the value is null |
| BaseOauth.AccessByParams | src/Help/BaseOauth.php:110-117 | an empty code raises oauth_code_empty, an array code a TypeError; otherwise the provider's access request gets the code as text |
| BaseOauth.Resolve | src/Help/BaseOauth.php:138-143 | succeeds exactly when both fetches do, with their results; the first failure is raised |
| BaseOauth.Oauth.constructor | src/Help/BaseOauth.php:35-39 | the provider defaults merged recursively with the given config; nothing fetched |
| BaseOauth.Oauth.FetchAccessByParams | src/Help/BaseOauth.php:110-117 | the same outcome as AccessByParams with this handler's config |
| BaseOauth.Oauth.ResolveLogin | src/Help/BaseOauth.php:138-143 | success exactly when Resolve succeeds, storing both results; a failure keeps the user data |
| BaseOauth.Oauth.GetData | src/Help/BaseOauth.php:167-173 | the prepared data is computed on the first call and whenever the cache is empty, and then cached |
| BaseOauth.Oauth.GetSourceKey | src/Help/BaseOauth.php:179-182 | null before resolution; afterwards set exactly when the user data has the key field |
| BaseOauth.Oauth.GetAccessToken | src/Help/BaseOauth.php:188-191 | null before resolution; afterwards set exactly when the access data has access_token |
| BaseOauth.GetDataTwice | src/Help/BaseOauth.php:167-173 | a non-empty prepared result is returned again unchanged |
| AuthForeignTrait.Handler | src/Auth.php:217-229 | the handler's error, or the provider and config of the source |
| AuthForeignTrait.GetForeignLoginLink | src/Traits/AuthForeignTrait.php:20-23 | the supported-sources TypeError, or auth_not_supported for an unsupported source; otherwise the provider's link for the handler's config |
| AuthForeignTrait.GrantStep | src/Traits/AuthForeignTrait.php:40-47 | an existing grant for the source and key is reused; otherwise a user is inserted from the data and a grant is made for it |
| AuthForeignTrait.ForeignPlan | src/Traits/AuthForeignTrait.php:32-52 | the handler, then resolution, then the grant step, each failure raised in that order |
| AuthForeignTrait.ForeignLoginTwice | src/Traits/AuthForeignTrait.php:32-52 | signing in twice with the same provider answer reuses the grant and user of the first time |
| AuthForeignTrait.Connect | src/Traits/AuthForeignTrait.php:35-38 | the handler's error, or a handler that has resolved the login exactly as Resolve does |
| AuthForeignTrait.ForeignGrant | src/Traits/AuthForeignTrait.php:38-47 | the tables and grant GrantStep gives for the handler's key and prepared data: the grant found, or a new user and a new grant; an error leaves both tables untouched |
| AuthForeignTrait.LoginByForeign | src/Traits/AuthForeignTrait.php:32-52 | a failed plan raises with nothing written; otherwise the users and grants are the plan's, and the session step for its grant returns that user id; the sessions are as the session step of make: a session of the same user, ip and agent is prolonged in place and the step succeeds; otherwise it fails, with the sessions unchanged and token_exceeed_max_try_generated, exactly when all 20 candidate tokens are taken, and on success exactly one session is appended (next id, the grant's user and id, the ip, the agent, end time now + lifetime, a token no session holds) |
| AuthForeignTrait.LoginWithHandler | src/Traits/AuthForeignTrait.php:38-51 | a failed grant step raises with nothing written; otherwise the tables are the grant step's, then the session step as in SignInWithGrant, which fails exactly when no session is prolonged and all 20 candidate tokens are taken |
| AuthForeignTrait.SignInWithGrant | src/Traits/AuthForeignTrait.php:49-51 | success returns the grant's user id, and the sessions are as the session step of make: a session of the same user, ip and agent is prolonged in place and the step succeeds; otherwise it fails, with the sessions unchanged and token_exceeed_max_try_generated, exactly when all 20 candidate tokens are taken, and on success exactly one session is appended (next id, the grant's user and id, the ip, the agent, end time now + lifetime, a token no session holds) |
| PasswordAuth.Registration | src/Actions/PasswordAuth.php:22-44 | the older registration has the same guards and effects as registrationByPassword |
| PasswordAuth.Login | src/Actions/PasswordAuth.php:52-81 | the older login: the guards of LoginCheck raise with no session written; otherwise the session step of loginByPassword for the user's password grant: the session step of make: a session of the same user, ip and agent is prolonged in place and the step succeeds; otherwise it fails, with the sessions unchanged and token_exceeed_max_try_generated, exactly when all 20 candidate tokens are taken, and on success exactly one session is appended (next id, the grant's user and id, the ip, the agent, end time now + lifetime, a token no session holds) |
| PasswordAuth.ChangePassword | src/Actions/PasswordAuth.php:90-95 | the older changePassword, with the same outcome as the newer one |
| PasswordAuth.SetPassword | src/Actions/PasswordAuth.php:103-106 | one new password grant for the user |
| ForeignAuth.GetLink | src/Actions/ForeignAuth.php:20-23 | the older link: the supported-sources TypeError, or auth_not_supported for an unsupported source; otherwise the provider's link |
| ForeignAuth.Login | src/Actions/ForeignAuth.php:32-52 | the older foreign sign-in: a failed plan raises with nothing written; otherwise the plan's users and grants and the session step of loginByForeign, which fails exactly when no session is prolonged and all 20 candidate tokens are taken |
| Config.GetProperty | src/Helpers/Config.php:92-100 | a set property is read; a missing one is null while undefined reads are ignored, and raises naming the file and property otherwise |
| Config.ListOfContents | src/Helpers/Config.php:108-119 | the list succeeds exactly when every name can be read, and then holds each name's value |
| Config.ReadList | src/Helpers/Config.php:108-119 | the loop gives exactly the list of the names' values, or the first read error |
| Config.ListOfStops | src/Helpers/Config.php:108-119 | the first failing name decides the error, whatever follows |
| Config.PrepareEntry | src/Helpers/Config.php:45-55 | preparing an entry keeps its key |
| Config.Prepared | src/Helpers/Config.php:45-55 | the prepared entries correspond one to one with the new data |
| Config.PreparedIntoEmpty | src/Helpers/Config.php:34-55 | merging into empty data never fails |
| Config.PreparedStops | src/Helpers/Config.php:45-55 | the first entry that fails decides the error |
| Config.MergedDataLookup | src/Helpers/Config.php:45-55 | after mergeData, a string key of the new data holds its merged value and every other string key keeps its old value; the integer-keyed values are the old ones followed by the new ones, renumbered from 0 (array_merge appends them); the keys stay distinct |
| Config.MergedValueCases | src/Helpers/Config.php:45-55 | a non-associative value replaces the old one; an associative one merged into an old array keeps the old string keys it does not mention, takes the ones it does, and appends its integer-keyed values after the old ones, renumbered |
| Config.LoadNonAssocRaisesArgumentCount | src/Helpers/Config.php:63-74 | non-associative file data raises sprintf's argument-count error, not the intended message |
| Config.FileWinsOverDefault | src/Helpers/Config.php:34-74 | after construction a string key of the file wins over the defaults, and a default string key the file lacks is kept (integer keys are appended, as MergedDataLookup states) |
| Config.Config.constructor | src/Helpers/Config.php:34-38 | an empty configuration that ignores undefined reads |
| Config.Config.Init | src/Helpers/Config.php:34-38 | the data becomes the constructed data exactly when construction succeeds |
| Config.Config.MergeData | src/Helpers/Config.php:45-55 | the data becomes the merged data exactly when merging succeeds, with array_merge's semantics (string keys overwritten, integer keys appended; MergedDataLookup); a failure leaves it |
| Config.Config.Load | src/Helpers/Config.php:63-74 | a missing or malformed file raises with the data unchanged; otherwise the file is merged in |
| Config.Config.GetValue | src/Helpers/Config.php:92-100 | get reads a property with an empty file name |
| Config.Config.GetList | src/Helpers/Config.php:108-119 | no names give all data; otherwise the list of the names' values |
| ApiConfig.ApiConfig.constructor | src/Helpers/ApiConfig.php:43-50 | nothing loaded yet, undefined reads ignored |
| ApiConfig.ApiConfig.Init | src/Helpers/ApiConfig.php:43-50 | after loading, the non-empty defaults are merged under the file's data; a failed load raises with nothing loaded |
| ApiConfig.ApiConfig.Load | src/Helpers/ApiConfig.php:56-69 | reads the file only while nothing is loaded; a failure leaves the flag down |
| ApiConfig.ApiConfig.UnignoreUndefined | src/Helpers/ApiConfig.php:75-79 | undefined reads raise from now on |
| ApiConfig.ApiConfig.GetValue | src/Helpers/ApiConfig.php:87-95 | get reads a property, naming the file path in its error |
| ApiConfig.ApiConfig.GetList | src/Helpers/ApiConfig.php:103-114 | no names give all data; otherwise the list of the names' values |
| ApiConfig.LoadTwice | src/Helpers/ApiConfig.php:56-69 | the file is read at most once: a second load changes nothing |
| ApiConfig.LoadedWinsOverDefault | src/Helpers/ApiConfig.php:43-50 | a loaded string key wins over the defaults; a default string key the file lacks is kept; the integer-keyed values are the defaults' followed by the file's, renumbered |
| BaseApi.Pair | src/Helpers/BaseApi.php:57-67 | a parameter becomes "key=value", and an array value is a TypeError |
| BaseApi.Pairs | src/Helpers/BaseApi.php:57-67 | all pairs succeed exactly when no value is an array, one pair per parameter in order |
| BaseApi.Link | src/Helpers/BaseApi.php:57-67 | no parameters give the URI itself; otherwise it fails exactly when a pair does |
| BaseApi.QueryStep | src/Helpers/BaseApi.php:57-67 | each pair is joined with "?" before the first and "&" before the others |
| BaseApi.PairsSnoc | src/Helpers/BaseApi.php:57-67 | one more parameter whose pair succeeds adds that pair at the end of the pairs |
| BaseApi.BuildLink | src/Helpers/BaseApi.php:57-67 | the loop builds exactly Link |
| BaseApi.LinkParses | src/Helpers/BaseApi.php:57-67 | a built link is the URI, then "?", then the pairs joined by "&" |
| BaseApi.AccessByParams | src/Helpers/BaseApi.php:133-138 | an empty code raises ERROR_OAUTH_CODE_EMPTY, an array a TypeError; otherwise the access request gets the code |
| BaseApi.NewConfig | src/Helpers/BaseApi.php:43-49 | a configuration of the source's path, or the load error |
| BaseApi.SharedConfigSlot.constructor | src/Helpers/BaseApi.php:37 | the static slot starts empty |
| BaseApi.SharedConfigSlot.Config | src/Helpers/BaseApi.php:43-49 | as written: a filled slot is returned whatever source asks |
| BaseApi.SecondSourceGetsFirstConfig | src/Helpers/BaseApi.php:37-49 | as written, a second source is handed the first source's configuration |
| BaseApi.SourceConfigs.constructor | src/Helpers/BaseApi.php:43-49 | no configuration memoised yet |
| BaseApi.SourceConfigs.Config | src/Helpers/BaseApi.php:43-49 | one memoised configuration per source, always of that source's path |
| BaseApi.EachSourceGetsOwnConfig | src/Helpers/BaseApi.php:43-49 | with one slot per source, each source gets its own configuration |
| AuthAdapter.IncludedDefaultsAsWritten | src/config.default.php:32 | including the defaults raises, because the errors map names an undeclared constant |
| AuthAdapter.LoadedData | src/AuthAdapter.php:71-78 | the defaults, then the custom file when a path is set; an include error is raised |
| AuthAdapter.ListItem | src/AuthAdapter.php:86-90 | the list's item, or null; raises only for a missing list when undefined reads raise |
| AuthAdapter.Raised | src/AuthAdapter.php:185-195 | the message itself, or formatted with the props; null or array entries are TypeErrors and a format error is a ValueError |
| AuthAdapter.ErrorFor | src/AuthAdapter.php:185-195 | throwError always raises: the read error, or what the code's entry raises |
| AuthAdapter.OneArgumentEntry | src/AuthAdapter.php:190-194 | an entry with one `%s` raises its text with the one prop in place of the `%s` |
| AuthAdapter.TwoArgumentEntry | src/AuthAdapter.php:190-194 | an entry with two `%s` raises its text with the two props in order |
| AuthAdapter.FirstEntryRead | src/AuthAdapter.php:86-90 | reading a key gives its first entry |
| AuthAdapter.DefaultNotSupportedMessage | src/config.default.php:21 | with the default errors map, the "not supported" message names the source |
| AuthAdapter.DefaultNotFoundMessage | src/config.default.php:22 | with the default errors map, the "not found" message names the source |
| AuthAdapter.DefaultActionNotFoundMessage | src/config.default.php:23 | with the default errors map, the "action not found" message names the action and the source |
| AuthAdapter.DefaultUserNotFoundMessage | src/config.default.php:25 | with the default errors map, the user-not-found message is the map's text |
| AuthAdapter.RunOutcome | src/AuthAdapter.php:159-177 | the missing `sources` list's error (when undefined reads raise), then ERROR_SOURCE_CONTROLLER_NOT_SUPPORTED for an empty entry, a TypeError for an array entry, ERROR_SOURCE_CONTROLLER_NOT_FOUND for a missing class and ERROR_SOURCE_CONTROLLER_ACTION_NOT_FOUND with `<action>Action` and the source for a class without the method; dispatch, with the params, exactly when none applies |
| AuthAdapter.ModelTableName | src/AuthAdapter.php:203-213 | the class's table, or ERROR_MODEL_TABLE_NOT_FOUND when it is empty |
| AuthAdapter.Adapter.constructor | src/AuthAdapter.php:71-78 | no configuration, no database and no custom path yet |
| AuthAdapter.Adapter.GetConfig | src/AuthAdapter.php:71-78 | made once from the loaded data, then memoised |
| AuthAdapter.Adapter.GetConfigListItem | src/AuthAdapter.php:86-90 | the list item on the memoised configuration |
| AuthAdapter.Adapter.ThrowError | src/AuthAdapter.php:185-195 | the raised error of the code on the memoised configuration |
| AuthAdapter.Adapter.Run | src/AuthAdapter.php:159-177 | the dispatch of RunOutcome on the memoised configuration |
| AuthAdapter.Adapter.GetModelTableName | src/AuthAdapter.php:203-213 | the table name on the memoised configuration |
| AuthAdapter.Adapter.SetDb | src/AuthAdapter.php:137-140 | the database is stored |
| AuthAdapter.Adapter.GetDb | src/AuthAdapter.php:146-150 | the stored database, or a TypeError when none is set |
| AuthAdapter.SetThenGetDb | src/AuthAdapter.php:137-150 | the database stored is the one read back |
| AuthAdapter.ConfigTwice | src/AuthAdapter.php:71-78 | a second call returns the first configuration |
| AuthAdapter.ThrowErrorAsWritten | src/config.default.php:32 | as written, every throwError on a fresh adapter raises the undefined-constant error |
| AuthAdapter.ThrowNotSupported | src/AuthAdapter.php:185-195 | with the constant declared, throwError for an unsupported source raises the map's message naming the source |
| AuthAdapter.DefaultsKept | src/AuthAdapter.php:71-78 | without a custom file, each non-associative default under a string key is kept |
| Responses.ErrorDetail | src/Sources/FbOauth.php:93-104 | the JSON of response.error, else of error, after ": "; null when neither is set |
| FbOauth.ReplacesNoChains | src/Sources/FbOauth.php:28-32 | the rename map has no chains and no shared targets |
| FbOauth.AccessQuery | src/Sources/FbOauth.php:74-86 | the query holds client_id, client_secret and redirect_uri from the config and the code, in that order |
| FbOauth.FetchAccess | src/Sources/FbOauth.php:74-86 | the request's error, or oauth_empty_access for an empty answer, or the answer |
| FbOauth.UserDataQuery | src/Sources/FbOauth.php:111-114 | the query carries the access token and the configured fields |
| FbOauth.FetchUserDataByAccess | src/Sources/FbOauth.php:111-114 | a missing or array token is a TypeError; otherwise the request to "me" |
| FbOauth.CheckResponse | src/Sources/FbOauth.php:93-104 | raises exactly when the answer or its response is empty, with oauth_error_response and the detail |
| FbOauth.PictureStep | src/Sources/FbOauth.php:152-154 | an array picture becomes its data url; other keys untouched |
| FbOauth.BdateStep | src/Sources/FbOauth.php:155-160 | a set bdate is reformatted; other keys untouched |
| FbOauth.SexId | src/Sources/FbOauth.php:161-164 | female is 1, male is 2, anything else null |
| FbOauth.SexStep | src/Sources/FbOauth.php:161-164 | a set sex becomes its id; other keys untouched |
| FbOauth.LocationStep | src/Sources/FbOauth.php:165-169 | a location name gives city and region; other keys untouched |
| FbOauth.Source | src/Sources/FbOauth.php:20-52 | the source's name, key field and defaults |
| FbOauth.BdateFormat | src/Sources/FbOauth.php:155-160 | corrected: "m/d/y" becomes y-MM-DD, each part two digits of the same value |
| FbOauth.MonthTakesDay | src/Sources/FbOauth.php:155-160 | as written the month is replaced by the padded day; corrected it is the padded month |
| FbOauth.PreparedUntouched | src/Sources/FbOauth.php:148-171 | a key the reshaping blocks do not write keeps its value from the renaming |
| FbOauth.PreparedId | src/Sources/FbOauth.php:148-151 | the id moves to fb_id |
| FbOauth.PreparedBirthday | src/Sources/FbOauth.php:148-171 | corrected: the birthday becomes bdate as y-MM-DD |
| FbOauth.PreparedBirthdayAsWritten | src/Sources/FbOauth.php:148-171 | as written, a birthday of one-digit month and day becomes bdate "y-00d-0d", losing the month |
| FbOauth.PreparedGender | src/Sources/FbOauth.php:148-171 | the gender becomes sex: 1 for female, 2 for male |
| FbOauth.PreparedPicture | src/Sources/FbOauth.php:148-171 | the picture becomes its data url |
| FbOauth.PreparedLocation | src/Sources/FbOauth.php:148-171 | "city,region" gives city and region |
| GoogleOauth.ReplacesNoChains | src/Sources/GoogleOauth.php:30-33 | the rename map has no chains and no shared targets |
| GoogleOauth.CastToArray | src/Sources/GoogleOauth.php:97 | an array is kept; a scalar becomes a one-element list |
| GoogleOauth.FetchAccessChecked | src/Sources/GoogleOauth.php:72-98 | no answer and an empty body give oauth_empty_access, a parse error oauth_error_response; otherwise the body as an array |
| GoogleOauth.TokenInfoQuery | src/Sources/GoogleOauth.php:105-134 | exactly the present keys among access_token, id_token, token_type and expires_in, with their values |
| GoogleOauth.Picked | src/Sources/GoogleOauth.php:105-134 | `compact` of the names present, with their values |
| GoogleOauth.FetchUserDataByAccess | src/Sources/GoogleOauth.php:105-134 | the request's error, or oauth_empty_user_data for an empty answer, or the answer |
| GoogleOauth.Source | src/Sources/GoogleOauth.php:141-144 | the source's name and defaults; the key field is email |
| GoogleOauth.PreparedKeys | src/Sources/GoogleOauth.php:150-155 | given_name and family_name move to first_name and last_name; other keys untouched |
| GoogleOauth.SourceKeyIsEmail | src/Sources/GoogleOauth.php:141-144 | the source key is the user's email |
| GoogleOauth.DefaultsKept | src/Sources/GoogleOauth.php:39-48 | a default string key the configuration lacks is kept |
| LegacyFbOauth.Gender | src/Sources/Fb/FbOauth.php:56-59 | female is 1, male is 2, anything else null |
| LegacyFbOauth.CheckResponse | src/Sources/Fb/FbOauth.php:101-110 | raises exactly when the answer or its response is empty, with the error text and detail |
| LegacyFbOauth.PictureStep | src/Sources/Fb/FbOauth.php:147-149 | a non-empty picture becomes its data url; other keys untouched |
| LegacyFbOauth.BirthdayStep | src/Sources/Fb/FbOauth.php:150-156 | a birthday becomes birthdate and is removed; other keys untouched |
| LegacyFbOauth.GenderStep | src/Sources/Fb/FbOauth.php:157-159 | a gender becomes its id; other keys untouched |
| LegacyFbOauth.LocationStep | src/Sources/Fb/FbOauth.php:160-164 | a location gives city and region; other keys untouched |
| LegacyFbOauth.FormattedBirthday | src/Sources/Fb/FbOauth.php:150-156 | corrected: "m/d/y" becomes DD.MM.y, each part two digits of the same value |
| LegacyFbOauth.RepaddedBirthday | src/Sources/Fb/FbOauth.php:150-156 | as written "0m/0d/y" becomes "00d.00m.y"; corrected "0d.0m.y" |
| LegacyFbOauth.BirthdayFormatted | src/Sources/Fb/FbOauth.php:147-164 | after all the steps, a non-empty birthday is the formatted birthdate and the birthday key is gone |
| LegacyFbOauth.LocationSplit | src/Sources/Fb/FbOauth.php:160-164 | a location "city,region" gives city and region and stays |
| LegacyFbOauth.FormattedGender | src/Sources/Fb/FbOauth.php:157-159 | female is 1, male is 2 |
| LegacyFbOauth.FormattedLocation | src/Sources/Fb/FbOauth.php:160-164 | "city,region" gives city and region |
| LegacyFbOauth.FormattedPicture | src/Sources/Fb/FbOauth.php:147-149 | the picture becomes its data url |
| LegacyVkOauth.CheckResponse | src/Sources/Vk/VkOauth.php:144-153 | raises exactly when the answer or its response is empty, with the error text and detail |
| LegacyVkOauth.QueryParams | src/Sources/Vk/VkOauth.php:94-100 | the version read from the configuration, then the parameters |
| LegacyVkOauth.UpToComma | src/Sources/Vk/VkOauth.php:172-175 | the prefix before the first comma |
| LegacyVkOauth.BeforeComma | src/Sources/Vk/VkOauth.php:172-175 | ids without a comma give the empty string; otherwise the part before the first comma |
| LegacyVkOauth.UserDataQuery | src/Sources/Vk/VkOauth.php:163-180 | the query of token, fields (configured ones when none are given) and ids |
| LegacyVkOauth.GetUserData | src/Sources/Vk/VkOauth.php:163-180 | a query or version error is raised; a failed response raises its error; any other response succeeds, giving the whole response with non-empty ids and its first user otherwise |
| LegacyVkOauth.IdsWithoutComma | src/Sources/Vk/VkOauth.php:172-175 | ids without a comma are sent as the empty string |
| LegacyVkOauth.IdsWithComma | src/Sources/Vk/VkOauth.php:172-175 | "first,rest" is cut to first |
| LegacyVkOauth.VersionFirst | src/Sources/Vk/VkOauth.php:94-100 | the version is the query's first parameter |
| LegacyVkOauth.MergeKeepsFirstKey | src/Sources/Vk/VkOauth.php:94-100 | array_merge keeps the first array's first string key first |
| LegacyVkOauth.PictureStep | src/Sources/Vk/VkOauth.php:207-208 | photo_max moves to picture |
| LegacyVkOauth.BdateStep | src/Sources/Vk/VkOauth.php:209-215 | a bdate becomes birthdate and is removed; other keys untouched |
| LegacyVkOauth.SexStep | src/Sources/Vk/VkOauth.php:216-219 | sex moves to gender |
| LegacyVkOauth.TitleStep | src/Sources/Vk/VkOauth.php:220-225 | a place becomes its title |
| LegacyVkOauth.FormattedBdate | src/Sources/Vk/VkOauth.php:209-215 | a non-empty bdate is replaced by a birthdate written from the data, whatever the date format |
| LegacyVkOauth.BirthdateOfDate | src/Sources/Vk/VkOauth.php:210-213 | corrected: bdate "d.m.y" reads as DD.MM.y |
| LegacyVkOauth.BirthdateFromMissingKey | src/Sources/Vk/VkOauth.php:209-215 | as written, a bdate without a bday gives "0.0." |
| LegacyVkOauth.MissingKeyDate | src/Sources/Vk/VkOauth.php:210 | exploding the missing bday gives "0.0." |
| LegacyVkOauth.FormattedBirthdate | src/Sources/Vk/VkOauth.php:209-215 | corrected: "d.m.y" becomes DD.MM.y, each part two digits of the same value |
| LegacyVkOauth.FormattedPicture | src/Sources/Vk/VkOauth.php:207-208 | picture is photo_max and photo_max is gone |
| LegacyVkOauth.FormattedSex | src/Sources/Vk/VkOauth.php:216-219 | gender is the sex and sex is gone |
| LegacyVkOauth.FirstStepsKeep | src/Sources/Vk/VkOauth.php:207-219 | a key the picture, bdate and sex blocks do not name passes them unchanged |
| LegacyVkOauth.FormattedCity | src/Sources/Vk/VkOauth.php:220-222 | a non-empty city becomes its title |
| LegacyVkOauth.FormattedCountry | src/Sources/Vk/VkOauth.php:223-225 | a non-empty country becomes its title |
| LegacyGoogleOauth.ReplacesNoChains | src/Sources/Google/GoogleOauth.php:54-58 | the rename map has no chains and no shared targets |
| LegacyGoogleOauth.AccessChecked | src/Sources/Google/GoogleOauth.php:99-107 | an empty response, an undecodable one and a non-array one each raise their error; otherwise the decoded array |
| LegacyGoogleOauth.RenamedKeys | src/Sources/Google/GoogleOauth.php:169-177 | picture, given_name and family_name move to pic, first_name and last_name |
| LegacyGoogleOauth.NameStep | src/Sources/Google/GoogleOauth.php:186-189 | a name is split into first and last name |
| LegacyGoogleOauth.MoveStep | src/Sources/Google/GoogleOauth.php:190-197 | a value moves to its new key |
| LegacyGoogleOauth.FormattedName | src/Sources/Google/GoogleOauth.php:184-199 | "first last" gives first_name and last_name |
| LegacyGoogleOauth.NameSplits | src/Sources/Google/GoogleOauth.php:186-191 | a name "first last" gives first_name and last_name and is removed, given_name and family_name untouched |
| LegacyGoogleOauth.SplitName | src/Sources/Google/GoogleOauth.php:187 | exploding "first last" gives both words |
| LegacyGoogleOauth.FormattedGivenNames | src/Sources/Google/GoogleOauth.php:184-199 | without a name, given_name and family_name give first_name and last_name |
| Birthdates.PadTwoDigits | src/Sources/Fb/FbOauth.php:152-153 | padding one or two digits gives two digits of the same value |
| Birthdates.RepaddedAsWritten | src/Sources/Fb/FbOauth.php:152-153 | as written a zero-led digit "0c" is padded again, to "00c"; corrected it stays "0c" |
| Birthdates.ExplodeDate | src/Sources/Fb/FbOauth.php:151 | exploding "a/b/c" gives its three parts |
| Birthdates.DigitsHoldNoSeparator | src/Sources/Fb/FbOauth.php:151 | digits hold no separator |

## Left out

- Network and I/O are parameters. This covers the providers' HTTP exchanges (`exec`, `queryApi`, `execCurl`), `getAuthLink`, the older sources' `access`, and `uniqid`.
- Controllers, cookies and the request object are left out. `parseUserAgent` and `AuthException`'s message parsing are left out too.
- `AuthException` cannot be loaded as written: src/AuthException.php:27 lacks its semicolon, and the class has no `build` method although every flow calls `AuthException::build`. The model raises `Build(name, args)` values in its place.
- `AuthSession::make` cannot run as written: `App` (line 75), `Token` (line 88) and `Cookie` (line 89) are not imported, `Token::generateUniqueIn` is an instance method called statically, and `AuthAdapter::AUTH_TOKEN_ALIVE` (line 78) is commented out at src/AuthAdapter.php:120. The model takes the request's IP and user agent, the clock, the lifetime and the token draws as parameters.
- Auth.LoggedUserIdByCookie: `AuthSession::findUserIdByToken` (src/Auth.php:287) is defined nowhere, neither in AuthSession nor in `Helpers/Model`, which has no `__callStatic`. The model reads the user of the first session holding the token and does not check its end time. A non-string cookie gives no user, where PHP's `string` parameter would coerce or refuse it.
- Auth.Auth.Init: the constructor includes src/config.default.php, which raises as written at line 32 (the undeclared AuthAdapter::ERROR_AUTH_GRANT_RECOVERY_NOT_FOUND) and line 36 (the undeclared AuthGrant::STATUS_UNKNOWN). `Init` takes what that file returns as the free parameter `defaultConfig` and does not model the include.
- AuthForeignTrait.Handler: every class the provider lookup knows is taken to implement OauthInterface, so the return type of getOauth is not checked.
- FbOauth.Source: the provider the newer flows see uses the corrected `PrepareData`. `PrepareDataAsWritten` is the code as written; the two differ only in the bdate month (FbOauth.PreparedBirthdayAsWritten).
- AuthConfirm.FindByUserIdAnd (the to column): src/Traits/AuthConfirmTrait.php:137 calls `findByUserIdAndTo`, which no model class defines (AuthConfirm.php has only `findByUserIdAndCode`, line 115). The model assumes the lookup the name promises: the oldest row of that user for that address. Line 142 then calls `isCompleted()`, which no model class defines either (src/Models/AuthRecovery.php:54 has it only in a comment); the model reads it as `complete_time` being set (AuthConfirm.IsCompleted).
- LoginUser.FoundUserConflicts: the SQL `=` of findByUniqueKeys is modelled as equality of values. A database collation or type coercion that matches values which differ as values (case, trailing spaces, "1" and 1) is not modelled.
- `Actions/CodeAuth.php` is not part of this model.
- `AuthRecovery` is modelled only as the second confirmation table.
- The newer `Sources/VkOauth.php` is left out: that class cannot be loaded as written.
- The thin validators (`CodeField`, `PasswordField`, the fieldsets' `presetFields`) are left out. Their checks are function parameters.
- PHP arrays: a key is an integer key when it is the canonical decimal spelling of a non-negative integer (Php.IsIntKey). Negative integer keys such as "-1" are read as string keys. The next free index is the largest integer key plus one; PHP's memory of a larger index that was unset is not kept.
- The merge lemmas (Php.ArrayMergeLookup, Php.MergeKeepsOtherKeys and the lemmas built on them) require distinct keys (Php.KeysDistinct), which every PHP array has.
- Config.FileWinsOverDefault, ApiConfig.LoadedWinsOverDefault, GoogleOauth.DefaultsKept and AuthAdapter.DefaultsKept: stated for string keys. The integer keys are appended and renumbered, as Config.MergedDataLookup, Php.ArrayMergeInts and Php.MergeRecursiveInts state.
- `setForeign`'s write is left out.
- `isAssoc`, class existence, the interface test, the provider lookup, the password hash, the clock and random draws are parameters.
- Objects and arrays are one value kind. For example, the older Vk `getUserData` declares an `object` return type, and PHP would refuse the response list there.
- String offsets and array-to-string conversions are read through `At` and `ToStr` and do not raise.
- Method names are compared case-sensitively, although PHP compares them case-insensitively.
- Failures of `new $controllerClass` are left out.
- `Config::unignoreUndefined` is left out, and so is concurrency.
- BaseOauth.Oauth.GetData: requires the user data to be fetched. Without it the PHP code would prepare null.
- AuthGrant.GetStringStatus and AuthAdapter.ErrorFor: `sprintf`/`vsprintf` are modelled by Php.Format, which knows only `%s` and `%%` and copies every other character. Other conversions (`%d`, `%05.2f`, argument numbers such as `%1$s`) and PHP 8's ValueError for an unknown conversion are not modelled. Too few arguments raise, as in PHP 8.
- AuthConfirm.RecipientType: models the corrected getRecipientType, with the validation library's EmailField and PhoneField (imported in src/Validators/EmailOrPhoneField.php:10-11). src/Models/AuthConfirm.php imports neither, so as written `new EmailField` (line 70) raises "class not found" (AuthConfirm.StoredTypeAsWritten). The flows never reach it: they always pass make the validated type.
- AuthConfirm.EmailRecipientIsTypedEmail: its no-type case holds for the corrected getRecipientType only; as written that case raises (AuthConfirm.UntypedEmailRaisesAsWritten).
- LoginUser.FindByUniqueKeysFilled: `findByUniqueKeysFilled` (called at src/Traits/AuthCodeTrait.php:64,90 and src/Traits/AuthConfirmTrait.php:31,56,130) is defined nowhere: not in LoginUserTrait, not in LoginUserInterface, not in the test user class. The model assumes the lookup the name and its arguments promise: the first user whose field named by the type holds the recipient.
- AuthGrant.CreateWithPassword: `AuthGrant::createWithPassword` (src/Actions/PasswordAuth.php:41,105) is defined nowhere. The model assumes it inserts one password grant holding the password's hash, as makeWithPassword does at its call sites.
- AuthSession.Make: models the corrected make, not the code as written. It stores the end time with the 24-hour clock (src/Models/AuthSession.php:78 uses the 12-hour `h`; AuthSession.EndTimeAsWritten) and gives the cookie the new session's token (lines 88-91 read it from the session that was not found; AuthSession.InsertCookieAsWrittenLosesToken). Like the PHP code it ignores the grant token. AUTH_TOKEN_ALIVE is the `alive` parameter.
- AuthGrant.FindWithPasswordByUserId, MakeWithPassword, SetPasswordHash, ChangePassword, MakeWithCode, FindForeign and MakeForeign: their bodies are not in the grant model. Their contracts follow their call sites. Neither `setPasswordHash` (src/Traits/AuthConfirmTrait.php:104) nor `changePassword` (src/Traits/AuthPasswordTrait.php:94) is followed by `save()` at its call site; the model assumes these methods persist the grant, and writes it with AuthGrant.Save.

## Findings

| source | as written | input that shows it | evidently intended | confidence | as-written member | corrected member |
|---|---|---|---|---|---|---|
| src/Models/AuthSession.php:78 | end_time formatted with the 12-hour `h` | a one-hour session made at 13:00 is stored as ending at 02:00 | 24-hour `H` | not executed | AuthSession.EndTimeAsWrittenIsInThePast | AuthSession.SessionLivesForItsLifetime |
| src/Models/AuthSession.php:88-91 | the cookie is set from `$auth->token`, where `$auth` is the session that was not found | any first sign-in on a new ip or user agent | the new session's `$token` | not executed | AuthSession.InsertCookieAsWrittenLosesToken | AuthSession.Make |
| src/Models/AuthConfirm.php:68-75 | `new EmailField` and `new PhoneField` without an import, inside namespace Evas\Auth\Models | make for an e-mail recipient with no type raises "class not found" | the validation library's fields, as EmailOrPhoneField.php imports them | not executed | AuthConfirm.UntypedEmailRaisesAsWritten | AuthConfirm.EmailRecipientIsTypedEmail |
| src/Models/AuthGrantConfirm.php:45-48 | return type `?AuthConfirm` for an AuthGrantConfirm row | any code present in the table | return the grant confirmation row | not executed | AuthGrantConfirm.ConfirmByCodeAsWrittenNeverSucceeds | AuthGrantConfirm.ConfirmByCode |
| src/config.default.php:32 | errors map uses the undeclared AuthAdapter::ERROR_AUTH_GRANT_RECOVERY_NOT_FOUND | any call that loads the adapter's configuration | a declared constant | not executed | AuthAdapter.ThrowErrorAsWritten | AuthAdapter.ThrowNotSupported |
| src/Helpers/BaseApi.php:37-49 | one static `$config` shared by every source class | Vk's config, then Google's | one configuration per source | not executed | BaseApi.SecondSourceGetsFirstConfig | BaseApi.EachSourceGetsOwnConfig |
| src/Sources/FbOauth.php:155-160 | month padded with the day | bdate "5/7/1990" gives "1990-007-07" | "1990-05-07" | not executed | FbOauth.MonthTakesDay | FbOauth.BdateFormat |
| src/Sources/Fb/FbOauth.php:150-156 | two-digit values padded again | birthday "05/07/1990" gives "007.005.1990" | "07.05.1990" | not executed | LegacyFbOauth.RepaddedBirthday | LegacyFbOauth.FormattedBirthday |
| src/Sources/Vk/VkOauth.php:209-215 | reads `bday` after testing `bdate` | {bdate: "5.7.1990"} gives "0.0." | "05.07.1990" | not executed | LegacyVkOauth.BirthdateFromMissingKey | LegacyVkOauth.FormattedBirthdate |
