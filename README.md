# Nowcoder Community: event consumer and account rules in Dafny

This project models two parts of the Nowcoder Community forum back end.

**The event consumer** (`EventConsumer.java`) has four Kafka handlers:

- comment, follow and like events become one system notification each;
- publish events save the post to the search index;
- delete events remove the post from the search index;
- share events launch an external renderer (`wkhtmltoimage`) and schedule an `UploadTask`.

Every 500 ms the upload task checks whether the rendered image exists and uploads it to Qiniu object storage. It cancels its own schedule after a successful upload, before a fourth attempt, or once more than 30 seconds have passed.

**The account rules** (`UserService.java`) are registration, activation, login, logout, password change, the role of a user and the Redis cache-aside lookup of users.

Files and modules:

- `common.dfy` (`Common`): `Option`, the `Value` of a `Map<String, Object>`, Java exceptions and `Outcome` (returned or thrown).
- `upload_task.dfy` (`UploadTasks`): the task state, `Step` (one call of `run`), `Tick`/`Ticks` (the scheduler calling it), the lemmas about runs, and the class `UploadTask`, whose `Run` updates its fields in place and is proved equal to `Step`.
- `event_consumer.dfy` (`EventConsumer`): the four handlers. Each returns the log of calls it makes into the message service, the search index, the process launcher and the scheduler. `HandleCommentMessage` fills the content map in a loop, as the source does.
- `account_rules.dfy` (`AccountRules`): the user table, its lookups by id, name and email, the Redis user cache and tickets as one `Accounts` value; each operation is a function from the stores before to a `Reply` (the stores after, and what the call returns or throws).
- `user_service.dfy` (`UserService`): the class `UserService`, whose fields are those stores; each method changes them in place and is proved to do what the function of the same name says.
- `account_properties.dfy` (`AccountProperties`): lemmas that relate several calls.

The collaborators become inputs:

- a consumer record and its JSON parse become a `Delivery`: null record, null value, or `Delivered(Option<Event>)`;
- the clock, `File.exists`, the upload's response and whether `Runtime.exec` throws are parameters;
- `md5`, the generated UUIDs (salt, activation code, ticket) and the random avatar URL are parameters.

Three behaviours of the code the model keeps:

- the timeout test is strictly greater than 30000 ms;
- the publish handler calls `saveDiscussPost` even when no post has the id. The model passes null (`None`) in that case and does not skip the call.
- missing `htmlUrl`, `fileName` or `suffix` entries are not rejected; they are concatenated as the string "null".

## Model

| member | source | states |
|---|---|---|
| `UploadTasks.CancelFor` | src/main/java/com/nowcoder/community/event/EventConsumer.java:174 | cancelling marks a live or cancelled future cancelled; with no future yet (before `setFuture`) the call throws and nothing changes |
| `UploadTasks.Step` | src/main/java/com/nowcoder/community/event/EventConsumer.java:171-212 | file name, suffix and start time never change; an upload is attempted iff not timed out (elapsed <= 30000), fewer than 3 attempts and the file exists; each attempt adds exactly 1 to `uploadTimes`, otherwise it is unchanged; the call asks to cancel iff timed out, 3 attempts made, or the attempt's body has code "0", with reason Timeout, TooManyUploads or UploadSuccess in that order of precedence; the future becomes Cancelled iff it was set, and before `setFuture` the cancel throws and the future stays unset; an absent file changes nothing |
| `UploadTasks.UploadSucceeded` | src/main/java/com/nowcoder/community/event/EventConsumer.java:199 | an upload succeeds exactly when it answers with a JSON object whose `code` is the string "0"; a missing code, a numeric code, an unparsable body or a QiniuException are failures |
| `UploadTasks.Tick` | src/main/java/com/nowcoder/community/event/EventConsumer.java:149 | the scheduler does not invoke a cancelled task; otherwise one period is one call of `run` |
| `UploadTasks.Ticks` | src/main/java/com/nowcoder/community/event/EventConsumer.java:149 | a run of periods yields one action per period |
| `UploadTasks.TicksCountAttempts` | src/main/java/com/nowcoder/community/event/EventConsumer.java:177-185 | over any run, `uploadTimes` grows by exactly the number of upload attempts and never exceeds 3 |
| `UploadTasks.AtMostThreeUploads` | src/main/java/com/nowcoder/community/event/EventConsumer.java:160-185 | a newly constructed task makes at most 3 upload attempts in any run of periods |
| `UploadTasks.NoStepAfterCancel` | src/main/java/com/nowcoder/community/event/EventConsumer.java:149-150 | once cancelled, every later period is skipped and the task state does not change |
| `UploadTasks.TicksKeepFuture` | src/main/java/com/nowcoder/community/event/EventConsumer.java:166-168 | a task that has received its future keeps one, and a cancelled future stays cancelled |
| `UploadTasks.TimeoutTerminates` | src/main/java/com/nowcoder/community/event/EventConsumer.java:172-176 | a task with its future is cancelled by the end of any run containing a period more than 30000 ms after its start |
| `UploadTasks.ExhaustionTerminates` | src/main/java/com/nowcoder/community/event/EventConsumer.java:177-185 | a task with its future is cancelled by the end of any run that has, before its last period, as many file-present periods as attempts remain |
| `UploadTasks.NeverRenderedNoUpload` | src/main/java/com/nowcoder/community/event/EventConsumer.java:184 | if the file never exists, no upload is attempted and `uploadTimes` is unchanged |
| `UploadTasks.CancelAfterThirdAttempt` | src/main/java/com/nowcoder/community/event/EventConsumer.java:177-181 | the period after the third attempt cancels the task without uploading again |
| `UploadTasks.UnsetFutureNeverCancels` | src/main/java/com/nowcoder/community/event/EventConsumer.java:148-150 | a task run before `setFuture` cannot cancel itself in any run |
| `UploadTasks.FirstUploadSucceeds` | src/main/java/com/nowcoder/community/event/EventConsumer.java:184-204 | file present at the first period and the body has code "0": one attempt, then cancelled for success |
| `UploadTasks.ThreeFailedUploads` | src/main/java/com/nowcoder/community/event/EventConsumer.java:177-208 | file present from the start and every upload fails: attempts 1, 2, 3, then the fourth period cancels for too many uploads |
| `UploadTasks.UploadTask.constructor` | src/main/java/com/nowcoder/community/event/EventConsumer.java:160-164 | the new task has the given name and suffix, starts at the current time, has made no attempt and has no future |
| `UploadTasks.UploadTask.SetFuture` | src/main/java/com/nowcoder/community/event/EventConsumer.java:166-168 | only the future changes, to the live handle |
| `UploadTasks.UploadTask.Cancel` | src/main/java/com/nowcoder/community/event/EventConsumer.java:174 | the fields change as `CancelFor` says |
| `UploadTasks.UploadTask.Run` | src/main/java/com/nowcoder/community/event/EventConsumer.java:171-212 | the in-place update of `uploadTimes` and the future, and the action, are exactly those of `Step` on the old state |
| `EventConsumer.EventOf` | src/main/java/com/nowcoder/community/event/EventConsumer.java:61-69 | a handler gets an event iff the record and its value are non-null and the value parses |
| `EventConsumer.NotificationContent` | src/main/java/com/nowcoder/community/event/EventConsumer.java:76-85 | the content has exactly the keys of the event data plus userId, entityType and entityId; a data entry wins on a shared key (last write wins); a base key not in the data holds the event's own field |
| `EventConsumer.Notification` | src/main/java/com/nowcoder/community/event/EventConsumer.java:70-74 | the message is from SYSTEM_USER_ID to the entity's user, in the conversation named by the topic, with that content |
| `EventConsumer.HandleCommentMessage` | src/main/java/com/nowcoder/community/event/EventConsumer.java:60-88 | a null record, null value or failed parse adds no message; a parsed event adds exactly one, the notification for it, with the content built in place entry by entry |
| `EventConsumer.HandlePublishMessage` | src/main/java/com/nowcoder/community/event/EventConsumer.java:92-104 | one `saveDiscussPost` call for a parsed event and none otherwise; its argument is the stored post with that id, or null when there is none |
| `EventConsumer.HandleDeleteMessage` | src/main/java/com/nowcoder/community/event/EventConsumer.java:108-119 | one `deleteDiscussPost(entityId)` call for a parsed event, none otherwise |
| `EventConsumer.DataString` | src/main/java/com/nowcoder/community/event/EventConsumer.java:134-136 | a missing entry reads as "null", a string entry as itself, any other value fails the cast |
| `EventConsumer.HandleShareMessage` | src/main/java/com/nowcoder/community/event/EventConsumer.java:123-151 | no calls without a parsed event; a non-string entry throws ClassCastException before anything runs; with three string entries the render command built from them is launched first, and the handler throws exactly when the launch does; a failing launch throws and creates no task; otherwise exactly one new task (no attempts, no future yet, started now, the event's file name and suffix) is scheduled every 500 ms |
| `EventConsumer.ImagePath` | src/main/java/com/nowcoder/community/event/EventConsumer.java:182 | the image path is the storage directory, one '/', then the file name followed by the suffix |
| `EventConsumer.RenderCommand` | src/main/java/com/nowcoder/community/event/EventConsumer.java:137-138 | the command starts with the configured renderer followed by " --quality 75 ", and ends with a space and the image path the task polls |
| `EventConsumer.SharePathMatchesCommand` | src/main/java/com/nowcoder/community/event/EventConsumer.java:137-138 | the command is the renderer, " --quality 75 ", the URL, a space and the output path; the path the task polls (storage/fileName+suffix) is exactly the command's tail |
| `AccountRules.IsWhitespace` | src/main/java/com/nowcoder/community/service/UserService.java:55-63 | the characters `StringUtils.isBlank` skips: space, tab, newline and carriage return are whitespace; the non-breaking spaces, digits, ASCII letters and anything above U+3000 are not |
| `AccountRules.IsBlank` | src/main/java/com/nowcoder/community/service/UserService.java:55-63 | the empty string and any run of spaces and tabs are blank; a string with one non-whitespace character is not |
| `AccountRules.BlankConcat` | src/main/java/com/nowcoder/community/service/UserService.java:55-63 | a property of the `isBlank` model used by the checks of `register`, `login` and `updatePassword`: whether a string is blank is decided character by character, so a string made of two parts is blank exactly when both parts are |
| `AccountRules.InsertUser` | src/main/java/com/nowcoder/community/service/UserService.java:87 | the record gets the next key and is then found by id, name and email; the name and email indexes gain exactly its two entries and keep all others; the caches are untouched |
| `AccountRules.UpdateUser` | src/main/java/com/nowcoder/community/service/UserService.java:104 | only the record of that id changes; no id is added or removed |
| `AccountRules.GetCache` | src/main/java/com/nowcoder/community/service/UserService.java:194-197 | a hit exactly when the id is cached, giving the cached user |
| `AccountRules.InitCache` | src/main/java/com/nowcoder/community/service/UserService.java:199-204 | returns the stored record (or null) and caches it when there is one; nothing else changes |
| `AccountRules.ClearCache` | src/main/java/com/nowcoder/community/service/UserService.java:206-209 | removes exactly that id's cache entry and keeps the others |
| `AccountRules.FindUserById` | src/main/java/com/nowcoder/community/service/UserService.java:40-47 | a cached user is returned without change; otherwise the result is that of `InitCache` |
| `AccountRules.NewUser` | src/main/java/com/nowcoder/community/service/UserService.java:80-86 | the inserted record has the form's name and email, the given salt, password md5(raw + salt), type 0, status 0 and the fresh activation code |
| `AccountRules.Register` | src/main/java/com/nowcoder/community/service/UserService.java:49-97 | null user throws IllegalArgumentException and changes nothing; every rejection is a one-entry map and changes nothing; the empty map is returned iff name, password and email are non-blank and neither the name nor the email is taken; it then inserts exactly the new record |
| `AccountRules.Activation` | src/main/java/com/nowcoder/community/service/UserService.java:99-110 | unknown id throws; Repeat iff status is 1; Success iff status is not 1 and the code matches, and then the status becomes 1 and the cache entry goes; a known id with status not 1 and a different code gives Failure; in every case but Success nothing changes |
| `AccountRules.Wrap32` | src/main/java/com/nowcoder/community/service/UserService.java:145 | a 32-bit `int` result is congruent to the exact one modulo 2^32 |
| `AccountRules.ExpiryAsWritten` | src/main/java/com/nowcoder/community/service/UserService.java:145 | the offset the code adds to the clock is a 32-bit `int`, congruent to `1000 * expiredSeconds` modulo 2^32 |
| `AccountRules.Expiry` | src/main/java/com/nowcoder/community/service/UserService.java:145 | the ticket expires exactly `expiredSeconds` seconds after `now`, so later than now for a positive duration |
| `AccountRules.Login` | src/main/java/com/nowcoder/community/service/UserService.java:112-152 | a ticket key is returned iff name and password are non-blank, the account exists, is activated and the salted hash matches; then the result is exactly {"ticket": t} and a ticket with that id, the user's id and status 0 is stored under it; any refusal is one usernameMsg or passwordMsg entry and changes nothing |
| `AccountRules.Logout` | src/main/java/com/nowcoder/community/service/UserService.java:154-160 | an unknown ticket throws NullPointerException; otherwise that ticket's status becomes 1, its other fields and all other tickets stay, and nothing else changes |
| `AccountRules.UpdatePassword` | src/main/java/com/nowcoder/community/service/UserService.java:175-187 | unknown id throws; a blank old hash, blank new password or mismatching old hash gives passwordMsg and changes nothing; otherwise the stored password becomes md5(new + salt), the cache entry goes and the map is empty |
| `AccountRules.AuthorityOf` | src/main/java/com/nowcoder/community/service/UserService.java:217-224 | type 1 is ADMIN, type 2 is MODERATOR, every other type is USER, each iff |
| `AccountRules.GetAuthorities` | src/main/java/com/nowcoder/community/service/UserService.java:211-228 | exactly one authority; it is the role of the user `findUserById` gives, or throws for a null user; the stores change as `findUserById` changes them |
| `UserService.UserService.constructor` | src/main/java/com/nowcoder/community/service/UserService.java:22-38 | the service starts with the given hash function and stores |
| `UserService.UserService.GetCache` | src/main/java/com/nowcoder/community/service/UserService.java:194-197 | reads the cache as `AccountRules.GetCache` says and changes nothing |
| `UserService.UserService.InitCache` | src/main/java/com/nowcoder/community/service/UserService.java:199-204 | updates the cache in place as `AccountRules.InitCache` says |
| `UserService.UserService.ClearCache` | src/main/java/com/nowcoder/community/service/UserService.java:206-209 | deletes the cache entry in place as `AccountRules.ClearCache` says |
| `UserService.UserService.FindUserById` | src/main/java/com/nowcoder/community/service/UserService.java:40-47 | the result and the new stores are those of `AccountRules.FindUserById` |
| `UserService.UserService.Register` | src/main/java/com/nowcoder/community/service/UserService.java:49-97 | the result map and the new stores are those of `AccountRules.Register` |
| `UserService.UserService.Activation` | src/main/java/com/nowcoder/community/service/UserService.java:99-110 | the result and the new stores are those of `AccountRules.Activation` |
| `UserService.UserService.Login` | src/main/java/com/nowcoder/community/service/UserService.java:112-152 | the result map and the new stores are those of `AccountRules.Login` |
| `UserService.UserService.Logout` | src/main/java/com/nowcoder/community/service/UserService.java:154-160 | the new tickets are those of `AccountRules.Logout` |
| `UserService.UserService.UpdatePassword` | src/main/java/com/nowcoder/community/service/UserService.java:175-187 | the result map and the new stores are those of `AccountRules.UpdatePassword` |
| `UserService.UserService.GetAuthorities` | src/main/java/com/nowcoder/community/service/UserService.java:211-228 | the authorities and the new stores are those of `AccountRules.GetAuthorities` |
| `AccountProperties.RegisterChecksInOrder` | src/main/java/com/nowcoder/community/service/UserService.java:55-78 | blank name, then blank password, then blank email, then taken name, then taken email: the first failing check gives its one message and nothing is stored |
| `AccountProperties.LoginChecksInOrder` | src/main/java/com/nowcoder/community/service/UserService.java:115-138 | blank name, blank password, unknown account, inactive account, wrong password, in that order, each with its message and no change |
| `AccountProperties.RegisterKeepsInvariants` | src/main/java/com/nowcoder/community/service/UserService.java:68-87 | from consistent stores, `register` leaves the table consistent with its name and email lookups and the cache coherent with the table |
| `AccountProperties.ActivationKeepsInvariants` | src/main/java/com/nowcoder/community/service/UserService.java:103-106 | `activation` keeps the table consistent and the cache coherent, because it clears the entry it makes stale |
| `AccountProperties.UpdatePasswordKeepsInvariants` | src/main/java/com/nowcoder/community/service/UserService.java:183-185 | `updatePassword` keeps the table consistent and the cache coherent |
| `AccountProperties.LoginKeepsInvariants` | src/main/java/com/nowcoder/community/service/UserService.java:141-150 | `login` keeps both invariants |
| `AccountProperties.LogoutKeepsInvariants` | src/main/java/com/nowcoder/community/service/UserService.java:154-160 | `logout` keeps both invariants |
| `AccountProperties.FindUserKeepsInvariants` | src/main/java/com/nowcoder/community/service/UserService.java:40-47 | `findUserById` keeps both invariants |
| `AccountProperties.FindUserReturnsStoredRecord` | src/main/java/com/nowcoder/community/service/UserService.java:40-47 | with a coherent cache, `findUserById` returns exactly the stored record (or null), and a stored record is cached afterwards |
| `AccountProperties.AuthorityOfStoredUser` | src/main/java/com/nowcoder/community/service/UserService.java:211-228 | with a coherent cache, the one authority is the role of the stored user's type |
| `AccountProperties.LoginBeforeActivationRefused` | src/main/java/com/nowcoder/community/service/UserService.java:129-132 | a just-registered account logging in with its password is refused as not activated |
| `AccountProperties.RegisterActivateLogin` | src/main/java/com/nowcoder/community/service/UserService.java:80-150 | after registration its activation code activates the new id, a second activation is a repeat, and login with the registered password returns a ticket |
| `AccountProperties.LoginThenLogout` | src/main/java/com/nowcoder/community/service/UserService.java:141-159 | a ticket issued by login is stored with status 1 after logout, for the same user and with the same expiry, and the table is unchanged |
| `AccountProperties.ChangedPasswordLogsIn` | src/main/java/com/nowcoder/community/service/UserService.java:175-187 | after a password change of an activated account, login with the new password succeeds and a non-blank old password with a different hash is refused as wrong |
| `AccountProperties.ExpiryOverflowExample` | src/main/java/com/nowcoder/community/service/UserService.java:145 | for 2147484 seconds the code's expiry is before `now`, the intended one after it |
| `AccountProperties.ExpiryAsWrittenAgreesIffNoOverflow` | src/main/java/com/nowcoder/community/service/UserService.java:145 | the code's expiry equals the intended one iff `1000 * expiredSeconds` fits in an `int` |

## Findings

| source | as written | input that shows it | evidently intended | confidence | as-written member | corrected member |
|---|---|---|---|---|---|---|
| src/main/java/com/nowcoder/community/service/UserService.java:145 | `new Date(System.currentTimeMillis() + 1000 * expiredSeconds)`: the product of two `int`s wraps to 32 bits before it is widened | `expiredSeconds = 2147484`: the product wraps to -2147483296 ms, so the ticket expires about 24.8 days before it is issued | `1000L * expiredSeconds`, an expiry `expiredSeconds` seconds after now | not executed; the wrap is certain for any `expiredSeconds` above 2147483, but which durations callers pass is outside this model | `AccountProperties.ExpiryOverflowExample` (on `AccountRules.ExpiryAsWritten`) | `AccountRules.Expiry` |

## Left out

- AccountRules.Login: stores the ticket with the corrected expiry (`AccountRules.Expiry`). It does not use the 32-bit product the code computes; see Findings.
- UserService.UserService.Login: stores the corrected expiry, as `AccountRules.Login` does.
- Kafka listener wiring and topic routing: each handler is modelled on its own. The topic constants are in `CommunityConstant`, which is not part of this model.
- fastjson: the record's parse is an input (`Delivery`). A parse that throws is not modelled. The notification content is kept as a map, not serialised to a JSON string.
- `SYSTEM_USER_ID` is fixed at 1. Its value is in `CommunityConstant`, which is not part of this model. The activation results and authority strings from that class are enumerations.
- `new Date()` and `System.currentTimeMillis()` are a `now` parameter. The model treats the `long` millisecond arithmetic as unbounded; it cannot overflow for real clock values.
- The render process (`Runtime.exec`) is not modelled. Its launch is recorded as a call, and whether it throws `IOException` is a parameter.
- Qiniu: the credential, `UploadManager.put` and the response body are not modelled. The outcome of each period's upload is an input.
  - A body that makes `parseObject` throw is not modelled. A body that parses to null is `NotJson`.
  - The exception thrown on that path is not modelled.
- Scheduling and concurrency: `ThreadPoolTaskScheduler`, the period's timing and `cancel(true)`'s interruption are not modelled. Ticks are a sequence of calls, and cancellation is a state of the task's future.
  - The scheduler may run the task before `setFuture`. When that call wants to cancel, it throws NullPointerException (`CancelOnNullFuture`). The model assumes the scheduler keeps the task scheduled.
  - Concurrent handlers, and races between the cache and the table, are not modelled.
- The filesystem: `File.exists` is an input of each period.
- Mail: the activation mail, its template and its URL are not modelled.
- Randomness and hashing: the avatar URL with its random number, the UUIDs and `md5` are parameters. The salt parameter stands for the first five characters of a UUID.
- Redis: the 3600 s expiry of cached users is not modelled. The Redis key formats are replaced by two separate maps.
  - `initCache` for an unknown id stores null, which later reads as a miss. The model stores nothing.
- Null strings: the model has no null strings.
  - A null name, password or email behaves like a blank one at the checks that come before any use.
  - A null old password hashed in `updatePassword` and a null activation code are not modelled.
- Event data: `event.getData()` is taken to be a non-null map. Logging is left out.
- `register` changes the caller's `User` object in place: salt, hashed password, type, status, activation code, avatar URL, create time and the generated id. The model's `UserForm` argument is a value, so the caller never sees those changes; the stored record (`AccountRules.NewUser`) has them.
- `updateHeader` updates the header URL in the table and clears that user's cache entry (UserService.java:170-171), as `updatePassword` and `activation` do; `findLoginTicket` and `findUserByName` read one store. None of the three is modelled.
