# discord-soundboard-service, modelled in Dafny

discord-soundboard-service is a NestJS back end for a Discord soundboard. Users log in through Discord OAuth; the service keeps users and uploaded audio commands in Postgres; a "play" request goes out on an event bus to the Discord adapter, which joins the voice channel, streams the sound, and publishes a "finished" event.

This project models the core of that service and proves properties of the model:

- the User and Audio entities (`update` mutates them in place);
- the three record mappers;
- the create-user, update-user and create-audio interactors, running against a database of tables plus a statement log, with the transaction manager's commit/rollback;
- the auth and audio application services and the session serializer;
- the Discord playback adapter's stop/play/complete steps;
- the role guard;
- the memoised configuration decisions: the database and repository factories, the auth-strategy factory and the URL service.

Layout:

- One module per source file: `UserEntity`, `AudioEntity`, `PostgresUserMapper`, `PostgresAudioCommandMapper`, `AudioControllerMapper`, `UserInteractors`, `CreateAudio`, `AuthService`, `AudioService`, `SessionSerializer`, `DiscordAudioAdapter`, `RoleGuard`, `DatabaseFactory`, `AuthStrategyFactory`, `UrlService`.
- Shared modules underneath them:
  - `Wrappers`: `Option`, `Result`, and `Nullish` for JavaScript's `undefined`/`null`.
  - `Errors`: the Nest exception classes.
  - `Config`: the configuration service as a string map.
  - `Strings`: `split`/`join` and ASCII lower-casing.
  - `Validation`: `getValidatedDatabaseRecord`.
  - `Database`: the tables, the statement log and the transaction manager.
  - `Repositories`: the Postgres user and audio repositories.
  - `Events`: the event payloads and the bus.

Each imperative source file becomes classes whose methods change fields and are proved against a pure specification function:

- `CreateUserSpec`, `UpdateUserSpec`, `CreateAudioSpec` and `ValidateOrCreateSpec` give the result, the tables afterwards and the statements issued, in order.
- `Constructed`, `Updated` and `Renamed` give the entity states.
- `StrategyName` and `ResolvedUrls` give the configuration decisions.

The properties are proved about those functions. They include:

- sequential creates keep usernames unique, and creating audio keeps names unique;
- a taken name is refused with nothing written;
- a failed audio create rolls both tables back;
- records read back to the entity they were written from;
- a session id deserializes to the user it came from;
- the login diff's patch reproduces the profile.

Where the repository's design description and its code differ, the model follows the code:

- `UpdateUserInteractor` checks for a conflict under the user's current username, not the new one, and does not exclude the user itself. Since a user loaded by id is always found again under its own username, the update always fails (`UserInteractors.UpdateUserAlwaysFails`). Through `AuthService.validateOrCreateUser`, a returning user whose profile changed is therefore always refused with the internal error (`AuthService.ChangedProfileIsRefused`).
- User creation and update run without a transaction, and a username conflict is a plain `Error`, not a `ConflictException`. Only audio creation uses `ConflictException` and a transaction.
- `AudioService` turns every failure, including the `NotFoundException` it throws itself, into an `InternalServerErrorException` (`AudioService.MissingAudioIsInternalError`).
- `PostgresRepositoryFactory` builds only the user repository. Any other kind, the audio repository included, throws "Repository not implemented".

## Model

| member | source | states |
|---|---|---|
| UserEntity.InitialPreferences | src/domain/entities/user/user.entity.ts:18-28 | each preference is the supplied one when present, else its default: no entry audio, volume 100, no play-on-entry, no favourites |
| UserEntity.Constructed | src/domain/entities/user/user.entity.ts:11-29 | a new user copies id, provider, username and display name; the avatar is set exactly when one is given (`?? null`); preferences are the defaulted ones |
| UserEntity.Updated | src/domain/entities/user/user.entity.ts:63-71 | id and provider never change; username, display name and preferences are replaced only when present; an undefined avatar keeps, null clears, a string sets; an empty patch changes nothing |
| UserEntity.User.constructor | src/domain/entities/user/user.entity.ts:11-29 | the object's state is `Constructed(props)` |
| UserEntity.User.Create | src/domain/entities/user/user.entity.ts:39-41 | a fresh user whose state is `Constructed(props)` |
| UserEntity.User.FromData | src/domain/entities/user/user.entity.ts:51-53 | a fresh user whose state is `Constructed(props)` |
| UserEntity.User.Update | src/domain/entities/user/user.entity.ts:63-71 | the new state is `Updated(old state, props)` |
| AudioEntity.NewAudioData | src/domain/entities/audio/audio.entity.ts:32-42 | a created audio takes the given id and the props' name, format, size and creator, and its creation and update timestamps are both the creation time |
| AudioEntity.Renamed | src/domain/entities/audio/audio.entity.ts:63-67 | the name is replaced only when present, the update timestamp always becomes now, everything else is unchanged |
| AudioEntity.Audio.constructor | src/domain/entities/audio/audio.entity.ts:14-22 | the object holds exactly the given data |
| AudioEntity.Audio.Create | src/domain/entities/audio/audio.entity.ts:32-42 | a fresh audio whose data is `NewAudioData` for the new id and time |
| AudioEntity.Audio.FromData | src/domain/entities/audio/audio.entity.ts:52-54 | a fresh audio holding the given data |
| AudioEntity.Audio.Update | src/domain/entities/audio/audio.entity.ts:63-67 | the new data is `Renamed(old data, props, now)` |
| PostgresUserMapper.ToRecord | src/infrastructure/database/postgres/mappers/user.mapper.ts:14-28 | the record carries the user's fields, with the audio preferences flattened into four columns |
| PostgresUserMapper.ToUserAttributes | src/infrastructure/database/postgres/mappers/user.mapper.ts:30-46 | constructing a user from the attributes gives the record's fields, with the preferences nested again |
| PostgresUserMapper.ToEntity | src/infrastructure/database/postgres/mappers/user.mapper.ts:8-12 | succeeds exactly when validation reports no errors, with a user whose record is the document; otherwise fails with the validator's error |
| PostgresUserMapper.StoredUserReadsBack | src/infrastructure/database/postgres/mappers/user.mapper.ts:8-46 | reading a user's own record gives back that user |
| PostgresUserMapper.ToRecordInjective | src/infrastructure/database/postgres/mappers/user.mapper.ts:14-28 | two users with the same record are the same user |
| PostgresAudioCommandMapper.ToRecord | src/infrastructure/database/mappers/postgres/audio.mapper.ts:14-26 | the record carries all seven fields of the audio |
| PostgresAudioCommandMapper.ToAudioAttributes | src/infrastructure/database/mappers/postgres/audio.mapper.ts:28-40 | writing the attributes back gives the same record |
| PostgresAudioCommandMapper.ToEntity | src/infrastructure/database/mappers/postgres/audio.mapper.ts:8-12 | succeeds exactly when validation reports no errors, with audio whose record is the document; otherwise fails with the validator's error |
| PostgresAudioCommandMapper.StoredAudioReadsBack | src/infrastructure/database/mappers/postgres/audio.mapper.ts:8-40 | reading an audio's own record gives back that audio |
| AudioControllerMapper.ToDto | src/presentation/mappers/audio.mapper.ts:7-17 | the DTO carries all seven fields of the audio |
| AudioControllerMapper.ToDtoInjective | src/presentation/mappers/audio.mapper.ts:7-17 | two audios with the same DTO are the same audio |
| Validation.ValidatedRecord | src/infrastructure/database/database-model.validator.ts:4-18 | the document is returned exactly when there are no errors; otherwise the error is "Model validation failed: " followed by the errors joined with commas |
| Strings.Split | src/presentation/auth/guards/role.guard.ts:9 | `split` gives at least one part, no part contains the separator, and joining the parts restores the string |
| Strings.SplitJoin | src/presentation/auth/guards/role.guard.ts:9 | splitting a join of separator-free parts gives back exactly those parts |
| Strings.Lower | src/presentation/auth/auth-strategy.factory.ts:28 | lower-casing maps each character and leaves no upper-case letter |
| Database.FirstNone | src/infrastructure/database/postgres/repositories/user.repository.ts:41-48 | `executeTakeFirst` finds nothing exactly when no row matches |
| Database.FirstFinds | src/infrastructure/database/postgres/repositories/user.repository.ts:41-48 | a table holding a matching row always yields a row |
| Database.UserWithUsernameNone | src/infrastructure/database/postgres/repositories/user.repository.ts:41-48 | the username query is empty exactly when no row has that username |
| Database.AudioWithNameNone | src/application/interactors/audio/create-audio.interactor.ts:42-48 | the name query is empty exactly when no row has that name |
| Database.OwnUsernameAlwaysFound | src/application/interactors/user/update-user.interactor.ts:24-32 | a user found by id is always found again by its own username |
| Database.TransactionManager.Begin | src/infrastructure/database/transaction/postgres-transaction.manager.ts:41-52 | starting a transaction logs BEGIN and snapshots the tables without changing them |
| Database.TransactionManager.Commit | src/infrastructure/database/transaction/postgres-transaction.manager.ts:41-52 | committing keeps the tables and logs COMMIT |
| Database.TransactionManager.Rollback | src/infrastructure/database/transaction/postgres-transaction.manager.ts:41-52 | rolling back restores the snapshot and logs ROLLBACK |
| Repositories.LoadUser | src/infrastructure/database/postgres/repositories/user.repository.ts:44-52 | no row gives undefined; a valid row gives the user whose record it is; an invalid row fails |
| Repositories.LoadAudio | src/infrastructure/database/postgres/repositories/audio.repository.ts:29-37 | no row gives undefined; a valid row gives its attributes; an invalid row fails |
| Repositories.UserRepository.FindOneById | src/infrastructure/database/postgres/repositories/user.repository.ts:55-67 | logs one select by id, changes no table, and yields the first row with that id, loaded |
| Repositories.UserRepository.FindOneByUsername | src/infrastructure/database/postgres/repositories/user.repository.ts:41-53 | logs one select by username, changes no table, and yields the first row with that username, loaded |
| Repositories.UserRepository.Create | src/infrastructure/database/postgres/repositories/user.repository.ts:25-39 | appends the user's record to the users table, logs the insert and returns the same user object |
| Repositories.AudioRepository.FindOneById | src/infrastructure/database/postgres/repositories/audio.repository.ts:26-38 | logs one select by id, changes no table, and yields the first row with that id, loaded |
| Repositories.AudioRepository.FindOneByName | src/application/interactors/audio/create-audio.interactor.ts:43 | logs one select by name inside the transaction, changes no table, and yields the first row with that name, loaded |
| Repositories.AudioRepository.Create | src/application/interactors/audio/create-audio.interactor.ts:34 | inserts the metadata row and then the payload row; a failing insert stops the write there and fails |
| Repositories.AudioRepository.FindDataById | src/infrastructure/adapters/discord/discord-audio.adapter.ts:151 | logs one select and returns the first payload row with that id, if any |
| UserInteractors.CreateUserSpec | src/application/interactors/user/create-user.interactor.ts:12-29 | looks the username up first; a taken username (or a failed lookup) writes nothing; a free username always creates: the result is the constructed user, exactly its record is appended, and the log is the lookup then the insert |
| UserInteractors.CreateUserRefusesTakenUsername | src/application/interactors/user/create-user.interactor.ts:22-28 | when any row holds the username, creation fails and the table is unchanged |
| UserInteractors.CreateUserKeepsUsernamesUnique | src/application/interactors/user/create-user.interactor.ts:12-29 | creation preserves the uniqueness of usernames |
| UserInteractors.CreateUsers | src/application/interactors/user/create-user.interactor.ts:12-29 | a sequence of creates only appends, at most one row per request |
| UserInteractors.SequentialCreatesKeepUsernamesUnique | src/application/interactors/user/create-user.interactor.ts:12-29 | any sequence of creates leaves usernames unique |
| UserInteractors.UpdateUserSpec | src/application/interactors/user/update-user.interactor.ts:12-42 | looks the user up by id (not found fails with the id), then checks the loaded user's current username; success would insert the patched user |
| UserInteractors.UpdateUserAlwaysFails | src/application/interactors/user/update-user.interactor.ts:12-32 | every update fails and writes nothing, because the conflict check finds the user itself |
| UserInteractors.CreateUserInteractor.Execute | src/application/interactors/user/create-user.interactor.ts:12-20 | the result, the users table and the statement log are those of `CreateUserSpec`; the audio tables are untouched |
| UserInteractors.CreateUserInteractor.EnsureNoUserConflict | src/application/interactors/user/create-user.interactor.ts:22-29 | one username lookup; throws the conflict error exactly when a row is found |
| UserInteractors.UpdateUserInteractor.Execute | src/application/interactors/user/update-user.interactor.ts:12-22 | the result, the users table and the statement log are those of `UpdateUserSpec` |
| UserInteractors.UpdateUserInteractor.EnsureNoUserConflict | src/application/interactors/user/update-user.interactor.ts:24-32 | one lookup of the user's current username; throws the conflict error exactly when a row is found |
| UserInteractors.UpdateUserInteractor.GetUserById | src/application/interactors/user/update-user.interactor.ts:34-42 | one id lookup; a missing user fails with the "not found" message |
| CreateAudio.StoredAudio | src/application/interactors/audio/create-audio.interactor.ts:24-33 | the stored audio's size is the payload's byte length and its creator is the fixed id 127289675021811712 |
| CreateAudio.CreateInTransaction | src/application/interactors/audio/create-audio.interactor.ts:21-37 | inside the transaction, checks the name first, never touches users, and on success yields the stored audio |
| CreateAudio.CreateAudioSpec | src/application/interactors/audio/create-audio.interactor.ts:20-40 | BEGIN, then the name check, all statements in that transaction; success exactly when the name is free and both inserts work, and then COMMIT with both rows appended; any failure ends in ROLLBACK with both tables as before |
| CreateAudio.CreateAudioRefusesTakenName | src/application/interactors/audio/create-audio.interactor.ts:42-48 | a taken name fails with the ConflictException and leaves both tables unchanged |
| CreateAudio.CreateAudioKeepsNamesUnique | src/application/interactors/audio/create-audio.interactor.ts:20-48 | creating audio preserves the uniqueness of names |
| CreateAudio.CreateAudioInteractor.Execute | src/application/interactors/audio/create-audio.interactor.ts:20-40 | the result, the tables and the statement log are those of `CreateAudioSpec` |
| CreateAudio.CreateAudioInteractor.InTransaction | src/application/interactors/audio/create-audio.interactor.ts:21-37 | the callback's result, tables and statements are those of `CreateInTransaction` |
| CreateAudio.CreateAudioInteractor.EnsureNameIsUnique | src/application/interactors/audio/create-audio.interactor.ts:42-48 | one name lookup in the transaction; throws the ConflictException exactly when a row is found |
| Events.EventBus.Publish | src/application/services/audio.service.ts:56 | publishing appends the event to the published log |
| AuthService.DiffProfile | src/application/services/auth.service.ts:66-78 | a field is in the patch exactly when the stored value differs from the profile's, and then carries the profile's value |
| AuthService.DiffPatchAppliesProfile | src/application/services/auth.service.ts:66-92 | applying the diff's patch gives the profile's username, display name and avatar and keeps id, provider and preferences |
| AuthService.Internal | src/application/services/auth.service.ts:47-52 | any failure becomes the one InternalServerErrorException; success passes through |
| AuthService.ValidateOrCreateSpec | src/application/services/auth.service.ts:31-53 | looks the user up by id; unchanged users are returned without a write; new users are created from the profile; every failure is the internal error with nothing written |
| AuthService.FirstLoginCreatesUser | src/application/services/auth.service.ts:42-46 | a first login with a free username creates exactly the user built from the profile |
| AuthService.ChangedProfileIsRefused | src/application/services/auth.service.ts:37-39 | a returning user whose profile changed gets the internal error and nothing is written |
| AuthService.AuthService.ValidateOrCreateUser | src/application/services/auth.service.ts:31-53 | result, users table and statement log are those of `ValidateOrCreateSpec` |
| AuthService.AuthService.MaybeUpdateUser | src/application/services/auth.service.ts:66-93 | an unchanged profile returns the same user object without a query; otherwise the update interactor's outcome |
| AudioService.TryGetAudio | src/application/services/audio.service.ts:60-67 | a missing audio throws NotFoundException; a lookup failure propagates; otherwise the audio |
| AudioService.GetAudioOutcome | src/application/services/audio.service.ts:59-79 | success exactly when the audio is found; every failure becomes the InternalServerErrorException naming the id |
| AudioService.MissingAudioIsInternalError | src/application/services/audio.service.ts:63-77 | the NotFoundException for a missing audio reaches the caller as the internal error |
| AudioService.CreateAudioOutcome | src/application/services/audio.service.ts:27-43 | success passes through; every failure becomes the InternalServerErrorException naming the audio |
| AudioService.NameConflictIsInternalError | src/application/services/audio.service.ts:27-43 | creating audio under a taken name reaches the caller as the internal error |
| AudioService.AudioService.GetAudio | src/application/services/audio.service.ts:23-25 | one select by id, no table changed, outcome `GetAudioOutcome` |
| AudioService.AudioService.FetchAudio | src/application/services/audio.service.ts:59-79 | one select by id, no table changed, outcome `GetAudioOutcome` |
| AudioService.AudioService.CreateAudio | src/application/services/audio.service.ts:27-43 | on a wired service (the create interactor shares the service's repository and database), tables and log as `CreateAudioSpec`, result mapped by `CreateAudioOutcome` |
| AudioService.AudioService.PlayAudio | src/application/services/audio.service.ts:45-57 | a failed fetch publishes nothing; otherwise exactly one PLAY_REQUESTED event with the request's fields is published |
| SessionSerializer.SerializeUser | src/presentation/auth/session.serializer.ts:34-37 | the session keeps the user's id and no error |
| SessionSerializer.DeserializeUser | src/presentation/auth/session.serializer.ts:48-66 | a found user is passed on; a missing one gives the "not found" error; a thrown Error passes through; a thrown non-Error becomes "Deserialization error"; failures pass null |
| SessionSerializer.AsThrown | src/presentation/auth/session.serializer.ts:52 | lookup failures reach the catch as thrown Errors |
| SessionSerializer.SessionRoundTrip | src/presentation/auth/session.serializer.ts:34-66 | a stored, valid user deserializes from its session id to itself |
| DiscordAudioAdapter.StopActions | src/infrastructure/adapters/discord/discord-audio.adapter.ts:201-212 | stopping stops a player exactly when there is one and destroys a connection exactly when it is live |
| DiscordAudioAdapter.FinishedPayload | src/infrastructure/adapters/discord/discord-audio.adapter.ts:185-193 | the finished event copies the request's id, volume, channel and user, with duration 0 |
| DiscordAudioAdapter.DiscordAudioAdapter.constructor | src/infrastructure/adapters/discord/discord-audio.adapter.ts:32-54 | the adapter starts with no player and no connection |
| DiscordAudioAdapter.DiscordAudioAdapter.FetchAudioData | src/infrastructure/adapters/discord/discord-audio.adapter.ts:150-160 | the stored payload, or nothing and a logged error |
| DiscordAudioAdapter.DiscordAudioAdapter.GetVoiceChannel | src/infrastructure/adapters/discord/discord-audio.adapter.ts:168-178 | a channel is accepted exactly when it is a voice channel; otherwise an error is logged |
| DiscordAudioAdapter.DiscordAudioAdapter.StopCurrentPlayback | src/infrastructure/adapters/discord/discord-audio.adapter.ts:201-212 | the old player is stopped, a live connection destroyed, and both fields cleared |
| DiscordAudioAdapter.DiscordAudioAdapter.PlayAudioInChannel | src/infrastructure/adapters/discord/discord-audio.adapter.ts:223-246 | a fresh connection to the channel and a fresh playing player become current, after join, volume, subscribe and play |
| DiscordAudioAdapter.DiscordAudioAdapter.AwaitPlaybackCompletion | src/infrastructure/adapters/discord/discord-audio.adapter.ts:294-311 | idle or error, the connection is destroyed; idle resolves and error rejects with the message |
| DiscordAudioAdapter.DiscordAudioAdapter.PublishPlaybackCompletedEvent | src/infrastructure/adapters/discord/discord-audio.adapter.ts:185-196 | exactly one PLAY_FINISHED event with `FinishedPayload` is published |
| DiscordAudioAdapter.DiscordAudioAdapter.HandleAudioPlayRequest | src/infrastructure/adapters/discord/discord-audio.adapter.ts:120-142 | a missing payload or a non-voice channel only logs; otherwise the previous session is torn down, a new one plays and is destroyed, and the finished event is published only when playback ends idle |
| RoleGuard.RequiredRoles | src/presentation/auth/guards/role.guard.ts:9 | no roles exactly when the setting is unset; otherwise separator-free roles that join back to the setting |
| RoleGuard.CanActivate | src/presentation/auth/guards/role.guard.ts:8-29 | never returns false; an unset setting admits everyone; otherwise a user without roles is refused as unauthenticated, and a user is admitted exactly when one of their roles is required |
| RoleGuard.ListedRoleIsAdmitted | src/presentation/auth/guards/role.guard.ts:9-28 | a user holding any role of a comma-separated list is admitted |
| RoleGuard.EmptySettingListsEmptyRole | src/presentation/auth/guards/role.guard.ts:9-13 | an empty setting splits into one empty role, so it does not admit everyone |
| DatabaseFactory.RepositoryTypeName | src/infrastructure/database/postgres/postgres.factory.ts:37 | the repository kinds print as user and audio |
| DatabaseFactory.IsValidDbHost | src/infrastructure/database/database.factory.ts:61-63 | true exactly for the one database host, postgres |
| DatabaseFactory.PostgresRepositoryFactory.GetRepo | src/infrastructure/database/postgres/postgres.factory.ts:13-15 | as `GetRepository` |
| DatabaseFactory.PostgresRepositoryFactory.GetRepository | src/infrastructure/database/postgres/postgres.factory.ts:17-43 | a cached repository is returned before the pool is consulted; no pool fails; USER builds and caches a fresh repository; AUDIO fails with nothing cached; entries are never replaced |
| DatabaseFactory.DatabaseFactory.constructor | src/infrastructure/database/database.factory.ts:18-25 | the provider map holds the Postgres factory and no provider is chosen yet |
| DatabaseFactory.DatabaseFactory.GetProviderFactory | src/infrastructure/database/database.factory.ts:32-59 | once chosen, the provider is returned without reading configuration; an invalid setting fails and chooses nothing; unset selects Postgres; a valid one selects its entry |
| DatabaseFactory.DatabaseFactory.GetRepository | src/infrastructure/database/database.factory.ts:27-30 | the chosen provider's answer: a cached repository, or a fresh user repository cached after the build; with no pool, or for AUDIO, the provider's error with nothing cached |
| AuthStrategyFactory.IsValidAuthStrategy | src/presentation/auth/auth-strategy.factory.ts:61-63 | true exactly for the enum's one value, discord |
| AuthStrategyFactory.ConfiguredName | src/presentation/auth/auth-strategy.factory.ts:28 | the AUTH_STRATEGY setting, lower-cased, when it is set |
| AuthStrategyFactory.StrategyName | src/presentation/auth/auth-strategy.factory.ts:23-43 | any cached value other than null is returned unchanged; from null, unset selects discord, an invalid name throws, a valid one is cached |
| AuthStrategyFactory.StrategyInstance | src/presentation/auth/auth-strategy.factory.ts:52-58 | the map entry for a defined name, or the "not found in strategy map" error |
| AuthStrategyFactory.AuthStrategyFactory.constructor | src/presentation/auth/auth-strategy.factory.ts:8-16 | the map holds the discord strategy and the cache starts undefined |
| AuthStrategyFactory.AuthStrategyFactory.GetActiveStrategyName | src/presentation/auth/auth-strategy.factory.ts:23-43 | result and cache as `StrategyName` |
| AuthStrategyFactory.AuthStrategyFactory.GetActiveStrategyInstance | src/presentation/auth/auth-strategy.factory.ts:50-59 | the name lookup's failure, or the map lookup for that name |
| AuthStrategyFactory.UnsetCacheNeverResolves | src/presentation/auth/auth-strategy.factory.ts:9-26 | with the cache never assigned, every configuration yields undefined and the instance lookup fails |
| AuthStrategyFactory.IntendedStrategyName | src/presentation/auth/auth-strategy.factory.ts:23-43 | with the cache consulted only once set: a cached name is returned; unset selects discord; an invalid name throws; a chosen name is cached |
| AuthStrategyFactory.IntendedStrategyResolves | src/presentation/auth/auth-strategy.factory.ts:23-59 | from an empty cache, a valid or absent setting resolves to discord, its instance is found, and later calls return the same name |
| AuthStrategyFactory.ConfiguredNameIgnoresCase | src/presentation/auth/auth-strategy.factory.ts:28-42 | AUTH_STRATEGY "Discord" selects the discord strategy |
| UrlService.Environment | src/config/services/url.service.ts:31 | NODE_ENV, development when unset |
| UrlService.ResolvedUrls | src/config/services/url.service.ts:30-40 | throws exactly in production without PRODUCTION_URL; otherwise both URLs are the localhost development URLs |
| UrlService.UrlConfigService.New | src/config/services/url.service.ts:12-14 | construction succeeds exactly when `ResolvedUrls` does, and the service then holds those URLs |
| UrlService.UrlConfigService.Current | src/config/services/url.service.ts:16-22 | the two getters read the two fields |
| UrlService.UrlConfigService.InitializeUrls | src/config/services/url.service.ts:30-40 | the fields end as `ResolvedUrls`; on the throw they are unchanged |
| UrlService.UrlConfigService.ProdUrlInit | src/config/services/url.service.ts:50-57 | both URLs become the production URL, which must be set |
| UrlService.IntendedUrls | src/config/services/url.service.ts:24-40 | in production both URLs are PRODUCTION_URL (which must be set); elsewhere the development URLs |
| UrlService.ProductionUrlIsDiscarded | src/config/services/url.service.ts:34-39 | in production with PRODUCTION_URL set, the service still holds the localhost URLs, unlike the intended ones |
| UrlService.IntendedAgreesOutsideProduction | src/config/services/url.service.ts:30-40 | both versions throw on the same configurations and agree outside production |

## Left out

- Postgres, Kysely and the connection pool. Tables are sequences of rows in insertion order, and a query yields the first matching row.
  - The primary key and other constraints from the migrations are not enforced: an insert is an append.
  - The SQL text is not modelled; the statement log records what each query selects or inserts.
- Repositories.UserRepository.Create: the "User insertion failed." path is not modelled, because `returningAll` yields a row for every successful insert.
- Repositories.AudioRepository.Create: the audio repository's insert implementation is not part of this model. Its failures are an `InsertFault` parameter that says which insert fails.
- class-validator: a repository holds a validator function from a row to its error messages. Validation.ValidatedRecord joins those messages with commas in place of the library's rendering of its error objects.
- Stand-in parameters:
  - `uuid` and the clock are id and timestamp parameters.
  - The Discord client's channel cache is the set of voice-channel ids.
  - How playback ends is a `PlaybackOutcome` parameter.
- DiscordAudioAdapter.DiscordAudioAdapter.HandleAudioPlayRequest: the volume is kept as the integer percentage. The division by 100 into a floating-point gain is not modelled.
- The Discord SDK is reduced to objects (connection, player) and a trace of actions. The following are left out:
  - the bot login and `onModuleInit`;
  - the `ready` subscription to PLAY_REQUESTED;
  - the Readable stream and the audio resource.
- Logging is left out, except the adapter's logged errors, which are its only observable output on failure.
- Concurrency: the model is sequential. The check-then-insert race on usernames and audio names is not captured.
- DiscordAudioAdapter.DiscordAudioAdapter.HandleAudioPlayRequest: runs one request through to the end of its playback, so every later request finds the previous connection already destroyed. Overlapping requests are not captured. In the service, a second request stops a live player, and the first request's Idle handler then lets that first request publish its own PLAY_FINISHED.
- Strings.Lower: lower-cases ASCII letters only. JavaScript's `toLowerCase` also folds non-ASCII letters.
- The get-user, get-audio and get-audio-data interactors are direct repository lookups. Their call sites use the repository methods.
- The strategy's passport behaviour, the OAuth exchange, the controllers, the DI modules and the Discord roles provider are not part of this model.
- DatabaseFactory.PostgresRepositoryFactory.GetRepository: the database-host and repository-kind enums are taken to be {postgres} and {user, audio}, the values used in the factories.
- Repositories.AudioRepository.FindOneByName and Repositories.AudioRepository.FindDataById: the Postgres audio repository implements only `findOneById`. These two stand for the repository port's methods as the interactor and the adapter call them.
- Repositories.AudioRepository.FindDataById: cannot fail. A rejected lookup in the service would surface only as the adapter's outer "Error playing audio" log.
- SessionSerializer.DeserializeUser: assumes the `done` callback returns normally. If `done(null, user)` throws, the service's catch calls `done` a second time with the error; that double call is not modelled.
- RoleGuard.CanActivate: a request user or roles list that is `null` (rather than absent) is not modelled. In the service it fails with a TypeError, not an UnauthorizedException.

## Findings

| source | as written | input that shows it | evidently intended | confidence | as-written member | corrected member |
|---|---|---|---|---|---|---|
| src/presentation/auth/auth-strategy.factory.ts:24-26 | the cache guard is `!== null`, but the field is never initialised, so it starts `undefined` and the guard always returns it | a fresh factory with any AUTH_STRATEGY (set or not): `getActiveStrategyName()` returns undefined, and `getActiveStrategyInstance()` throws "Strategy undefined not found in strategy map" | consult the cache only once a name was chosen (`!== undefined`), so the configured or default discord strategy is chosen and cached | high; not executed | AuthStrategyFactory.UnsetCacheNeverResolves | AuthStrategyFactory.IntendedStrategyName |
| src/config/services/url.service.ts:34-39 | `_prodUrlInit` sets both URLs, then lines 38-39 unconditionally overwrite them with the localhost URLs | NODE_ENV=production and PRODUCTION_URL=https://sound.example: uiUrl and apiUrl are http://localhost:3333 and http://localhost:3000 | in production both URLs are PRODUCTION_URL; the development URLs only otherwise | high; not executed | UrlService.ProductionUrlIsDiscarded | UrlService.IntendedUrls |
