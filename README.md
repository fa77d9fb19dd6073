# goutils, modelled in Dafny

A model of the logic in `goutils`, a small Go toolkit for gRPC services. The toolkit has:

- an error translator that turns four error kinds into gRPC status errors and log entries;
- a MongoDB wrapper that derives collection names with `toSnakeCase` and classifies driver outcomes;
- three near-identical relational wrappers over an object-relational mapper, which build a Postgres
  connection string, make identifiers, and run create/update/delete/find/query/exec statements that
  log a failure and return nil;
- a service bootstrap that chooses the storage backend from the environment, listens on port 50051
  and dials other services;
- an HTTP client that joins request paths to a base URI, picks the content type, merges response
  headers and reports the response time.

Every call into a driver, the mapper, the network, the clock or the random-number generator becomes
a parameter of the modelled operation: the error it returns, or its result.

External state is modelled by recorder objects:

- the logger records every entry it is asked to log (`Logging.Logger`);
- the MongoDB driver records every call it receives (`Mongo.Driver`);
- the mapper's handle records every statement issued on it, inside or outside a transaction
  (`Relational.Handle`);
- the HTTP transport records every request it sends (`HttpClient.Transport`);
- the gRPC server records where it served and whether it was stopped (`Service.GrpcServer`).

Methods that change these objects state their whole new state in `ensures`. Pure logic (casing,
formats, classification) is written as functions with lemmas about them.

Files:

| file | module | models |
|---|---|---|
| `options.dfy`, `strings.dfy`, `runtime.dfy` | `Options`, `Strings`, `Values`, `Logging` | Option, ASCII string helpers, Go error values, the logger |
| `snake_case.dfy`, `snake_case_examples.dfy` | `SnakeCase`, `SnakeCaseExamples` | `toSnakeCase` and worked examples |
| `grpc_errors.dfy` | `GrpcErrors` | `errors/error.go` |
| `mongo.dfy` | `Mongo` | `database/mongo/mongo.go`, `database/mongo/queries.go` |
| `relational.dfy` | `Relational` | the DSN, `NewID`, statements and failure logs shared by the three relational wrappers |
| `database.dfy`, `db.dfy`, `gorm.dfy` | `Database`, `Db`, `Gorm` | `database/database.go`, `db/db.go`, `database/gorm/gorm.go` |
| `service.dfy` | `Service` | `service/service.go` |
| `http_client.dfy` | `HttpClient` | `http/client/http.go` |

Points where the code does something its names or comments do not suggest:

- `AlreadyExists` returns gRPC code 13 (Internal), not 6. The code is kept, and
  `GrpcErrors.ReportFor` states that a remote caller reads it as Internal.
- `mongo.NewClient` does not store the error translator it is given. Every later failure then
  calls a method on a nil pointer. The model keeps this: the stored translator is `null`, and a
  failure answers `NilDereference`. A precondition would hide it.
- The relational CRUD methods discard the transaction's error and always return nil.

## Model

| member | source | states |
|---|---|---|
| SnakeCase.LowerRunEnd | database/mongo/mongo.go:63 | the greedy `[a-z]+` run starting at `i` ends at the first non-lower-case letter or the end of the text |
| SnakeCase.MatchFirstCap | database/mongo/mongo.go:63-66 | pass 1 keeps the first character of its input; SnakeCase.MatchFirstCapSeparates says which words it separates and SnakeCase.MatchFirstCapUnderscores that it puts underscores nowhere else |
| SnakeCase.MatchAllCap | database/mongo/mongo.go:64-67 | pass 2 keeps the first character of its input; SnakeCase.MatchAllCapSeparatesEveryBoundary says which boundaries it separates and SnakeCase.MatchAllCapUnderscores that it puts underscores nowhere else |
| SnakeCase.ToSnakeCase | database/mongo/mongo.go:62-69 | the result has no ASCII upper-case letter and is at least as long as the input; before lower-casing, its underscores are exactly at word boundaries by SnakeCase.WordsSeparatedBeforeLowering and SnakeCase.UnderscoresOnlyAtBoundaries |
| SnakeCase.MatchFirstCapLength | database/mongo/mongo.go:66 | pass 1 never shortens its input |
| SnakeCase.MatchAllCapLength | database/mongo/mongo.go:67 | pass 2 never shortens its input |
| SnakeCase.MatchFirstCapOnlyInserts | database/mongo/mongo.go:66 | with underscores removed, pass 1's output equals its input with underscores removed |
| SnakeCase.MatchAllCapOnlyInserts | database/mongo/mongo.go:67 | with underscores removed, pass 2's output equals its input with underscores removed |
| SnakeCase.InsertedUnderscore | database/mongo/mongo.go:66-67 | inserting one underscore between two pieces leaves their underscore-free text unchanged |
| SnakeCase.ToSnakeCaseOnlyInserts | database/mongo/mongo.go:66-68 | toSnakeCase only inserts underscores and lower-cases: `Strip(toSnakeCase(s)) == ToLower(Strip(s))` |
| SnakeCase.PassesKeepLowerText | database/mongo/mongo.go:63-67 | neither pass changes text without an upper-case letter |
| SnakeCase.ToSnakeCaseKeepsLowerText | database/mongo/mongo.go:62-69 | text without an upper-case letter is returned unchanged |
| SnakeCase.ToSnakeCaseIdempotent | database/mongo/mongo.go:62-69 | toSnakeCase applied twice equals toSnakeCase applied once |
| SnakeCase.MatchAllCapSeparatesEveryBoundary | database/mongo/mongo.go:64-67 | after pass 2, no lower-case letter or digit is directly followed by an upper-case letter |
| SnakeCase.MatchAllCapKeepsUnbroken | database/mongo/mongo.go:64-67 | pass 2 leaves text with no such boundary unchanged |
| SnakeCase.MatchAllCapIdempotent | database/mongo/mongo.go:64-67 | pass 2 is idempotent |
| SnakeCase.MatchFirstCapSecond | database/mongo/mongo.go:63-66 | the second character of pass 1's output is the inserted underscore when the text starts with a match, and the input's own second character otherwise |
| SnakeCase.MatchFirstCapSeparates | database/mongo/mongo.go:63-66 | after pass 1, every upper-case letter followed by a lower-case one (past the first character) is preceded by an underscore, a newline, or a lower-case letter left by the overlap rule |
| SnakeCase.MatchAllCapSecond | database/mongo/mongo.go:64-67 | the second character of pass 2's output is the inserted underscore when the text starts with a match, and the input's own second character otherwise |
| SnakeCase.MatchAllCapKeepsSeparated | database/mongo/mongo.go:64-67 | pass 2 keeps that separation |
| SnakeCase.WordsSeparatedBeforeLowering | database/mongo/mongo.go:62-67 | after both passes, every capitalised word past the first character directly follows an underscore or a newline |
| SnakeCase.MatchFirstCapUnderscores | database/mongo/mongo.go:63-66 | on input without underscores, every underscore in pass 1's output is preceded by a character other than a newline and followed by an upper-case and then a lower-case letter |
| SnakeCase.UnderscoresSuffix | database/mongo/mongo.go:62-67 | a suffix of text whose underscores all open words has the same property |
| SnakeCase.AfterUnderscore | database/mongo/mongo.go:64-67 | pass 2 copies an underscore, the upper-case letter after it and the next character unchanged |
| SnakeCase.MatchAllCapUnderscores | database/mongo/mongo.go:64-67 | pass 2 keeps every underscore opening a word, and each one it adds sits between a lower-case letter or digit and an upper-case letter |
| SnakeCase.UnderscoresOnlyAtBoundaries | database/mongo/mongo.go:62-67 | on a name without underscores, every underscore after both passes opens a word, and none comes first |
| SnakeCaseExamples.OverlapPass1 | database/mongo/mongo.go:66 | pass 1 on `xAbCd` gives `x_AbCd`: the overlapping match at `bCd` is skipped |
| SnakeCaseExamples.OverlapPass2 | database/mongo/mongo.go:67 | pass 2 on `x_AbCd` gives `x_Ab_Cd` |
| SnakeCaseExamples.OverlapExample | database/mongo/mongo.go:62-69 | `xAbCd` becomes `x_ab_cd` |
| SnakeCaseExamples.UserIdPass1 | database/mongo/mongo.go:66 | pass 1 leaves `userID` unchanged |
| SnakeCaseExamples.UserIdPass2 | database/mongo/mongo.go:67 | pass 2 on `userID` gives `user_ID` |
| SnakeCaseExamples.UserIdExample | database/mongo/mongo.go:62-69 | `userID` becomes `user_id` |
| SnakeCaseExamples.MyServicePass1 | database/mongo/mongo.go:66 | pass 1 on `MyService` gives `My_Service` |
| SnakeCaseExamples.MyServicePass2 | database/mongo/mongo.go:67 | pass 2 leaves `My_Service` unchanged |
| SnakeCaseExamples.LowerMyService | database/mongo/mongo.go:68 | lower-casing `My_Service` gives `my_service` |
| SnakeCaseExamples.MyServiceExample | database/mongo/mongo.go:62-69 | `MyService` becomes `my_service` |
| SnakeCaseExamples.AcronymKeptWhole | database/mongo/mongo.go:62-67 | for every name without underscores, the passes never give `H_T_T_P_Server`, and pass 2 never gives `a_B_C`: an acronym is not split letter by letter |
| Strings.ToLower | database/mongo/mongo.go:68 | ASCII `strings.ToLower`: same length, each character lower-cased in place |
| GrpcErrors.NotFoundReport | errors/error.go:38-45 | code 5 with message `"<service> not found"`; a Warn entry with the same message and the caller's fields followed by the NotFound kind tag |
| GrpcErrors.InternalReport | errors/error.go:47-57 | code 13 carrying the cause's own text; an Error entry `"<service> got an internal error"` with the caller's fields, the Internal kind tag, `"error"` and the cause |
| GrpcErrors.AlreadyExistsReport | errors/error.go:59-67 | code 13 (Internal) with `"<service> already exists"`; a Warn entry with that message and the AlreadyExists kind tag |
| GrpcErrors.InvalidArgumentReport | errors/error.go:69-76 | code 3 carrying the cause's text; a Warn entry with the fixed text `"request validation failed"` and the Validation kind tag |
| GrpcErrors.KindTagsDiffer | errors/error.go:41-72 | distinct kinds produce distinct `"<Kind> error.kind"` tags |
| GrpcErrors.KindOfOwnTag | errors/error.go:41-72 | a kind tag is read back as its own kind |
| GrpcErrors.ReportFor | errors/error.go:38-76 | reading the status code back gives the kind, except that AlreadyExists reads as Internal; only Internal logs at Error, the others at Warn; the caller's fields come first and unchanged, directly followed by the kind's tag |
| GrpcErrors.LogNamesKind | errors/error.go:41-72 | the last kind tag among an entry's fields names the kind that was translated |
| GrpcErrors.Client.constructor | errors/error.go:31-36 | the client keeps the service name and logger it is given |
| GrpcErrors.Client.NotFound | errors/error.go:38-45 | returns NotFoundReport's status and appends exactly its entry to the log |
| GrpcErrors.Client.Internal | errors/error.go:47-57 | returns InternalReport's status and appends exactly its entry to the log |
| GrpcErrors.Client.AlreadyExists | errors/error.go:59-67 | returns AlreadyExistsReport's status and appends exactly its entry to the log |
| GrpcErrors.Client.InvalidArgument | errors/error.go:69-76 | returns InvalidArgumentReport's status and appends exactly its entry to the log; the context plays no part |
| Mongo.ConnectionURI | database/mongo/mongo.go:37 | the URI starts with `mongodb://` and its length is 13 plus the lengths of its four parts |
| Mongo.ParseConnectionURI | database/mongo/mongo.go:37 | the URI gives back user, password, host and port when user and host hold no colon and the password no at-sign |
| Mongo.ColonInCredentialsIsAmbiguous | database/mongo/mongo.go:37 | the parts are not escaped: user `a:b` with password `p` and user `a` with password `b:p` give the same URI |
| Mongo.FailureKind | database/mongo/queries.go:11-128 | a failure is NotFound exactly when a single-document lookup got the "no documents" error; every other failure is Internal |
| Mongo.FailureReport | database/mongo/queries.go:11-128 | a lookup that found nothing gives code 5 with the service's "not found" message; any other failure, including every failure of the multi-document operations, inserts and ReplaceOneByID, gives code 13 with the driver's error text |
| Mongo.FailureLogged | database/mongo/queries.go:11-128 | every failure logs its cause, at Warn exactly for the NotFound case |
| Mongo.Client.Translate | database/mongo/queries.go:15-20 | a failure is answered by the translator's NotFound("error", err) or Internal(err); a client with no translator dereferences nil |
| Mongo.Client.FindOneByID | database/mongo/queries.go:11-21 | one FindOne call on `{_id: id}`; success is nil; a decode error is classified as a lookup failure and logged once |
| Mongo.Client.FindOne | database/mongo/queries.go:23-33 | one FindOne call with the caller's filter and options; classified like FindOneByID |
| Mongo.Client.FindPaginated | database/mongo/queries.go:35-43 | one Find call with skip and limit passed unchanged; the cursor on success, else no cursor and an Internal reply |
| Mongo.Client.FindMany | database/mongo/queries.go:45-52 | one Find call with the caller's options; the cursor on success, else Internal |
| Mongo.Client.InsertOne | database/mongo/queries.go:54-61 | one InsertOne call; nil on success, else Internal even for "no documents" |
| Mongo.Client.InsertMany | database/mongo/queries.go:63-70 | one InsertMany call; the result passed through on success, else Internal |
| Mongo.Client.UpdateOneByID | database/mongo/queries.go:72-83 | one FindOneAndUpdate on `{_id: id}` asking for the document after the update, with the caller's options unused; classified as a lookup |
| Mongo.Client.UpdateMany | database/mongo/queries.go:85-92 | one UpdateMany call; the result passed through on success, else Internal |
| Mongo.Client.ReplaceOneByID | database/mongo/queries.go:100-107 | one ReplaceOne on `{_id: id}`; the result passed through on success, else Internal, never NotFound |
| Mongo.Client.DeleteOneByID | database/mongo/queries.go:109-119 | one FindOneAndDelete on `{_id: id}`; classified as a lookup |
| Mongo.Client.DeleteMany | database/mongo/queries.go:121-128 | one DeleteMany call; the result passed through on success, else Internal |
| Mongo.NewClient | database/mongo/mongo.go:35-60 | a connect or ping error is returned with no client and no log; otherwise the driver gets the formatted URI, the collection name is toSnakeCase of the option, the translator is not stored, and one Info entry is logged |
| Relational.Dsn | database/database.go:32 | the connection string starts with `host=` and adds 35 characters of keys and separators to the five values; Relational.ParseDsnRoundTrip shows it determines them |
| Relational.SettingRoundTrip | database/database.go:32 | a `key=value` setting gives back its value when the key holds no `=` |
| Relational.ParseSettingsStep | database/database.go:32 | reading a setting followed by a space leaves the remaining settings to read |
| Relational.ParseSettingsLast | database/database.go:32 | the last setting is read back whole |
| Relational.KeysAreWords | database/database.go:32 | the five keys hold neither a space nor `=` |
| Relational.ParseSettingsRoundTrip | database/database.go:32 | space-separated settings give back every value, in order, when no key or value holds a space |
| Relational.ParseDsnRoundTrip | database/database.go:32 | the DSN `host=… port=… user=… password=… dbname=…` gives back all five values when none holds a space |
| Relational.NewID | database/database.go:190-200 | the prefix, an underscore and the suffix; just the suffix when the prefix is empty |
| Relational.ParseNewID | database/database.go:190-200 | splitting an identifier at its last underscore recovers prefix and suffix when the suffix has no underscore |
| Relational.Handle.RunInTransaction | database/database.go:92-97 | records the statement as run inside a transaction and passes the callback's error through |
| Relational.Handle.Run | database/database.go:81-87 | records the statement as run directly and returns its error |
| Relational.ErrorFields | db/db.go:60-65 | the error is always the last log field; db.go puts the `"error"` key before it |
| Relational.FailureMessage | database/database.go:89-188 | every failure message starts with `db error when `; Relational.FailureMessageNamesOperation shows which operations share one |
| Relational.FailureLog | database/database.go:92-96 | a failed statement gives exactly one Error entry with the operation's message; success gives none |
| Relational.FailureMessageNamesOperation | database/database.go:89-188 | two operations share a failure message exactly when they are equal or are Create and Exec |
| Database.DB.DropTable | database/database.go:81-83 | drops the wrapper's table directly and returns the migrator's error |
| Database.DB.AutoMigrate | database/database.go:85-87 | migrates the given models directly and returns the migrator's error |
| Database.DB.Transact | database/database.go:89-188 | runs one statement in a transaction, logs FailureLog and returns nil |
| Database.DB.Create | database/database.go:89-103 | issues Create on the table in a transaction; returns nil; logs once exactly when it failed |
| Database.DB.Update | database/database.go:105-119 | issues Updates in a transaction; returns nil; logs once exactly when it failed |
| Database.DB.Delete | database/database.go:121-135 | issues Delete in a transaction; returns nil; logs once exactly when it failed |
| Database.DB.FindByID | database/database.go:137-151 | issues First with `id = ?` in a transaction; returns nil; logs once exactly when it failed |
| Database.DB.Query | database/database.go:153-172 | issues Find, ordered only when orderBy is not empty; returns nil; logs once exactly when it failed |
| Database.DB.Exec | database/database.go:174-188 | issues the raw SQL in a transaction; returns nil; a failure is logged with Create's message |
| Database.DB.NewID | database/database.go:190-200 | the identifier is Relational.NewID, and the prefix and suffix can be recovered from it |
| Database.NewPostgres | database/database.go:31-49 | an open error is logged and returned with no store; otherwise the store is opened on the DSN with singular tables, and the table is kept unchanged |
| Database.NewSqlite | database/database.go:57-75 | an open error is logged and returned; otherwise the store is opened on the given file with singular tables |
| Db.DB.DropTable | db/db.go:49-51 | drops the table directly and returns the migrator's error |
| Db.DB.AutoMigrate | db/db.go:53-55 | migrates directly and returns the migrator's error |
| Db.DB.Transact | db/db.go:57-153 | runs one statement in a transaction, logs FailureLog with the error as a field and returns nil |
| Db.DB.Create | db/db.go:57-72 | issues Create in a transaction; returns nil; logs once through ErrorWithError exactly when it failed |
| Db.DB.Update | db/db.go:74-88 | issues Updates in a transaction; returns nil; logs once exactly when it failed |
| Db.DB.Delete | db/db.go:90-104 | issues Delete in a transaction; returns nil; logs once exactly when it failed |
| Db.DB.FindByID | db/db.go:106-120 | issues First with `id = ?` in a transaction; returns nil; logs once exactly when it failed |
| Db.DB.Query | db/db.go:122-136 | issues Find with orderBy passed to the ordering even when empty; returns nil; logs once exactly when it failed |
| Db.DB.Exec | db/db.go:138-153 | issues the raw SQL in a transaction; returns nil; a failure is logged with Create's message |
| Db.DB.NewID | db/db.go:155-165 | the identifier is Relational.NewID, and the prefix and suffix can be recovered from it |
| Db.NewPostgres | db/db.go:29-43 | an open error is logged and returned; otherwise the store is opened on the DSN with plural tables, keeping table and logger |
| Gorm.Client.DropTable | database/gorm/gorm.go:79-81 | drops the table directly and returns the migrator's error |
| Gorm.Client.AutoMigrate | database/gorm/gorm.go:83-85 | migrates directly and returns the migrator's error |
| Gorm.Client.Transact | database/gorm/gorm.go:87-186 | runs one statement in a transaction, logs FailureLog and returns nil |
| Gorm.Client.Create | database/gorm/gorm.go:87-101 | issues Create in a transaction; returns nil; logs once exactly when it failed |
| Gorm.Client.Update | database/gorm/gorm.go:103-117 | issues Updates in a transaction; returns nil; logs once exactly when it failed |
| Gorm.Client.Delete | database/gorm/gorm.go:119-133 | issues Delete in a transaction; returns nil; logs once exactly when it failed |
| Gorm.Client.FindByID | database/gorm/gorm.go:135-149 | issues First with `id = ?` in a transaction; returns nil; logs once exactly when it failed |
| Gorm.Client.Query | database/gorm/gorm.go:151-170 | issues Find, ordered only when orderBy is not empty; returns nil; logs once exactly when it failed |
| Gorm.Client.Exec | database/gorm/gorm.go:172-186 | issues the raw SQL in a transaction; returns nil; a failure is logged with Create's message |
| Gorm.NewPostgres | database/gorm/gorm.go:30-48 | an open error is logged and returned; otherwise the store is opened on the DSN with singular tables |
| Gorm.NewSqlite | database/gorm/gorm.go:56-73 | an open error is logged and returned; otherwise the store is opened on the given file |
| Service.GetEnv | service/service.go:168-176 | getEnv returns the variable when it is set and not empty, and the default otherwise |
| Service.PortAsString | service/service.go:121-123 | a colon followed by decimal digits that read back as the port |
| Service.DefaultPortAsString | service/service.go:121-123 | the default port prints as `:50051` |
| Service.ClientAddress | service/service.go:126 | the dial address is the name followed by `:50051` |
| Service.EffectiveOpts | service/service.go:44-54 | with no options: DEVELOPMENT with the database disabled; otherwise the first options, whole |
| Service.ChooseBackend | service/service.go:78-108 | Postgres exactly when the environment is PRODUCTION; the table is the lower-cased name with no upper-case letter; the SQLite file is the table plus `.db` |
| Service.PostgresDefaults | service/service.go:84-88 | with no variables set, Postgres uses localhost, 5432, MyDB, root and qwerty |
| Service.Service.DbInitialize | service/service.go:78-119 | returns the open error, else the migration error when migrations are requested and given, else nil; the database is stored only when every step succeeded, opened on the chosen backend |
| Service.Service.ListenAndServe | service/service.go:147-162 | listens on `:port`; each error is logged and returned; success logs `Listen port <port>` |
| Service.Service.ClientConnection | service/service.go:125-137 | dials `name:50051`; a dial error logs name, address and port at fatal level and gives no connection |
| Service.Service.Stop | service/service.go:164-166 | the server is stopped gracefully |
| Service.NewService | service/service.go:44-76 | the service uses the effective options and port 50051; the database is initialised exactly when not disabled; an initialisation error gives no service |
| HttpClient.EffectiveOpts | http/client/http.go:55-64 | with no options: `application/json`, 30 s and 5 attempts; otherwise the first options, whole |
| HttpClient.NoMerging | http/client/http.go:62-64 | given options replace the defaults with no field-by-field merging |
| HttpClient.NewHTTPClient | http/client/http.go:55-76 | the client takes base URI, content type, timeout and attempts from the effective options |
| HttpClient.GetURI | http/client/http.go:132-138 | a URL starting with `http` is kept; anything else is the base URI followed by it; the `https` test adds nothing |
| HttpClient.HttpLookingPathNotJoined | http/client/http.go:133 | a relative path that merely starts with `http` is not joined |
| HttpClient.GetURIIdempotent | http/client/http.go:132-138 | joining twice equals joining once when the base URI is empty or starts with `http` |
| HttpClient.ContentTypeFor | http/client/http.go:92-97 | a non-empty request content type overrides the client default |
| HttpClient.Sub | http/client/http.go:129 | `end.Sub(start)` is the difference, saturated to the int64 range |
| HttpClient.Milliseconds | http/client/http.go:129 | whole milliseconds truncated toward zero: rounded down for a positive duration, up for a negative one |
| HttpClient.ResponseTime | http/client/http.go:128-130 | the elapsed time in whole milliseconds, truncated toward zero; beyond the Duration range, the milliseconds of the largest or smallest Duration |
| HttpClient.Merged | http/client/http.go:118-126 | every visited key is mapped, and every mapping is one of the visited pairs |
| HttpClient.MergedKeys | http/client/http.go:118-126 | the merged map holds exactly the visited keys |
| HttpClient.MergedLastWins | http/client/http.go:118-126 | for a repeated key the value visited last wins |
| HttpClient.MergeResponseHeaders | http/client/http.go:118-126 | the loop builds exactly the merged map of the visited pairs |
| HttpClient.HTTPClient.SendRequest | http/client/http.go:78-116 | a caller's start time is kept and a missing one set to now; exactly one request is sent, to the joined URI with the chosen content type and the client's timeout; a transport error is returned alone; otherwise body, status, merged headers and response time are returned |

## Left out

- Real I/O is not modelled: MongoDB connect, ping and queries, the mapper's statements and migrations, fasthttp, `net.Listen`, gRPC serve, dial and stop. Each operation takes the outcome as a parameter and records the call on a recorder object.
- Mongo.ParseURI is a reader of the model's own, used to state which URIs determine their parts. It is not the driver's URI parser, which percent-decodes the credentials.
- `mongo.NewClient` records the ping call only through its error: the driver recorder does not list it.
- Transaction atomicity and rollback belong to the mapper. The model records only that each CRUD statement runs in a transaction and that the transaction's result is discarded.
- The random short UUID of `NewID` and the clock readings of `SendRequest` are parameters, so identifier uniqueness is not stated.
- The logger package is not part of this model. It is a pass-through to logrus, and its methods do not match the calls the other files make. Every logger is a recorder of (level, message, fields) entries.
- Log-level filtering is not modelled. Nor is logrus's `Fatal` ending the process: `Service.Service.ClientConnection` records the fatal entry and returns no connection.
- Strings.ToLower: only ASCII letters are lower-cased. Unicode case mapping is not modelled.
- The `HTTPServer` and `getHTTPResponse` examples of toSnakeCase are not stated as equations. The acronym rule they illustrate is stated in general by SnakeCase.UnderscoresOnlyAtBoundaries.
- GrpcErrors.Client.Internal and GrpcErrors.Client.InvalidArgument: a nil error would panic in `err.Error()`. `Err` has no nil value, because no caller in the modelled code passes one.
- Go slice aliasing is not modelled. `append(fields, ...)` on a variadic slice could in principle write into the caller's backing array.
- `Service.NewService`: a nil `Database` option would panic. The model's options always hold one (`DatabaseOpts`).
- HttpClient.HTTPClient.SendRequest: several transport details are not modelled:
  - fasthttp's header-name canonicalisation;
  - a `Content-Type` entry in the request headers overriding the chosen content type;
  - the `int32` conversion of the status code;
  - the request-object pooling.
- The unused `TLSCert` option is not modelled. The attempt count is kept on the client (`maxAttempts`), but no retrying is modelled.
- The `GormDB`, `GRPCServer` and `Logger` accessors are not modelled. They only return a field, which the model exposes as a constant field.
- The context argument of the document-store operations and of `InvalidArgument` is not modelled: no code path reads it.
