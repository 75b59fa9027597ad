# A verified model of the social-network backend and its client services

This project models, in Dafny, the core of a social network made of a Go
backend and a React front end. On the backend it covers:

- the WebSocket hub that tracks connected clients per user and fans out events;
- the notification code of the chat, follow, group and event packages, as the exact sequence of `BroadcastToUser` calls each one makes;
- the follow service, with its follow requests and follower counts;
- the post repository and service: privacy, comments, likes and viewer lists;
- the HTTP handlers of the post, chat and notification packages, and the route table;
- the event service, the user status service and the profile update;
- the SQLite schema generator, the upload store, the levelled logger and the nullable-column helpers.

On the front end it covers the `useWebSocket` hook (connection, reconnection after a delay that the close handler doubles but the start-up effect resets, listener table), the chat, group chat, notification and friend hooks, and the relative-time label.

Code that changes state step by step is modelled imperatively:

- the hub, the logger, the upload store and the follow service are classes whose fields are the Go structures or database tables they update;
- the post repository and service, the event and status services, the route multiplexer and the WebSocket client hook are classes too;
- the notification fan-out loops, the SET-list builders and the polling loops are methods with loop invariants.

Code that only computes is modelled as functions. This includes the query logic, the reply shapes, and the React state updates, each of which maps the previous state to the next. Each function is accompanied by lemmas stating what the source promises.

Modules, one per file:

| module | file | models |
|---|---|---|
| Wrappers | wrappers.dfy | `Option` and the Go `(value, error)` pair |
| Text | text.dfy | the parts of Go's `strings` and `strconv` that the backend uses |
| Utils | utils.dfy | backend/pkg/utils/utils.go |
| Logging | logger.dfy | backend/pkg/logger/logger.go |
| FileStore | filestore.dfy | backend/pkg/filestore/filestore.go |
| Schema | sqlite.dfy | backend/pkg/db/sqlite/sqlite.go |
| Websocket | hub.dfy | backend/pkg/websocket/websocket.go |
| Notify | notify.dfy | the events handed to the hub |
| Groups | groups.dfy | member selection for group fan-out |
| GroupNotify | groupnotify.dfy | backend/internal/group/notifications.go |
| ChatNotify | chatnotify.dfy | backend/internal/chat/notification.go |
| FollowNotify | follownotify.dfy | backend/internal/follow/notification.go |
| EventNotify | eventnotify.dfy | backend/internal/event/notification.go |
| Follow | follow.dfy | backend/internal/follow/service.go |
| UserStatus | statussvc.dfy | backend/internal/user/status_service.go |
| Posts | posts.dfy | backend/internal/post/repository.go, service.go |
| PostHandler | posthandler.dfy | backend/internal/post/handler.go |
| HttpParams | httpparams.dfy | parameter rules shared by the handlers |
| ChatHandler | chathandler.dfy | backend/internal/chat/handler.go |
| NotificationHandler | notifhandler.dfy | backend/internal/notifcations/hanlder.go |
| EventService | eventsvc.dfy | backend/internal/event/service.go |
| Profile | profile.dfy | backend/internal/profile/repository.go |
| Routes | routes.dfy | backend/internal/server/routes.go |
| DateUtils | dateutils.dfy | frontend/src/utils/dateUtils.js |
| ClientCommon | clientcommon.dfy | what the front-end hooks share |
| WsClient | wsclient.dfy | frontend/src/services/websocketService.js |
| ChatClient | chatclient.dfy | frontend/src/services/chatService.js |
| GroupChat | groupchat.dfy | frontend/src/services/groupChatService.js |
| NotificationClient | notifclient.dfy | frontend/src/services/notificationService.js |
| FriendClient | friendclient.dfy | frontend/src/services/friendService.js |

## Model

| member | source | states |
|---|---|---|
| Websocket.PrepareMessage | backend/pkg/websocket/websocket.go:167-175 | the envelope carries the given type and the producer's whole event as its payload, so the producer's own type sits inside `payload` |
| Websocket.SplitJoin | backend/pkg/websocket/websocket.go:260-267 | batching queued envelopes with newlines is lossless: splitting the frame gives back every envelope, in order, when none contains a newline |
| Websocket.RemoveFirstAt | backend/pkg/websocket/websocket.go:87-93 | the unregister scan removes exactly the first entry with the client's id and keeps the others in order |
| Websocket.RemoveFirstAbsent | backend/pkg/websocket/websocket.go:87-93 | removing a client that is not listed leaves the list unchanged |
| Websocket.DeliverPanicSticks | backend/pkg/websocket/websocket.go:139-150 | once a send on a closed channel has panicked, the rest of the walk changes no queue |
| Websocket.DeliverPanicsIff | backend/pkg/websocket/websocket.go:139-150 | `BroadcastToUser` panics if and only if one of the listed connections is active but has a closed channel |
| Websocket.DeliverAppends | backend/pkg/websocket/websocket.go:139-150 | `BroadcastToUser` only appends the message, never past the queue capacity, and leaves the queues of unlisted clients untouched |
| Websocket.DeliverReaches | backend/pkg/websocket/websocket.go:139-150 | an active listed connection with room gets the message after what it held, unless an earlier send panicked; inactive ones are skipped and full ones silently dropped |
| Websocket.DeliverSafeWhenLive | backend/pkg/websocket/websocket.go:139-150 | when no listed connection is closed, `BroadcastToUser` never panics |
| Websocket.BroadcastThenSendToUserPanics | backend/pkg/websocket/websocket.go:104-116 | the hub broadcast as written closes a full client and drops it from `Clients` only, so a later `BroadcastToUser` to its user panics |
| Websocket.BroadcastRound | backend/pkg/websocket/websocket.go:104-116 | the broadcast loop, in any order: each registered client with room gets the message; a full one is closed and leaves `Clients` but stays in `UserClients` |
| Websocket.BroadcastBounded | backend/pkg/websocket/websocket.go:104-116 | the hub broadcast never fills a queue past its capacity |
| Websocket.DeactivateAll | backend/pkg/websocket/websocket.go:298-305 | each still-active connection of the user is marked inactive, and its unregister takes it out of `Clients` and closes its channel if registered |
| Websocket.FindFirst | backend/pkg/websocket/websocket.go:88-93 | the scan returns the position of the first entry with that id, or the length when there is none |
| Websocket.RemoveFirstWithin | backend/pkg/websocket/websocket.go:87-93 | what the removal leaves was already in the list |
| Websocket.RemoveFirstDistinct | backend/pkg/websocket/websocket.go:87-93 | on a list without repeats the removal drops exactly that client and keeps the rest distinct |
| Websocket.UnindexOwned | backend/pkg/websocket/websocket.go:86-98 | unregistering keeps every index entry under its owner and leaves no empty entry |
| Websocket.UnindexIndexed | backend/pkg/websocket/websocket.go:82-98 | an index of registered distinct clients stays one once the client leaves `Clients` and its list |
| Websocket.DropMembers | backend/pkg/websocket/websocket.go:87-93 | dropping a set of clients from a list keeps exactly the entries outside it |
| Websocket.DropAllMembers | backend/pkg/websocket/websocket.go:82-98 | after unregistering a set, a client is listed under a user iff it was listed there before and was not unregistered, and no list is left empty |
| Websocket.DropThen | backend/pkg/websocket/websocket.go:87-93 | dropping one set of clients from a list after another is dropping their union |
| Websocket.DropAbsent | backend/pkg/websocket/websocket.go:87-93 | dropping a client the list does not hold changes nothing beyond the other drops |
| Websocket.RemoveFirstIsDrop | backend/pkg/websocket/websocket.go:87-93 | on a list without repeats the first-occurrence removal removes the client entirely |
| Websocket.DropAllStepAt | backend/pkg/websocket/websocket.go:82-98 | for each user, one more `Unregister` on an owned, repeat-free index gives the entry of dropping the larger set from the original index |
| Websocket.DropAllStep | backend/pkg/websocket/websocket.go:82-98 | one more `Unregister` on an owned, repeat-free index equals dropping the larger set from the original index |
| Websocket.DropAllThen | backend/pkg/websocket/websocket.go:82-98 | dropping one set of clients from the index after another is dropping their union |
| Websocket.PresenceAgrees | backend/pkg/websocket/websocket.go:178-195 | `HasActiveClient` holds iff the active connection count is positive, when the index and the client set describe the same connections |
| Websocket.DeliverAll | backend/pkg/websocket/websocket.go:139-150 | the delivery loop equals the delivery walk: the message goes to each active listed target in turn, stopping at the first closed one |
| Websocket.CountActive | backend/pkg/websocket/websocket.go:285-291 | the counting loop returns the number of registered active connections of the user |
| Websocket.Hub.IndexedIsLive | backend/pkg/websocket/websocket.go:70-101 | in a hub whose index lists only registered clients, no listed channel is closed |
| Websocket.Hub.constructor | backend/pkg/websocket/websocket.go:54-64 | a new hub has no clients and no index entries |
| Websocket.Hub.NewClient | backend/internal/websocket/handler.go:57-65 | a new client has an empty open queue of capacity 256 and is active |
| Websocket.Hub.Register | backend/pkg/websocket/websocket.go:70-76 | the client joins `Clients` and is appended to the end of its user's list, creating the entry if absent |
| Websocket.Hub.Unregister | backend/pkg/websocket/websocket.go:80-101 | a registered client leaves `Clients`, its channel is closed, its first list entry is removed and an emptied entry deleted; an unknown client changes nothing, so a second call is a no-op |
| Websocket.Hub.Broadcast | backend/pkg/websocket/websocket.go:104-116 | every registered client is offered the message; a full one is closed and removed from `Clients` but stays in `UserClients` |
| Websocket.Hub.BroadcastEvicting | backend/pkg/websocket/websocket.go:104-116 | the intended broadcast evicts each full client as `Unregister` does: on a consistent index exactly the evicted clients leave their users' lists, the rest keep their order, emptied lists go, and the index never lists a closed channel |
| Websocket.Hub.UnregisterAll | backend/pkg/websocket/websocket.go:80-101 | unregisters each client of a set in turn: they leave `Clients`, their channels close, and on a consistent index the new index is `DropAll` of the old one, every other entry kept in order |
| Websocket.Hub.BroadcastToAll | backend/pkg/websocket/websocket.go:121-125 | a "broadcast" envelope goes through the hub broadcast |
| Websocket.Hub.BroadcastToUser | backend/pkg/websocket/websocket.go:128-151 | a "user" envelope is offered in list order to each active connection of the user; nothing happens for a user without an entry; a send on a closed channel is reported as a panic |
| Websocket.Hub.HasActiveClient | backend/pkg/websocket/websocket.go:178-195 | true iff some connection listed for the user is active |
| Websocket.Hub.GetActiveConnectionCount | backend/pkg/websocket/websocket.go:281-292 | the number of registered clients of the user that are active |
| Websocket.Hub.CloseUserConnections | backend/pkg/websocket/websocket.go:294-309 | every active connection of the user is marked inactive and unregistered, and the user's list is deleted |
| Websocket.Hub.HandlePing | backend/pkg/websocket/websocket.go:311-325 | the pong envelope is queued; on a closed channel it panics, on a full one it blocks with nothing sent |
| Websocket.Hub.OnClientMessage | backend/pkg/websocket/websocket.go:220-234 | an undecodable message is skipped, a "ping" is answered with a pong, anything else is ignored |
| Websocket.Hub.WriteStep | backend/pkg/websocket/websocket.go:248-271 | a non-empty queue is drained into one frame holding every queued envelope oldest first; a closed empty queue yields the close frame |
| Utils.NullableString | backend/pkg/utils/utils.go:6-11 | the result is a value exactly when the column is valid |
| Utils.NullableInt64 | backend/pkg/utils/utils.go:13-18 | the result is a value exactly when the column is valid |
| Utils.NullableRoundTrip | backend/pkg/utils/utils.go:6-18 | scanning a column and passing it through the helper gives back the column, NULL included |
| Utils.NullableIgnoresInvalid | backend/pkg/utils/utils.go:6-18 | a valid value passes through unchanged; any invalid column becomes nil whatever it holds |
| DateUtils.Classify | frontend/src/utils/dateUtils.js:16-55 | on any whole-second difference the bucket chain yields "just now" or a count of units ago, never a negative count and never "Invalid date" |
| DateUtils.ChainedDivisions | frontend/src/utils/dateUtils.js:22-48 | the chained floor divisions agree with dividing the seconds by the whole unit |
| DateUtils.ClassifyBuckets | frontend/src/utils/dateUtils.js:16-55 | each bucket is chosen by the thresholds 1 minute, 1 hour, 1 day, 7 days, 28 days and 360 days, and its count is the number of whole units elapsed |
| DateUtils.RenderSingular | frontend/src/utils/dateUtils.js:24-55 | the singular form appears exactly for a count of one |
| DateUtils.FormatFamilies | frontend/src/utils/dateUtils.js:6-56 | every label is "Invalid date", "just now" or "N unit(s) ago" |
| DateUtils.ZeroMonths | frontend/src/utils/dateUtils.js:42-50 | anything from 28 up to 30 days ago reads "0 months ago" |
| DateUtils.ZeroYears | frontend/src/utils/dateUtils.js:48-55 | anything from 360 up to 365 days ago reads "0 years ago" |
| DateUtils.ClassifyCorrected | frontend/src/utils/dateUtils.js:42-55 | with the month bucket from 30 days and the year bucket from 365 days, every count shown is at least one |
| DateUtils.CorrectedAgrees | frontend/src/utils/dateUtils.js:42-55 | the corrected chain differs from the original only on the labels whose count was zero |
| DateUtils.Render | frontend/src/utils/dateUtils.js:11-55 | "Invalid date", "just now", or the count, a space and the unit name followed by " ago"; the plural "s" appears iff the count is not one |
| DateUtils.FormatRelativeTime | frontend/src/utils/dateUtils.js:6-56 | "Invalid date" exactly for an unparsable date; "just now" under a minute; "… ago" from a minute on |
| Logging.LevelNamesDistinct | backend/pkg/logger/logger.go:33-48 | the five levels have five different names, so a name identifies its level |
| Logging.LevelName | backend/pkg/logger/logger.go:33-48 | "UNKNOWN" exactly for the values that are none of the five levels |
| Logging.LevelColor | backend/pkg/logger/logger.go:148-163 | the fallback white exactly for the values that are none of the five levels |
| Logging.MethodColor | backend/pkg/logger/logger.go:351-368 | white exactly for a verb other than GET, POST, PUT, DELETE, PATCH and OPTIONS; GET is green and DELETE red |
| Logging.FormatMessage | backend/pkg/logger/logger.go:166-212 | a line opens with the bracketed time and level and ends with a space and the message, preceded by the level colour and followed by the reset when coloured |
| Logging.RequestLine | backend/pkg/logger/logger.go:371-452 | a request line ends with the URI and the status; without colour it opens with the bracketed verb, with colour the two middlewares place the method colour differently |
| Logging.LevelColorsDistinct | backend/pkg/logger/logger.go:148-163 | the five levels get five different colours, none of them the fallback white |
| Logging.WithDefaults | backend/pkg/logger/logger.go:113-120 | `Init` fills in the time layout and the console when missing and keeps every other setting |
| Logging.FormatShape | backend/pkg/logger/logger.go:166-212 | without colour a line is `[time] [LEVEL]` then the optional caller, a space and the message |
| Logging.BothOutputUncolored | backend/pkg/logger/logger.go:198-209 | with both outputs the multi-writer comparison never holds, so lines carry no colour codes even when colour is enabled |
| Logging.RequestLinePlain | backend/pkg/logger/logger.go:371-452 | without colour the method and package-level middlewares log the same line, starting with the bracketed method |
| Logging.Logger.constructor | backend/pkg/logger/logger.go:50-60 | the package state before `Init`: nothing written, level DEBUG |
| Logging.Logger.Init | backend/pkg/logger/logger.go:103-145 | only the first call applies the configuration with its defaults and level; later calls change nothing |
| Logging.Logger.SetOutput | backend/pkg/logger/logger.go:264-293 | switches the output type and replaces the console only when one is given; before `Init` the update of the nil loggers then panics |
| Logging.Logger.SetColorEnabled | backend/pkg/logger/logger.go:296-298 | only the colour flag changes |
| Logging.Logger.Log | backend/pkg/logger/logger.go:215-252 | a line is written iff the configured level is at most the message's level and the loggers exist; the call panics exactly when the gate lets the line through before `Init` (nil logger), and never otherwise |
| Logging.Logger.Fatal | backend/pkg/logger/logger.go:255-261 | the process exits only when the gate lets the line through after `Init`, after writing it; before `Init` the gated write panics on the nil logger with nothing written and no exit; a gated-out call changes nothing |
| FileStore.AllowedIgnoresCase | backend/pkg/filestore/filestore.go:66-73 | the content-type check gives the same answer for a type and its lower-case form |
| FileStore.IsAllowedFileType | backend/pkg/filestore/filestore.go:66-73 | the three image types are allowed, and an allowed type is nine or ten characters long |
| FileStore.Ext | backend/pkg/filestore/filestore.go:34 | the extension is a suffix of the name: empty, or a dot followed by no further dot and no slash |
| FileStore.ExtWithoutDot | backend/pkg/filestore/filestore.go:34 | a name without a dot has no extension |
| FileStore.ExtOfAppended | backend/pkg/filestore/filestore.go:34 | appending an extension to a name makes it the name's extension |
| FileStore.Pad | backend/pkg/filestore/filestore.go:37 | a timestamp field is the number's decimal spelling zero-padded on the left to the layout's width: all digits, reading back as the number, as wide as the wider of the two |
| FileStore.StoredNameKeepsExt | backend/pkg/filestore/filestore.go:34-38 | the stored name `<uuid>-<stamp><ext>` keeps the upload's extension, for any UUID spelling without dots |
| FileStore.StoredName | backend/pkg/filestore/filestore.go:34-38 | the stored name starts with the UUID and a hyphen, carries the timestamp next and ends with the upload's extension, its length exactly that of the parts |
| FileStore.Store.constructor | backend/pkg/filestore/filestore.go:19-25 | a new store under the given directory holds no files |
| FileStore.Store.SaveFile | backend/pkg/filestore/filestore.go:27-64 | a disallowed content type or an unopenable upload fails with nothing written; otherwise the content is stored under the directory joined with the stored name, and the bare name is returned |
| Schema.CamelToSnake | backend/pkg/db/sqlite/sqlite.go:489-498 | the character loop computes the snake form of the name, which holds no capital letter |
| Schema.ToLowerAppend | backend/pkg/db/sqlite/sqlite.go:497 | lower-casing distributes over concatenation |
| Schema.SnakeLast | backend/pkg/db/sqlite/sqlite.go:489-498 | the snake form ends with the name's last character, lower-cased |
| Schema.SnakeStep | backend/pkg/db/sqlite/sqlite.go:491-495 | each character adds itself, lower-cased, and an underscore first when it is a capital after the first position |
| Schema.SnakeCamelRoundTrip | backend/pkg/db/sqlite/sqlite.go:489-498 | the snake form of a CamelCase type name reads back as the name itself, so distinct type names give distinct tables |
| Schema.TableName | backend/pkg/db/sqlite/sqlite.go:278-280 | a struct's table is the snake form of its name plus "s", all lower case |
| Schema.MapGoType | backend/pkg/db/sqlite/sqlite.go:462-486 | every Go type maps to one of six SQLite types; BLOB exactly for byte slices and TIMESTAMP exactly for `time.Time` |
| Schema.OptionsFlags | backend/pkg/db/sqlite/sqlite.go:371-386 | a flag is set iff its option is listed, and the name and type are never touched |
| Schema.OptionDefault | backend/pkg/db/sqlite/sqlite.go:379-381 | one option sets the default iff it is a `default=` option |
| Schema.OptionsDefault | backend/pkg/db/sqlite/sqlite.go:371-386 | the default is the value of the last `default=` option, or unchanged when there is none |
| Schema.ExtractColumnInfo | backend/pkg/db/sqlite/sqlite.go:357-395 | the method computes the column the tag describes, as `ColumnOf` states |
| Schema.ColumnNaming | backend/pkg/db/sqlite/sqlite.go:361-389 | a `-` tag skips the field, a tag names the column by its first part, and no tag derives the name from the field |
| Schema.KeyColumnsSingle | backend/pkg/db/sqlite/sqlite.go:294-297 | a part without commas lists exactly one key column |
| Schema.KeyFromPartsSingle | backend/pkg/db/sqlite/sqlite.go:292-299 | choosing among parts of a comma split keeps the key at most one column long |
| Schema.CompositeKeySingle | backend/pkg/db/sqlite/sqlite.go:286-301 | because the tag is split on commas before the `pk(...)` test, a composite key never holds more than one column |
| Schema.FindCompositeKey | backend/pkg/db/sqlite/sqlite.go:286-301 | the first pass finds the key the last `pk(...)` part names, as `CompositeKey` states |
| Schema.IndexOptionsUnique | backend/pkg/db/sqlite/sqlite.go:332-338 | an index is unique iff a part of its tag is exactly "unique", and keeps its default name without a `name=` part |
| Schema.AddFieldsShape | backend/pkg/db/sqlite/sqlite.go:304-346 | the second pass keeps the table name, adds only named columns, clears the key flag of composite-key columns and gives every index exactly its field's column |
| Schema.TableShape | backend/pkg/db/sqlite/sqlite.go:270-354 | an extracted table has only named columns, no column flagged both key and composite-key member, one-column indexes and at most a one-column composite key |
| Schema.IndexFromTag | backend/pkg/db/sqlite/sqlite.go:326-345 | the index tag loop builds the index `IndexFor` describes |
| Schema.ExtractTableInfo | backend/pkg/db/sqlite/sqlite.go:270-354 | the two passes build the table `TableOf` describes |
| Schema.CreateTableShape | backend/pkg/db/sqlite/sqlite.go:398-459 | the statement opens with the table header and ends with the closing line and one line per index |
| Schema.WriteColumns | backend/pkg/db/sqlite/sqlite.go:404-430 | the column loop writes every definition, separated by ",\n" |
| Schema.WriteNames | backend/pkg/db/sqlite/sqlite.go:435-440 | the key loop writes every name, separated by ", " |
| Schema.WriteIndexes | backend/pkg/db/sqlite/sqlite.go:447-456 | the index loop writes one statement line per index |
| Schema.GenerateCreateTableSQL | backend/pkg/db/sqlite/sqlite.go:398-459 | the builder produces the statement `CreateTableSQL` describes |
| Schema.MaxSeqIsMax | backend/pkg/db/sqlite/sqlite.go:248-264 | the running maximum is at least 0, bounds every parsed number, and is 0 or one of them |
| Schema.MaxSeqSnoc | backend/pkg/db/sqlite/sqlite.go:261-263 | one more entry raises the running maximum to its number exactly when that number is larger |
| Schema.LeadingNumber | backend/pkg/db/sqlite/sqlite.go:259-260 | `Sscanf` with "%d_" yields a number only when the name has a `_`, and never for a name that starts with a newline |
| Schema.ByteLen | backend/pkg/db/sqlite/sqlite.go:255 | Go's `len` counts UTF-8 bytes: at least one and at most four per character |
| Schema.ByteLenAscii | backend/pkg/db/sqlite/sqlite.go:255 | for ASCII names the byte length is the character count |
| Schema.ShortNameCountsBytes | backend/pkg/db/sqlite/sqlite.go:254-263 | a five-character name with a two-byte character passes the six-byte bound and contributes its number |
| Schema.NextMigrationSequence | backend/pkg/db/sqlite/sqlite.go:239-267 | 1 for a missing directory, an error for an unreadable one, otherwise one more than the largest number parsed from a non-directory name of at least six bytes, and always at least 1 |
| Schema.CheckMigrationExists | backend/pkg/db/sqlite/sqlite.go:181-202 | false for a missing directory, an error for an unreadable one, otherwise whether some non-directory entry's name contains the marker |
| Follow.CountBy | backend/internal/follow/repository.go:242-275 | a count of follower rows matching one column is at most the number of rows |
| Follow.RemovePair | backend/internal/follow/repository.go:148-158 | every (a, b) row goes and every other row stays |
| Follow.FindRequest | backend/internal/follow/repository.go:59-84 | the lookup returns a stored (a, b) request, and nothing exactly when there is none |
| Follow.SetStatus | backend/internal/follow/repository.go:86-98 | every (a, b) request takes the new status and every other request is unchanged |
| Follow.FindAfterSetStatus | backend/internal/follow/repository.go:59-98 | after a status update the (a, b) lookup finds the new status |
| Follow.FindAfterAppend | backend/internal/follow/repository.go:46-84 | a newly created request is found when none was there before |
| Follow.CountAppend | backend/internal/follow/repository.go:135-146 | a new follow row adds one to exactly the counts it matches |
| Follow.CountRemove | backend/internal/follow/repository.go:148-158 | deleting (a, b) rows leaves every count that such a row does not match |
| Follow.CountRemovedPair | backend/internal/follow/repository.go:148-175 | once the (a, b) rows are deleted, `IsFollowing(a, b)` is false |
| Follow.RecountColumn | backend/internal/follow/service.go:370-399 | the intended recount: `followers_count` counts what `GetFollowersCount` counts and `following_count` what `GetFollowingCount` counts; other stats are not recounted |
| Follow.NormalUpdateFloor | backend/internal/follow/service.go:402-468 | the incremental counter never goes below zero, a decrement at zero stays there, and a missing record acts as a zero one |
| Follow.IncrementThenDecrement | backend/internal/follow/service.go:428-456 | an increment followed by a decrement restores a non-negative counter |
| Follow.FollowKeepsStatsAccurate | backend/internal/follow/service.go:95-111 | recounting both parties after a new follow keeps every stored follow stat equal to the repository's own count |
| Follow.UnfollowKeepsStatsAccurate | backend/internal/follow/service.go:166-182 | recounting both parties after an unfollow keeps every stored follow stat accurate |
| Follow.RecountAsWrittenMiscounts | backend/internal/follow/service.go:372-395 | as written, the recount after a first follow of b by a stores 0 as b's `followers_count`, where the repository's own count is 1 |
| Follow.RecountedAsWritten | backend/internal/follow/service.go:370-399 | as written, b's `followers_count` is stored as b's following count and a's `following_count` as a's follower count; every other stat is unchanged |
| Follow.NormalUpdate | backend/internal/follow/service.go:402-468 | an existing counter moves by one, a decrement never going below zero; a missing one starts at 1 for an increment and 0 otherwise |
| Follow.FollowService.constructor | backend/internal/follow/service.go:58-69 | a new service over empty tables |
| Follow.FollowService.StoreStat | backend/internal/follow/service.go:370-500 | one stats update stores a recount of the column when one is given, else the incremental value, and creates the record if missing; a failure stores nothing |
| Follow.FollowService.UpdateUserStatsAsWritten | backend/internal/follow/service.go:370-399 | as written, `followers_count` is recounted from `follower_id` and `following_count` from `following_id`; other stats take the incremental path; a success gives the user a stats record, a failure changes nothing |
| Follow.FollowService.UpdateUserStats | backend/internal/follow/service.go:370-399 | corrected: each follow stat is recounted from the column its own count query uses; other stats take the incremental path; a success gives the user a stats record, a failure changes nothing |
| Follow.FollowService.AfterChange | backend/internal/follow/service.go:99-111 | as written: the two stats updates store the swapped recounts `RecountedAsWritten` describes and give a and b stats records, or on failure leave the stats and records as they were; then the stats events follow; the follow and request tables stay as they were |
| Follow.FollowService.AfterChangeCorrected | backend/internal/follow/service.go:99-111 | corrected: the two stats updates store b's follower count as its `followers_count` and a's following count as its `following_count` and give both stats records, or on failure change no stat |
| Follow.FollowService.FollowUser | backend/internal/follow/service.go:71-146 | self-follow, an existing follow, a pending request and query failures are errors that change nothing; a public profile is followed at once, both counts are broadcast, the follow notification sent and, as written, b's `followers_count` is stored as b's following count with a and b given stats records (a failed stats update stores nothing); a private one sets an earlier declined or accepted request back to pending or appends a new pending one, with nothing else changed |
| Follow.FollowService.UnfollowUser | backend/internal/follow/service.go:149-188 | succeeds iff the users differ and a follows b; then every (a, b) row is gone, both counts are broadcast and, as written, a's `following_count` is stored as a's follower count with both given stats records (a failed stats update stores nothing); a failure changes nothing |
| Follow.FollowService.AcceptFollowRequest | backend/internal/follow/service.go:191-234 | succeeds iff a pending request exists and both writes succeed; then exactly that request becomes accepted, the follow is appended, both counts are broadcast and the swapped recounts stored with both given stats records (a failed stats update stores nothing); a failing second write leaves the request accepted without a follow; every other failure changes nothing |
| Follow.FollowService.DeclineFollowRequest | backend/internal/follow/service.go:237-254 | succeeds iff a pending request exists and the write succeeds; then it is declined, and the follows, stats, stats records and sent events never change |
| FollowNotify.SendFollowRequestAccepted | backend/internal/follow/notification.go:60-87 | the followed user's details go to the follower only, and nothing without a hub or user record |
| FollowNotify.SendFollowNotification | backend/internal/follow/notification.go:90-123 | the follower's details and "followed" or "unfollowed" go to the followed user only |
| FollowNotify.UpdateFollowerCounts | backend/internal/follow/notification.go:126-158 | the followed user hears its followers count and the follower its following count, each only when its query succeeded |
| FollowNotify.FollowAndUnfollowDifferOnlyInAction | backend/internal/follow/notification.go:103-122 | following and unfollowing send the same event except for its action |
| UserStatus.FollowerIds | backend/internal/user/status_repository.go:60-81 | the ids returned are exactly the followers of the user, one per follower row |
| UserStatus.StatusEvent | backend/internal/user/status_service.go:40-52 | the `user_status_update` event carries the user's id and the new flag |
| UserStatus.StatusService.constructor | backend/internal/user/status_service.go:18-24 | a new service with no status rows and nothing sent |
| UserStatus.StatusService.GetUserStatus | backend/internal/user/status_repository.go:46-57 | the stored flag, and offline for a user without a row |
| UserStatus.StatusService.SetStatus | backend/internal/user/status_service.go:27-89 | upsert the flag, read the followers, then send each of them the new status; a failed write or follower query returns its error and sends nothing |
| UserStatus.StatusService.SetUserOnline | backend/internal/user/status_service.go:27-56 | afterwards the user reads as online, no other user's status changes, and each follower hears so |
| UserStatus.StatusService.SetUserOffline | backend/internal/user/status_service.go:59-90 | afterwards the user reads as offline, no other user's status changes, and each follower hears so |
| Posts.Select | backend/internal/post/service.go:115-128 | the kept rows are exactly the rows satisfying the filter, in order, and no more than there were |
| Posts.InsertByMember | backend/internal/post/repository.go:134 | inserting into an ordered list adds exactly the new element |
| Posts.InsertByAscending | backend/internal/post/repository.go:134 | inserting into an ascending list keeps it ascending |
| Posts.SortBy | backend/internal/post/repository.go:134 | `ORDER BY`: the result is ascending in the key and a permutation of the rows |
| Posts.SortByMembers | backend/internal/post/repository.go:134 | sorting keeps exactly the elements it was given |
| Posts.Window | backend/internal/post/repository.go:184 | `LIMIT ? OFFSET ?`: at most `limit` rows from the offset on, a full page when enough rows remain; a negative limit is no limit and a negative offset zero |
| Posts.WindowWithin | backend/internal/post/repository.go:183-184 | a window of an ascending list is ascending and holds only its rows |
| Posts.FindPost | backend/internal/post/repository.go:91-126 | a post with the id is returned if stored, and nothing (no error) exactly when there is none |
| Posts.CountFollowRows | backend/internal/post/repository.go:314-319 | the follower count query fails exactly when it names a column the followers table does not have |
| Posts.SelectNonEmpty | backend/internal/post/repository.go:315-329 | a `COUNT(*) > 0` test holds iff some row matches |
| Posts.LikeRowsSnoc | backend/internal/post/repository.go:420-432 | one more like row adds one to its own post's count |
| Posts.LikeRowsRemoved | backend/internal/post/repository.go:450-453 | deleting a user's likes of a post leaves other posts' counts, and removes exactly that user's rows from the post's count |
| Posts.LikeKeepsConsistent | backend/internal/post/repository.go:412-439 | a like keeps every post's counter equal to its number of like rows |
| Posts.UnlikeKeepsConsistent | backend/internal/post/repository.go:442-476 | an unlike keeps the counters consistent when the user had liked the post at most once |
| Posts.DoubleLikeThenUnlike | backend/internal/post/repository.go:412-476 | a second like by the same user leaves two rows, and one unlike then deletes both but decrements once |
| Posts.UsersOf | backend/internal/post/repository.go:268-290 | the viewer ids listed for a post are exactly the users with a row for it |
| Posts.Additions | backend/internal/post/service.go:278-286 | the adding loop inserts a row for exactly the listed ids that are not current viewers |
| Posts.Removals | backend/internal/post/service.go:288-296 | the removing loop keeps exactly the rows that are not of a current viewer missing from the list |
| Posts.ReconcileViewers | backend/internal/post/service.go:260-296 | after both loops a user has a row for the post iff it was listed, and other posts' rows are untouched |
| Posts.AdditionsSnoc | backend/internal/post/service.go:279-286 | one more listed id adds its row exactly when it is not a current viewer |
| Posts.RemovalsSnoc | backend/internal/post/service.go:289-296 | one more current viewer removes its rows exactly when it is not listed |
| Posts.Repository.constructor | backend/internal/post/repository.go:52-55 | a repository over empty tables |
| Posts.Repository.GetPostsByUserID | backend/internal/post/repository.go:129-175 | exactly the user's posts, newest first |
| Posts.Repository.PublicNewestFirst | backend/internal/post/repository.go:180-183 | the public posts, each as often as it is stored and nothing else, newest first |
| Posts.Repository.GetPublicPostsCorrected | backend/internal/post/repository.go:178-219 | the intended page: the `LIMIT ? OFFSET ?` window of the public posts newest first, stored posts only, at most `limit`, a full page when enough remain |
| Posts.Repository.GetPublicPosts | backend/internal/post/repository.go:178-219 | as written: the page of public posts newest first that the query selects, each with its image path dropped, because the scanned path is never copied into the post |
| Posts.Repository.GetCommentsByPostID | backend/internal/post/repository.go:361-402 | exactly the post's comments, oldest first |
| Posts.Repository.Viewable | backend/internal/post/service.go:115-128 | exactly the given posts, in order, that the as-written check grants the viewer; a post whose check errs is dropped |
| Posts.Repository.ViewableSnoc | backend/internal/post/service.go:115-128 | one more post is kept at the end of the viewable list exactly when the check grants it |
| Posts.Repository.CreatePost | backend/internal/post/repository.go:57-88 | inserts the post with the next row id and a zero like count, so it can be looked up; nothing else changes |
| Posts.Repository.UpdatePost | backend/internal/post/repository.go:222-241 | overwrites content, image, privacy and update time of the rows with the id and nothing else |
| Posts.Repository.DeletePost | backend/internal/post/repository.go:244-248 | every row with the id goes |
| Posts.Repository.AddPostViewer | backend/internal/post/repository.go:251-258 | appends the viewer row |
| Posts.Repository.RemovePostViewer | backend/internal/post/repository.go:261-265 | every matching viewer row goes |
| Posts.Repository.CreateComment | backend/internal/post/repository.go:336-358 | inserts the comment and returns it with its new row id |
| Posts.Repository.DeleteComment | backend/internal/post/repository.go:405-409 | every comment with the id goes |
| Posts.Repository.LikePost | backend/internal/post/repository.go:412-439 | succeeds iff every step does; then the like row is added and the counter incremented, otherwise nothing is kept |
| Posts.Repository.UnlikePost | backend/internal/post/repository.go:442-476 | on success the user's likes of the post go and the counter is decremented, never below zero, only when a row was deleted; on failure nothing is kept |
| Posts.FindPostAppend | backend/internal/post/repository.go:57-126 | a post inserted under a fresh id is found by that id |
| Posts.CanViewDecision | backend/internal/post/repository.go:293-333 | corrected: a missing post is an error, the author always sees it, others see a public post, an almost-private one iff they follow the author, a private one iff listed; any other privacy value is an error |
| Posts.AlmostPrivateAsWrittenFails | backend/internal/post/repository.go:312-319 | as written, the follower query names `followed_id`, so an almost-private post is an error for everyone but its author |
| Posts.CorrectedAgreesElsewhere | backend/internal/post/repository.go:293-333 | the corrected check agrees with the written one on every other case |
| Posts.ViewDecision | backend/internal/post/repository.go:293-333 | a missing post is "post not found"; the author and anyone for a public post are granted; others err exactly on an unknown privacy value or an almost-private post whose follower query fails; a private post is granted iff the viewer is listed |
| Posts.Repository.CanViewPost | backend/internal/post/repository.go:293-333 | corrected: errs exactly for a missing post or, for a non-author, an unknown privacy value |
| Posts.Repository.CanViewPostAsWritten | backend/internal/post/repository.go:293-333 | as written: a missing post errs, the author is granted, a non-author errs on an almost-private post with "no such column", and is granted iff the post is public or private with the viewer listed |
| Posts.UpdatedRows | backend/internal/post/repository.go:222-241 | the `UPDATE … WHERE id = ?`: the rows with the post's id take its content, image, privacy and the new update time; every other row is unchanged |
| Posts.FindPostUpdated | backend/internal/post/repository.go:91-241 | after the update the lookup by id finds the stored post with the new fields and update time |
| Posts.Service.constructor | backend/internal/post/service.go:38-45 | a service over the given repository that has deleted no file |
| Posts.Service.CreatePost | backend/internal/post/service.go:47-77 | an unknown privacy value and a failed image save are refused before anything is written; otherwise the post is inserted with its image name |
| Posts.Service.GetPost | backend/internal/post/service.go:80-103 | succeeds iff the as-written check grants the post, and then returns the stored post; so a non-author never gets an almost-private post |
| Posts.Service.GetUserPosts | backend/internal/post/service.go:106-129 | the user's posts, newest first, that the as-written check grants the viewer |
| Posts.Service.UpdatePost | backend/internal/post/service.go:150-201 | refuses a missing post, a non-author and an unknown privacy value in that order, changing nothing; on success the stored rows are `UpdatedRows` of the old ones, the lookup finds the new post and its update time is now; a new image deletes the old file first, so a failed save leaves the post pointing at a deleted file |
| Posts.Service.DeletePost | backend/internal/post/service.go:204-235 | a missing post or a non-author is refused; otherwise the image file is deleted and the post removed |
| Posts.Service.AddMissingViewers | backend/internal/post/service.go:278-286 | the loop appends a row for each listed id that is not a current viewer |
| Posts.Service.RemoveStaleViewers | backend/internal/post/service.go:288-296 | the loop removes every row of each current viewer that is not listed |
| Posts.Service.SetPostViewers | backend/internal/post/service.go:238-299 | refuses a missing post, a non-author or a non-private post with no change; otherwise afterwards a user can view it iff listed, and other posts' rows are untouched |
| Posts.Service.CreateComment | backend/internal/post/service.go:302-338 | only someone the as-written check grants the post may comment; a failed image save adds nothing; the comment is stored with equal creation and update times |
| Posts.Service.GetPostComments | backend/internal/post/service.go:341-361 | the post's comments, oldest first, iff the as-written check grants the caller the post |
| Posts.Service.DeleteComment | backend/internal/post/service.go:364-376 | the comment is deleted whoever asks |
| Posts.DeleteCommentIgnoresCaller | backend/internal/post/service.go:364-376 | afterwards no comment with that id remains and every other comment does |
| Posts.PublicPostsDefaults | backend/internal/post/service.go:132-147 | without a positive limit at most ten posts are returned, all public |
| Posts.Service.GetPublicPosts | backend/internal/post/service.go:132-147 | at most the limit, or ten without a positive one, of public posts with no image path; a full page when enough public posts remain past the offset |
| Posts.PublicFeedDropsImages | backend/internal/post/repository.go:193-211 | a stored public post with an image comes back from the feed without it |
| PostHandler.ImageUrl | backend/internal/post/handler.go:113-115 | an image URL is present iff the stored path is not empty, and is the upload prefix of its directory followed by the path |
| PostHandler.ToPostResponse | backend/internal/post/handler.go:150-161 | the post reply copies id, author, content, privacy and times, and carries the image URL under /uploads/posts/ iff the post has an image |
| PostHandler.ToCommentResponse | backend/internal/post/handler.go:517-528 | the comment reply copies id, post, author, content and both times, and carries the image URL under /uploads/comments/ iff the comment has an image |
| PostHandler.PostResponses | backend/internal/post/handler.go:255-271 | one reply entry per post, in order, each the response built from that post |
| PostHandler.BuildPostResponses | backend/internal/post/handler.go:255-271 | the appending loop builds exactly the reply list |
| PostHandler.CommentResponses | backend/internal/post/handler.go:512-530 | one reply entry per comment, in order, each the response built from that comment, with its post id, content and update time |
| PostHandler.Authenticated | backend/internal/post/handler.go:62-66 | the handler proceeds iff a user is authenticated, else replies 401 |
| PostHandler.PostIdOf | backend/internal/post/handler.go:131-140 | the id is the last of at least three path segments, parsed as a 64-bit integer; anything else is a 400 |
| PostHandler.CommentPostIdOf | backend/internal/post/handler.go:428-437 | the id is the second-to-last of at least four path segments; anything else is a 400 |
| PostHandler.PostIdFromPath | backend/internal/post/handler.go:131-140 | a post URL `base/<n>` names post n, and a path of fewer than three segments is a 400 |
| PostHandler.CommentPostIdFromPath | backend/internal/post/handler.go:428-437 | a comment URL `base/<n>/<tail>` names post n |
| PostHandler.CreatePostRequest | backend/internal/post/handler.go:60-87 | proceeds iff there is a user, a parsed form, and non-empty content and privacy; a missing field is a 400 |
| PostHandler.UpdatePostRequest | backend/internal/post/handler.go:278-312 | proceeds iff there is a user, a post id, a parsed form and non-empty content; privacy may be empty |
| PostHandler.CreateCommentRequest | backend/internal/post/handler.go:419-452 | proceeds iff there is a user, a comment-path post id, a parsed form and content |
| PostHandler.PublicPostsParams | backend/internal/post/handler.go:228-245 | the limit is 10 unless a positive integer is given, the offset 0 unless a non-negative integer is given |
| PostHandler.GetPost | backend/internal/post/handler.go:122-165 | succeeds iff there is a user and a post id and the as-written check grants the post, so no non-author reads an almost-private post; a failure is logged as a warning iff its status is 500 |
| PostHandler.GetPublicPosts | backend/internal/post/handler.go:219-275 | an authenticated caller gets 200 and the reply list of the service's page for the parsed limit and offset, at most the limit long and with no image URL |
| PostHandler.HandleComments | backend/internal/post/handler.go:569-581 | POST creates, GET lists, DELETE deletes, and any other method is refused |
| HttpParams.SendError | backend/internal/post/handler.go:588-594 | the reply keeps the status and message given |
| HttpParams.SendErrorWarnings | backend/internal/post/handler.go:588-594 | 400, 401 and 405 replies are not flagged as warnings, and a 500 is |
| HttpParams.SegmentId | backend/internal/post/handler.go:131-140 | a parsed id comes from a path of at least the required number of segments; a shorter path is refused as an invalid URL |
| HttpParams.SegmentIdLast | backend/internal/post/handler.go:131-140 | the path `base/<n>` yields n from its last segment |
| HttpParams.SegmentIdSecondLast | backend/internal/post/handler.go:428-437 | the path `base/<n>/<tail>` yields n from its second-to-last segment |
| HttpParams.IntParamSpec | backend/internal/post/handler.go:231-245 | a query parameter takes the given value exactly when it parses within bounds, and the default otherwise |
| HttpParams.IntParam | backend/internal/post/handler.go:231-245 | an absent parameter gives the default; any other value is the default or a parsed integer within the bounds |
| Routes.ChainLayers | backend/internal/server/routes.go:228-235 | the chain wraps without replacing: a request passes the listed middlewares last-listed first, then what `final` already had, and reaches `final`'s endpoint; an empty chain is the identity |
| Routes.ChainAppend | backend/internal/server/routes.go:228-235 | chaining a and then b is chaining a + b |
| Routes.Chain | backend/internal/server/routes.go:228-235 | an empty list leaves the handler as it is; otherwise the outermost layer is the last-listed middleware, and the chain adds exactly one layer per middleware |
| Routes.ApplyChain | backend/internal/server/routes.go:229-234 | the reassigning loop builds exactly the chained handler |
| Routes.ChainOrders | backend/internal/server/routes.go:76-78 | a public request passes CORS and then logging; an authenticated one logging, auth, JWT and then CORS; a WebSocket upgrade JWT and then CORS |
| Routes.Mounted | backend/internal/server/routes.go:46-50 | registering a group adds exactly the patterns `prefix + pattern`, each wrapped by the group's chain |
| Routes.MountedStep | backend/internal/server/routes.go:47-50 | mounting one more route not yet visited adds one new full pattern |
| Routes.Mux.constructor | backend/internal/server/routes.go:72 | a new mux has no patterns |
| Routes.Mux.Handle | backend/internal/server/routes.go:49 | registration succeeds iff the pattern is non-empty and not yet taken, and then adds only it |
| Routes.RouteGroup.constructor | backend/internal/server/routes.go:27-33 | a new group has the given prefix and chain and no routes |
| Routes.RouteGroup.Handle | backend/internal/server/routes.go:36-43 | the handler is stored under the pattern, replacing an earlier one, and other routes are unchanged |
| Routes.RouteGroup.Register | backend/internal/server/routes.go:46-51 | when no full pattern is empty or taken, every route is mounted under `prefix + pattern` wrapped by the chain; otherwise the mux refuses |
| Routes.Health | backend/internal/server/routes.go:81-88 | 200 "OK" exactly for GET, else a plain 405 |
| Routes.PostsRoot | backend/internal/server/routes.go:114-125 | POST creates, GET reads the feed, DELETE deletes, anything else is a plain 405 |
| Routes.GroupsRoot | backend/internal/server/routes.go:132-149 | a GET reads one group when an `id` query is given and all groups otherwise; POST, PUT and DELETE create, update and delete; anything else is a plain 405 |
| Routes.GroupMembers | backend/internal/server/routes.go:151-158 | only GET lists the members |
| Routes.GroupPosts | backend/internal/server/routes.go:169-180 | POST, GET and DELETE create, list and delete group posts; anything else is a plain 405 |
| Routes.NotificationRoot | backend/internal/server/routes.go:193-204 | GET lists, PUT marks read, DELETE clears; anything else is a JSON 405 |
| ChatHandler.Gate | backend/internal/chat/handler.go:29-39 | a request proceeds iff its method is the endpoint's and a user is authenticated; a wrong method is a 405 and a missing user a 401 |
| ChatHandler.SendMessage | backend/internal/chat/handler.go:27-67 | proceeds iff a POST by a user has a parsed body with a receiver and content; the service then gets (sender, receiver, content) |
| ChatHandler.GetMessages | backend/internal/chat/handler.go:70-121 | proceeds iff a GET by a user names the other user; the limit is 50 unless a positive integer is given, the offset 0 unless a non-negative one is |
| ChatHandler.MarkAsRead | backend/internal/chat/handler.go:124-162 | proceeds iff a POST by a user names a sender; the service gets (sender, caller) in that order |
| ChatHandler.GetContacts | backend/internal/chat/handler.go:165-189 | proceeds iff a GET by an authenticated user |
| ChatHandler.SendTypingIndicator | backend/internal/chat/handler.go:192-230 | proceeds iff a POST by a user names a receiver; the service gets (sender, receiver) |
| ChatHandler.Finish | backend/internal/chat/handler.go:56-66 | a checked request succeeds with the endpoint's status and the service's result iff the service succeeds; a service error is a 500 flagged as a warning |
| ChatHandler.ChatRefusalsAreClientErrors | backend/internal/chat/handler.go:238-244 | no refused request is flagged as a warning |
| NotificationHandler.Authenticated | backend/internal/notifcations/hanlder.go:44-50 | proceeds iff a non-empty user id is present, else a 401 |
| NotificationHandler.ListParams | backend/internal/notifcations/hanlder.go:52-70 | the limit is 10 unless a value in 1..100 is given, the offset 0 unless a non-negative one is |
| NotificationHandler.NotificationIdOf | backend/internal/notifcations/hanlder.go:120-129 | the id is the last of at least three path segments and must be a positive integer; anything else is a 400 |
| NotificationHandler.NotificationIdFromPath | backend/internal/notifcations/hanlder.go:120-129 | a path `base/<n>` names notification n for every positive n |
| NotificationHandler.ToResponse | backend/internal/notifcations/hanlder.go:81-101 | copies the plain fields, the sender only when valid and non-empty, each target only when valid; the creation time stays empty |
| NotificationHandler.Responses | backend/internal/notifcations/hanlder.go:79-104 | one entry per notification, in the service's order, each the response built from that notification |
| NotificationHandler.BuildResponses | backend/internal/notifcations/hanlder.go:79-104 | the appending loop builds exactly the reply list |
| NotificationHandler.HandleNotifications | backend/internal/notifcations/hanlder.go:180-196 | GET lists, PUT marks all when the path ends in "read" and one otherwise, DELETE clears, anything else is a 405 |
| EventService.FindEvent | backend/internal/event/service.go:100-103 | the index found holds an event with the id and no earlier one does; the length means there is none |
| EventService.FindAfterReplace | backend/internal/event/service.go:198-206 | rewriting the found event with its id kept leaves it the one found |
| EventService.EventsOf | backend/internal/event/service.go:140-145 | exactly the events of the group, each as often as it is stored, and none of another group |
| EventService.EventsOfAppend | backend/internal/event/service.go:140-145 | selecting from concatenated rows concatenates the selections, so the events keep their row order |
| EventService.RemoveEvent | backend/internal/event/service.go:236 | every row with the id goes and every other row stays |
| EventService.RoleOf | backend/internal/event/service.go:172-179 | a role is found exactly for a member of the group |
| EventService.MembersOf | backend/internal/event/service.go:315-362 | exactly the accepted members of the group with their roles, each as often as its row is stored |
| EventService.MembersOfAppend | backend/internal/event/service.go:315-362 | selecting from concatenated rows concatenates the selections, so the members keep their row order |
| EventService.MayModify | backend/internal/event/service.go:169-180 | the creator passes without a role lookup; anyone else passes iff their role is admin |
| EventService.SavedBanner | backend/internal/event/service.go:70-78 | the stored banner is the saved upload, or nothing |
| EventService.ApplyUpdate | backend/internal/event/service.go:182-195 | title, description and date always change; the banner only when a new one was saved; id, group and creator stay |
| EventService.WithResponse | backend/internal/event/service.go:115-123 | the caller's response, when there is one, is copied onto the event and nothing else changes |
| EventService.EventService.constructor | backend/internal/event/service.go:39-47 | a service over the given tables with nothing sent |
| EventService.EventService.NotifyMembers | backend/internal/event/service.go:315-362 | the loop sends one event to every accepted member of the group, in order |
| EventService.EventService.CreateEvent | backend/internal/event/service.go:49-95 | a member stores a new event under a fresh id, with the banner when saved, and every member hears of it; a non-member or a failed banner upload changes nothing |
| EventService.EventService.GetEvent | backend/internal/event/service.go:98-126 | the event, to a member of its group only, carrying the caller's response when there is one |
| EventService.EventService.GetGroupEvents | backend/internal/event/service.go:129-159 | to a member, the group's events in order, each carrying the caller's response exactly when the caller answered it |
| EventService.EventService.UpdateEvent | backend/internal/event/service.go:162-212 | the creator or a group admin overwrites the fields and every member hears of it; any refusal or failure changes nothing |
| EventService.EventService.DeleteEvent | backend/internal/event/service.go:215-244 | the creator or a group admin removes the event and every member hears of it; a refusal changes nothing |
| EventService.EventService.NotifyResponse | backend/internal/event/service.go:364-398 | every member hears the response and the new tallies, unless the user row or the tallies cannot be read |
| EventService.EventService.RespondToEvent | backend/internal/event/service.go:247-285 | a response other than going or not going is refused before any lookup; otherwise a member's response is recorded, replacing an earlier one, and when the user and both tallies load every member of the event's group is sent the response with the new going and not-going tallies; a failure changes nothing |
| EventService.EventService.GetEventResponses | backend/internal/event/service.go:288-312 | to a member of the event's group, the users who gave that response |
| EventNotify.SendEventCreated | backend/internal/event/notification.go:30-69 | every accepted member, unless there is no hub or the creator or member lookup fails, in which case nobody |
| EventNotify.SendEventUpdated | backend/internal/event/notification.go:72-100 | every accepted member, unless there is no hub or the member lookup fails |
| EventNotify.SendEventResponse | backend/internal/event/notification.go:103-140 | the event's creator alone, unless there is no hub or a lookup fails |
| Groups.MemberIds | backend/internal/group/notifications.go:101-104 | one id per member, in order |
| Groups.AdminIds | backend/internal/group/notifications.go:120-125 | exactly the ids of the members whose role is admin |
| Groups.IdsExcept | backend/internal/group/notifications.go:152-157 | exactly the ids of the members other than the skipped user, which never appears |
| Groups.IdsExceptAbsent | backend/internal/group/notifications.go:152-157 | with nobody to skip every member is reached |
| Groups.IdsExceptSnoc | backend/internal/group/notifications.go:153-156 | one more member adds its id exactly when it is not the skipped user |
| Groups.AdminIdsSnoc | backend/internal/group/notifications.go:121-124 | one more member adds its id exactly when it is an admin |
| Groups.SendToAll | backend/internal/group/notifications.go:101-104 | the loop sends the event to every member, in order |
| Groups.SendToAdmins | backend/internal/group/notifications.go:120-125 | the loop sends the event to the admins only, in order |
| Groups.SendToAllExcept | backend/internal/group/notifications.go:266-271 | the loop sends the event to every member but the skipped one, in order |
| GroupNotify.UserValue | backend/internal/group/notifications.go:109 | a payload carries the user row, or nil exactly when the lookup fails |
| GroupNotify.NotifyGroupCreated | backend/internal/group/notifications.go:27-37 | only the creating user hears `group_created`, carrying the group |
| GroupNotify.NotifyGroupUpdated | backend/internal/group/notifications.go:40-54 | every accepted member hears it, the updater included |
| GroupNotify.NotifyGroupDeleted | backend/internal/group/notifications.go:57-71 | every accepted member hears it |
| GroupNotify.NotifyGroupInvitation | backend/internal/group/notifications.go:74-86 | only the invitee hears it, with the inviter's row |
| GroupNotify.NotifyGroupInvitationAccepted | backend/internal/group/notifications.go:89-105 | every accepted member hears it |
| GroupNotify.NotifyGroupJoinRequest | backend/internal/group/notifications.go:108-126 | exactly the accepted members whose role is admin hear it |
| GroupNotify.NotifyGroupJoinRequestAccepted | backend/internal/group/notifications.go:129-158 | the new member hears the acceptance first; then every other accepted member hears `new_group_member`, which the new member never receives |
| GroupNotify.NotifyGroupMemberLeft | backend/internal/group/notifications.go:161-178 | every accepted member hears it |
| GroupNotify.NotifyGroupMemberRoleUpdated | backend/internal/group/notifications.go:180-199 | every accepted member hears it, each event carrying the new role |
| GroupNotify.NotifyGroupMemberRemoved | backend/internal/group/notifications.go:202-230 | the removed user hears `removed_from_group` first; then every accepted member hears `group_member_removed` |
| GroupNotify.NotifyGroupPostCreated | backend/internal/group/notifications.go:233-246 | every accepted member of the post's group hears it |
| GroupNotify.NotifyGroupChatMessage | backend/internal/group/notifications.go:249-272 | every accepted member but the sender hears it |
| GroupNotify.NotifyGroupJoinRequestRejected | backend/internal/group/notifications.go:275-288 | only the rejected user hears it, with the admin's row |
| GroupNotify.NotifyGroupInvitationRejected | backend/internal/group/notifications.go:291-304 | only the inviter hears it, with the invitee's row |
| GroupNotify.ChatReachesEveryoneButTheSender | backend/internal/group/notifications.go:266-271 | among the members, a chat message reaches exactly those who did not send it |
| ChatNotify.NotifyNewMessage | backend/internal/chat/notification.go:23-50 | with a hub, the same `private_message` event goes to the receiver and then the sender; never an error |
| ChatNotify.NotifyMessageRead | backend/internal/chat/notification.go:53-73 | with a hub, the same `messages_read` event goes to the sender and then the reader; never an error |
| ChatNotify.NotifyTyping | backend/internal/chat/notification.go:76-95 | with a hub, only the receiver hears `user_typing`; never an error |
| WsClient.ReconnectDelay | frontend/src/services/websocketService.js:143-146 | the delay before attempt `a` is one second doubled `a - 1` times, capped at thirty seconds |
| WsClient.DelaySchedule | frontend/src/services/websocketService.js:25-26 | with five attempts allowed, the delays are 1, 2, 4, 8 and 16 seconds, all under the cap |
| WsClient.DecideOnClose | frontend/src/services/websocketService.js:136-164 | a close reconnects iff its code is not 1000 and fewer than five attempts were made, counting one more attempt; it gives up iff the attempts are used up; a clean close below the maximum does nothing |
| WsClient.FailureRun | frontend/src/services/websocketService.js:136-164 | one decision per close in a run of closes |
| WsClient.FailureRunFromStart | frontend/src/services/websocketService.js:136-164 | what the `onclose` handler alone decides for a run of abnormal closes from a zero count: exactly five reconnects after 1, 2, 4, 8 and 16 seconds, and a give-up for every later close |
| WsClient.GiveUpForever | frontend/src/services/websocketService.js:156-164 | once the attempts are used up, every further close gives up |
| WsClient.WsHost | frontend/src/services/websocketService.js:81 | the host is the base URL with one leading `http://` or `https://` and one trailing slash removed |
| WsClient.WsUrl | frontend/src/services/websocketService.js:80-82 | the socket address is the ws or wss scheme, the host, `/ws` and the token as query |
| WsClient.Without | frontend/src/services/websocketService.js:197 | the filtered list holds exactly the other callbacks, and is unchanged when the callback was absent |
| WsClient.Subscribed | frontend/src/services/websocketService.js:182-189 | the callback goes last in its type's list; every other type is untouched |
| WsClient.Unsubscribed | frontend/src/services/websocketService.js:192-199 | every occurrence of the callback leaves its type's list; every other type is untouched |
| WsClient.UnsubscribeUndoesSubscribe | frontend/src/services/websocketService.js:182-200 | unsubscribing a new callback restores its type's list as it was |
| WsClient.Dispatch | frontend/src/services/websocketService.js:112-116 | a message without a type calls nobody; otherwise each listener of its type is called once, in order, with the payload |
| WsClient.CallEach | frontend/src/services/websocketService.js:113-115 | one call per listener, in order, with the payload |
| WsClient.CallListeners | frontend/src/services/websocketService.js:113-115 | the `forEach` loop makes exactly the calls of `CallEach` |
| WsClient.Client.constructor | frontend/src/services/websocketService.js:17-31 | no socket, not connected, no attempts, no listeners, nothing scheduled |
| WsClient.Client.ConnectWith | frontend/src/services/websocketService.js:34-86 | a call of a `connect` closure keeps the attempts, listeners, last message, connection flags and start-up timer; it changes nothing when it skips (no login, no token, an attempt in progress, or its held socket open), only adds the give-up toast once the attempts are used up, and otherwise closes the socket the closure held, cancels the timer and ping, and leaves a new connecting socket to `WsUrl` made by that closure |
| WsClient.Client.ConnectWithConsistent | frontend/src/services/websocketService.js:34-86 | a `connect` call keeps the attempts within the maximum, the socket id below the next id, and every socket a closure held closed |
| WsClient.Client.CallConnect | frontend/src/services/websocketService.js:34-86 | the whole new state is `ConnectWith` of the old one, for the closure and held-socket state given |
| WsClient.Client.Connect | frontend/src/services/websocketService.js:34-179 | `connect` of the current render: the new state is `ConnectWith` of the old one with the current listener table and socket captured; when it connects, the new socket keeps the current table and the current socket gets a close call |
| WsClient.Client.OnOpen | frontend/src/services/websocketService.js:88-101 | connected, attempts back to zero, the ping interval running |
| WsClient.Client.PingTick | frontend/src/services/websocketService.js:96-100 | a ping `{"type":"ping"}` is sent iff the socket is open |
| WsClient.Client.OnMessage | frontend/src/services/websocketService.js:103-120 | an unparsable message is dropped; otherwise it becomes the last message and is dispatched to the listener table the socket was created with; no other field changes |
| WsClient.Client.OnMessageCurrent | frontend/src/services/websocketService.js:103-120 | the same, dispatching from the listener table current when the message arrives; no other field changes |
| WsClient.Client.OnClose | frontend/src/services/websocketService.js:122-165 | disconnected and the ping stopped; then exactly what `DecideOnClose` says: a timer after `ReconnectDelay` that will call the `connect` which made the closed socket, a give-up toast, or nothing |
| WsClient.Client.OnError | frontend/src/services/websocketService.js:167-176 | the attempt is no longer in progress and the ping stopped; every other field is unchanged |
| WsClient.Client.ReconnectFires | frontend/src/services/websocketService.js:150-155 | the timer is spent; while authenticated with a token the new state is `ConnectWith` of the old one, with the timer cleared, for the closure the timer holds: that render's listener table and socket, which was already told to close; otherwise only the timer changes |
| WsClient.Client.StartupEffect | frontend/src/services/websocketService.js:225-262 | with a login and a token the attempts become zero and the 300 ms timer is pending, nothing else changes; without a login it disconnects; with a login but no token nothing changes |
| WsClient.Client.StartupFires | frontend/src/services/websocketService.js:232-234 | the start-up timer is spent and the new state is `ConnectWith` for the current render's `connect` |
| WsClient.ReconnectKeepsStaleTable | frontend/src/services/websocketService.js:103-155 | a callback subscribed after a socket was made is in the current table but not in the table of the socket a reconnect opens |
| WsClient.BackoffRestarts | frontend/src/services/websocketService.js:225-262 | a reconnect, the effect re-run its new socket causes, and another abnormal close leave one attempt counted and a one-second delay, whatever the count was before |
| WsClient.BackoffGrows | frontend/src/services/websocketService.js:136-155 | without that re-run, a reconnect and another abnormal close count one more attempt and wait `ReconnectDelay` of the new count |
| WsClient.Client.Disconnect | frontend/src/services/websocketService.js:204-222 | with a socket: closed with 1000, forgotten, disconnected, attempts zeroed, timer and ping cleared, every other field unchanged; without one: nothing changes |
| WsClient.Client.Resume | frontend/src/services/websocketService.js:265-315 | visible or online, authenticated and not open: the new state is what the current `connect` leaves of the old one with the attempts reset, so they stay zero, and a new socket keeps the current table; otherwise nothing changes |
| WsClient.Client.Subscribe | frontend/src/services/websocketService.js:182-189 | the listener table becomes `Subscribed` of the old one and no other field changes |
| WsClient.Client.Unsubscribe | frontend/src/services/websocketService.js:192-200 | the listener table becomes `Unsubscribed` of the old one and no other field changes |
| WsClient.LateSubscriberMissesMessages | frontend/src/services/websocketService.js:103-116 | a callback subscribed after the socket was created is never called by that socket, though the current table holds it |
| WsClient.SubscriberHearsMessages | frontend/src/services/websocketService.js:112-116 | dispatching from the current table, every subscribed callback hears every message of its type |
| GroupChat.NewOnes | frontend/src/services/groupChatService.js:40-42 | exactly the fetched messages whose id is not yet listed |
| GroupChat.Loaded | frontend/src/services/groupChatService.js:35-44 | a null body empties the list; otherwise the old list is kept as a prefix, followed by the new ones, and every fetched id ends up listed |
| GroupChat.LoadMessages | frontend/src/services/groupChatService.js:24-52 | a failed request changes nothing and returns `[]`; otherwise the list becomes `Loaded` and the body is returned |
| GroupChat.NothingNew | frontend/src/services/groupChatService.js:40-42 | when every fetched id is already listed, nothing is added |
| GroupChat.LoadTwice | frontend/src/services/groupChatService.js:39-44 | loading the same page twice is loading it once |
| GroupChat.MarkAllRead | frontend/src/services/groupChatService.js:98-105 | same length; unread messages become read at the given time, read ones are left unchanged; afterwards all are read |
| GroupChat.MarkAllReadIdempotent | frontend/src/services/groupChatService.js:98-105 | marking twice is marking once, whatever the second time stamp |
| GroupChat.MarkMessagesAsRead | frontend/src/services/groupChatService.js:82-114 | after an OK response the unread count is zero and every message read; after a failure nothing changes; the result says which |
| GroupChat.NameOfTwoWords | frontend/src/services/groupChatService.js:186-187 | a two-word sender name splits into first and last name |
| GroupChat.FromPayload | frontend/src/services/groupChatService.js:166-190 | the message keeps the payload's id, sender and content, and is not temporary |
| GroupChat.ReplaceTemps | frontend/src/services/groupChatService.js:200-204 | each temporary copy from the same sender with the same content is replaced by the message; everything else stays |
| GroupChat.OnGroupMessage | frontend/src/services/groupChatService.js:163-213 | events for another group change nothing; a known message replaces its temporary copies, an unknown one is appended; the unread count grows by one exactly for an unread message from someone else |
| GroupChat.MessageEventOutcome | frontend/src/services/groupChatService.js:192-208 | afterwards no temporary copy is left, the list grew by at most one, and the message is present unless only its id was known |
| GroupChat.DuplicateDeliveryIgnored | frontend/src/services/groupChatService.js:192-205 | a message delivered twice leaves the list as it was |
| GroupChat.OnMessagesRead | frontend/src/services/groupChatService.js:216-232 | only a receipt for this group from the current user marks every message read and zeroes the count; any other leaves both unchanged |
| GroupChat.OnTyping | frontend/src/services/groupChatService.js:235-243 | an event for this group sets the sender's entry to its name and timestamp; others change nothing |
| GroupChat.ExpireTyping | frontend/src/services/groupChatService.js:245-254 | the timer removes the sender's entry exactly when it still carries the same parsed timestamp |
| GroupChat.TypingLifetime | frontend/src/services/groupChatService.js:235-254 | a typing entry is gone when its own timer fires, but survives the older timer when a newer event arrived |
| GroupChat.OnUserJoined | frontend/src/services/groupChatService.js:258-266 | a user already present is not added again; a new one is appended, online |
| GroupChat.WithoutUser | frontend/src/services/groupChatService.js:273 | exactly the users with another id |
| GroupChat.OnUserLeft | frontend/src/services/groupChatService.js:269-274 | an event for this group removes every entry of the user; others change nothing |
| GroupChat.JoinLeave | frontend/src/services/groupChatService.js:258-274 | joining twice is joining once, and leaving after joining leaves no entry of the user |
| GroupChat.PollConnection | frontend/src/services/groupChatService.js:288-313 | at most five checks; subscriptions are set up iff there is a user and a group and one of the five checks sees a connection, and then at the first such check |
| ChatClient.LoadMessages | frontend/src/services/chatService.js:36-58 | a fetched list replaces the contact's list and is returned; a failure returns `[]` and changes nothing; other contacts are untouched |
| ChatClient.SendMessage | frontend/src/services/chatService.js:61-94 | the server's copy goes last in the receiver's list; a failure changes nothing; other contacts are untouched |
| ChatClient.MarkMessagesAsRead | frontend/src/services/chatService.js:97-120 | the sender's unread count is zero unless the request threw; other counts are untouched |
| ChatClient.ContactOf | frontend/src/services/chatService.js:179 | a message is filed under the other party: the sender, or the receiver when the current user sent it |
| ChatClient.FromPayload | frontend/src/services/chatService.js:182-195 | the message keeps the event's id, parties, content and read flag |
| ChatClient.OnPrivateMessage | frontend/src/services/chatService.js:164-213 | the message goes last in the other party's list and no other; the sender's count grows by one exactly when the current user received it unread; a missing payload or sender name changes nothing |
| ChatClient.OwnMessageNotCounted | frontend/src/services/chatService.js:179-212 | a message the current user sent is filed under the receiver and changes no count |
| ChatClient.IncomingMessageCounted | frontend/src/services/chatService.js:179-212 | an unread message to the current user is filed under its sender, whose count grows by one |
| ChatClient.MarkOwnRead | frontend/src/services/chatService.js:228-233 | same length; the current user's unread messages become read at `readAt`; every other message is unchanged |
| ChatClient.OnMessagesRead | frontend/src/services/chatService.js:219-242 | when the current user is the sender, the reader's list is marked by `MarkOwnRead` and no other list changes; otherwise nothing changes |
| ChatClient.ReceiptLeavesTheirMessages | frontend/src/services/chatService.js:228-233 | a read receipt never touches the other party's messages |
| ChatClient.OnTyping | frontend/src/services/chatService.js:247-256 | the typist's entry is set to the event's parsed timestamp |
| ChatClient.ExpireTyping | frontend/src/services/chatService.js:259-267 | the timer removes the entry exactly when it still holds the same parsed timestamp |
| ChatClient.UnparsedTimestampStays | frontend/src/services/chatService.js:255-264 | an entry whose timestamp is NaN is never removed by its timer |
| ChatClient.TypingDebouncer.constructor | frontend/src/services/chatService.js:125 | no pending timers, nothing cleared, nothing sent |
| ChatClient.TypingDebouncer.Type | frontend/src/services/chatService.js:127-152 | the receiver's pending timer is cleared and replaced by a new one; nothing is sent |
| ChatClient.TypingDebouncer.Fire | frontend/src/services/chatService.js:134-151 | one typing request for the receiver; its timer entry is dropped unless the request threw |
| ChatClient.Burst | frontend/src/services/chatService.js:123-155 | a burst of `n` keystrokes and a quiet half second send exactly one request, clearing `n - 1` timers |
| NotificationClient.FirstOccurrence | frontend/src/services/notificationService.js:45 | the earliest position where the separator occurs, or none exactly when it never occurs |
| NotificationClient.OccursShift | frontend/src/services/notificationService.js:45 | an occurrence past the first character is an occurrence in the tail, one place earlier |
| NotificationClient.InvitationTarget | frontend/src/services/notificationService.js:44-45 | `split("to ")[1]` is undefined exactly when the message has no "to " |
| NotificationClient.Action | frontend/src/services/notificationService.js:40 | an action exists exactly for reactions |
| NotificationClient.ContentType | frontend/src/services/notificationService.js:41-46 | reactions and comments always have a content type; kinds other than reaction, comment and invitation never do |
| NotificationClient.Format | frontend/src/services/notificationService.js:31-47 | id, kind, time and read flag are kept; a missing sender reads "Unknown"; a missing avatar gives the default picture, else the upload address; action and content type as above |
| NotificationClient.ReactionWords | frontend/src/services/notificationService.js:40-43 | a reaction message's first word is its action and its last word its content type |
| NotificationClient.InvitationTargetOf | frontend/src/services/notificationService.js:44-45 | an invitation's target is exactly the text after its "to ", when no other "to " occurs |
| NotificationClient.FormatAll | frontend/src/services/notificationService.js:31-47 | every fetched notification is formatted, in the server's order |
| NotificationClient.MarkRead | frontend/src/services/notificationService.js:77-83 | the notifications with that id become read; all others are unchanged |
| NotificationClient.MarkAllRead | frontend/src/services/notificationService.js:109-111 | every notification becomes read and is otherwise unchanged |
| NotificationClient.MarkAllAbsorbs | frontend/src/services/notificationService.js:77-111 | marking one read and then all is marking all |
| NotificationClient.Without | frontend/src/services/notificationService.js:163-165 | exactly the notifications with another id remain, in their order |
| NotificationClient.OnNotificationUpdate | frontend/src/services/notificationService.js:178-197 | a pushed notification goes first, formatted like fetched ones, before the old list; a missing payload changes nothing |
| NotificationClient.NotificationService.constructor | frontend/src/services/notificationService.js:7-11 | empty list, not loading, no toasts |
| NotificationClient.NotificationService.StartFetch | frontend/src/services/notificationService.js:15 | the loading flag is raised; nothing else changes |
| NotificationClient.NotificationService.CompleteFetch | frontend/src/services/notificationService.js:16-58 | a non-null list replaces the displayed one, formatted; a null body returns `[]` and changes nothing; a failure shows its error toast and returns `[]`; loading ends in every case |
| NotificationClient.NotificationService.MarkNotificationAsRead | frontend/src/services/notificationService.js:62-91 | succeeds iff the response is OK, and then marks that notification read with a success toast; otherwise only an error toast |
| NotificationClient.NotificationService.MarkAllNotificationsAsRead | frontend/src/services/notificationService.js:94-119 | succeeds iff the response is OK, and then every notification is read; otherwise only an error toast |
| NotificationClient.NotificationService.ClearAllNotifications | frontend/src/services/notificationService.js:122-145 | succeeds iff the response is OK, and then the list is empty; otherwise only an error toast |
| NotificationClient.NotificationService.HandleFriendRequest | frontend/src/services/notificationService.js:148-173 | succeeds iff the response is OK, and then that notification leaves the list; otherwise only an error toast |
| NotificationClient.NotificationService.OnPush | frontend/src/services/notificationService.js:178-200 | the list becomes `OnNotificationUpdate` of the old one, with an info toast exactly when a payload came |
| FriendClient.FormatRequest | frontend/src/services/friendService.js:36-44 | id, name and follower are kept; the image is the upload address or the default picture; a missing count reads zero |
| FriendClient.FormatContact | frontend/src/services/friendService.js:81-89 | id, name and user are kept; the image is the upload address or the default picture; online exactly when the server says true |
| FriendClient.FormatRequests | frontend/src/services/friendService.js:36-44 | every request is formatted, in the server's order |
| FriendClient.FormatContacts | frontend/src/services/friendService.js:81-89 | every contact is formatted, in the server's order |
| FriendClient.WithoutFollower | frontend/src/services/friendService.js:123-125 | exactly the requests from other followers remain; nothing changes when the follower had none |
| FriendClient.WithoutFollowerAppend | frontend/src/services/friendService.js:123-125 | the filter distributes over concatenation, so the order of the others is kept |
| FriendClient.WithoutFollowerIdempotent | frontend/src/services/friendService.js:159-161 | removing a follower twice is removing it once |
| FriendClient.OnFollowRequest | frontend/src/services/friendService.js:174-186 | a pushed request goes first, before the old list, with the current time as id and the follower's name; a missing payload changes nothing |
| FriendClient.PushedRequestRemovable | frontend/src/services/friendService.js:174-186 | accepting or declining the sender of a pushed request restores the list as it was |
| FriendClient.FriendService.constructor | frontend/src/services/friendService.js:7-13 | empty lists, not loading, no toasts, no refreshes |
| FriendClient.FriendService.StartFetchRequests | frontend/src/services/friendService.js:17 | the request loading flag is raised; nothing else changes |
| FriendClient.FriendService.CompleteFetchRequests | frontend/src/services/friendService.js:18-55 | a non-null list replaces the requests, formatted, and is returned; otherwise `[]` is returned and nothing changes; loading ends |
| FriendClient.FriendService.StartFetchContacts | frontend/src/services/friendService.js:60 | the contact loading flag is raised; nothing else changes |
| FriendClient.FriendService.CompleteFetchContacts | frontend/src/services/friendService.js:61-98 | a non-null list replaces the contacts, formatted, and is returned; otherwise `[]` is returned and nothing changes; loading ends |
| FriendClient.FriendService.AcceptFriendRequest | frontend/src/services/friendService.js:102-135 | true iff the response is OK; a `success` body removes the follower's requests, shows a success toast and refreshes the contacts once; a failure shows the error toast only |
| FriendClient.FriendService.DeclineFriendRequest | frontend/src/services/friendService.js:138-169 | as accepting, without refreshing the contacts |
| FriendClient.FriendService.OnFollowRequestEvent | frontend/src/services/friendService.js:174-186 | the requests become `OnFollowRequest` of the old ones; nothing else changes |
| FriendClient.FriendService.OnFollowAccepted | frontend/src/services/friendService.js:189-197 | any payload starts exactly one contact refresh; nothing else changes |
| ClientCommon.ErrorMessage | frontend/src/services/notificationService.js:68-75 | a failed response's message is its `message`, else its `error`, else the fallback, each case stated; a thrown request keeps its own message |
| ClientCommon.FailureToast | frontend/src/services/notificationService.js:86-88 | an error toast whose text is the caught message (for a thrown request, its own message), or the hook's own text exactly when that message is empty |
| ClientCommon.AvatarUrl | frontend/src/services/notificationService.js:35-37 | an uploaded avatar's address under the base URL, or the default picture when there is none |
| Profile.StrField | backend/internal/profile/repository.go:36 | a string field is read exactly when the key is present with a string value |
| Profile.BoolField | backend/internal/profile/repository.go:51 | a boolean field is read exactly when the key is present with a boolean value |
| Profile.UserColumnsRequested | backend/internal/profile/repository.go:36-54 | the `users` SET list names exactly the requested columns: nickname for a non-empty username, `about_me` for any string bio, avatar for a non-empty profile image, `is_public` for a boolean `isPrivate` |
| Profile.UserSetShape | backend/internal/profile/repository.go:32-59 | `updated_at` comes first and only once, and the list is longer than that exactly when some user field was given |
| Profile.UserSetNameValues | backend/internal/profile/repository.go:36-44 | the nickname and `about_me` columns are bound to the username and the bio |
| Profile.UserSetAvatarValue | backend/internal/profile/repository.go:46-49 | the avatar column is bound to the profile image |
| Profile.UserSetPublicValue | backend/internal/profile/repository.go:51-54 | `is_public` is bound to the negation of `isPrivate` |
| Profile.BuildUserUpdate | backend/internal/profile/repository.go:32-57 | the appends build exactly the SET columns and arguments the form calls for, the clock first and the user id last |
| Profile.Contribution | backend/internal/profile/repository.go:92-106 | at most one assignment: `is_private` only for a boolean, every other column for any string, even an empty one, and nothing for a missing key or another type |
| Profile.UserColumnNames | backend/internal/profile/repository.go:60 | one column name per SET entry |
| Profile.UpdateQueryNamesTable | backend/internal/profile/repository.go:60 | the UPDATE text built names its table |
| Profile.ProfileAssignmentsMembers | backend/internal/profile/repository.go:91-108 | an assignment is collected exactly when some visited mapping entry contributes it |
| Profile.OrderDoesNotMatter | backend/internal/profile/repository.go:72-108 | whatever order Go visits the mapping in, the set of collected assignments is the same |
| Profile.ColumnsOf | backend/internal/profile/repository.go:104 | the column of each collected assignment, in order |
| Profile.ValuesOf | backend/internal/profile/repository.go:105 | the value of each collected assignment, in order |
| Profile.ProfileAssignmentsSnoc | backend/internal/profile/repository.go:91-108 | visiting one more mapping entry appends its contribution |
| Profile.ColumnsSnoc | backend/internal/profile/repository.go:104-105 | one more assignment appends its column and its value |
| Profile.BuildStep | backend/internal/profile/repository.go:92-106 | one loop iteration appends the entry's contribution, if any, to the SET list and the arguments |
| Profile.BuildProfileUpdate | backend/internal/profile/repository.go:69-111 | the loop builds `updated_at` and the collected columns, and the clock, the collected values and the user id |
| Profile.UserStatementShape | backend/internal/profile/repository.go:57-61 | the users UPDATE names its table and binds the clock first, the user id last and one argument per SET column |
| Profile.ProfileStatementShape | backend/internal/profile/repository.go:111-116 | the profile UPDATE names its table and binds the clock first, the user id last and one argument per collected field |
| Profile.RunUserUpdate | backend/internal/profile/repository.go:30-66 | the users UPDATE runs iff the form is non-empty and gives some user field; it fails only if it runs and the execution fails |
| Profile.RunProfileUpdate | backend/internal/profile/repository.go:113-120 | the profile UPDATE runs iff some mapped field was collected, whatever the visiting order; it fails only if it runs and the execution fails |
| Profile.UpdateUserProfile | backend/internal/profile/repository.go:22-123 | succeeds iff begin, each UPDATE that runs and commit succeed, and then commits exactly the users statement (if run) followed by the profile statement (if run) |

## Left out

- Concurrency in the hub: the `Run` select loop, the mutexes, goroutines and blocking channel sends become sequential method calls. A send on a full queue is the non-blocking try the source writes. The lock held while `CloseUserConnections` sends is not modelled.
- Timing and transport in the pumps: read and write deadlines, the 30-second ping ticker and the pong handler. `WriteStep` models one drain of the queue into a frame; the socket write itself is not modelled.
- The HTTP upgrade and client construction in backend/internal/websocket/handler.go is not part of this model. The queue capacity of 256 that it sets is the constant `SendCapacity`.
- The hub is assumed to exist wherever the websocket package dereferences it. The packages that test for a missing hub (chat, follow, event) take a `hub` flag.
- SQL text: every repository's tables are abstract state (sequences or maps of rows), and each query is a function over them. `time.Now`, `uuid.New`, JSON marshalling and the file system are parameters.
- Only the database failures each contract names are modelled; other driver errors are not.
- Schema: `runMigrations`, `CreateMigrations`, `CreateTable`, `AutoMigrate`, `New` and `Close` are not modelled, because they only perform database and file I/O. Go reflection is represented by a field list with tags and a kind datatype.
- Schema: composite keys are modelled as the source recognises them. The tag is split on commas before the `pk(` test, so only a single-column key can arise.
- Logging: the destination writers are abstract, and the file writer's set-up (`setupFileWriter`, `getProjectRoot`) is not modelled. The caller lookup through `runtime.Caller` is a parameter. The floating-point request duration in the HTTP middleware line is passed in already formatted.
- Posts: `GetFeedPosts`, `GetUserDataByID`, `GetUserFollowers`, `HasLiked` and `GetLikesCount` are not modelled, because none of the modelled service paths calls them. backend/internal/post/notification.go is not part of this model.
- Follow: `GetPendingFollowRequests`, `GetFollowers`, `GetFollowing` and the mutual-friend queries are not modelled; they are plain reads that append rows in a loop.
- Events: the event repository is not modelled (its tables are fields of `EventService`).
- Profile: Go's map iteration order is a parameter (`order`), and `OrderDoesNotMatter` shows that the collected assignments do not depend on it. The SQL statements are built as text but never run.
- Routes: the middleware bodies (logging, CORS, JWT, auth), the `/uploads/` file server and the assembly of `Router` are not modelled. The standard `ServeMux` longest-prefix match is replaced by lookup of the mounted pattern. The body that `httputil` writes for an error reply is not modelled; only its status and warning flag are.
- The group chat event's type, `events.GroupMessage`, is not defined in backend/pkg/websocket/events/events.go. The model uses "group_message", the type the group chat hook subscribes to.
- Authentication, the composition root and the front-end pages and components are outside the modelled core.
- WsClient: the callbacks of a socket that has been replaced are not modelled; `OnOpen`, `OnMessage` and `OnClose` act on the current socket. React's render scheduling is not modelled: `StartupEffect` is called where the start-up effect re-runs, and the 300 ms and one-second timers fire when `StartupFires` and `Resume` are called. The cleanup of the start-up effect's unauthenticated run is not modelled; `Resume` stands for the debounced handler firing.
- GroupChat: `loadActiveUsers` returns a fixed placeholder list and is not modelled. `sendMessage` and `sendTypingIndicator` only issue a POST and are not modelled. The subscription set-up is reduced to the polling loop `PollConnection`.
- ChatClient.OnPrivateMessage, ChatClient.OnMessagesRead, ChatClient.OnTyping: model what each listener does once called, not whether it is still subscribed. As written, the set-up effect's cleanup (frontend/src/services/chatService.js:273-277) removes all three listeners right after `setIsInitialized(true)` (line 271) changes the effect's dependencies (281-286), and the re-run subscribes nothing again because `isInitialized` is now true. The hook's subscription lifecycle is not modelled.
- ChatClient: `loadContacts` keeps no state (it returns the data or `[]`) and is not modelled. A duplicate `private_message` is appended again, as the source does; the hook does not deduplicate.
- Client hooks in general: `BASE_URL` and `Date.now()` are parameters. Each loading flag is raised by a `Start…` method and lowered by the matching `Complete…` method. `contactRefreshes` counts the `fetchContacts` calls started. Toasts are recorded as a list of `showToast` calls.
- A pushed `follow_request` uses the event's avatar value as its image, without the `/uploads/` prefix that fetched requests get. `FriendClient.OnFollowRequest` models this as written. It is not reported as a finding, because the backend sender of that event is commented out in backend/internal/follow/notification.go.
- The route table mounts `/api/notification` as an exact pattern. A PUT there parses "notification" as the id and is always refused with 400; `NotificationHandler.HandleNotifications` reproduces this as written.
- The "post not found" branch of the post service's `GetPost` is unreachable once the permission check has found the post, so `Posts.Service.GetPost` has no such branch.
- Text.ToLower: only A to Z are lower-cased. Go's `strings.ToLower` also maps non-ASCII capitals through the Unicode case tables (U+0130 becomes i, for instance), which the model does not carry.
- Schema.CamelToSnake: inherits the ASCII-only lower-casing, so a non-ASCII capital in a type name stays as it is, where Go lower-cases it.
- Schema.TableName: inherits the ASCII-only lower-casing through `CamelToSnake`.
- FileStore.IsAllowedFileType: inherits the ASCII-only lower-casing, so a content type whose non-ASCII capital Go lower-cases into one of the three allowed types (U+0130 followed by "mage/png", for instance) is refused by the model and accepted by the source.
- NotificationClient.Format: a notification without a `message` is read as the empty string. In the source, a reaction, comment or invitation without one makes `message.split` throw a TypeError: inside the fetch that ends in the error toast and `[]`, and in the push handler it abandons the update.
- GroupChat.MarkMessagesAsRead: one `now` stamps every message marked read. The source calls `new Date()` once per unread message, so the stamps may differ by the time the loop takes.

## Findings

| source | as written | input that shows it | evidently intended | confidence | as-written member | corrected member |
|---|---|---|---|---|---|---|
| backend/pkg/websocket/websocket.go:104-116 | a hub broadcast closes the queue of a client whose queue is full and removes it from `Clients`, but not from `UserClients` | a client with 256 queued frames is evicted by a broadcast; a later `BroadcastToUser` to its user sends on the closed channel, which panics | the evicted client also leaves its user's list, as `Unregister` does | high (not executed) | Websocket.Hub.Broadcast, Websocket.BroadcastThenSendToUserPanics | Websocket.Hub.BroadcastEvicting |
| backend/internal/follow/service.go:372-395 | `followers_count` is recounted over rows with `follower_id = user`, and `following_count` over rows with `following_id = user`: the two columns are swapped | user a follows user b for the first time; b's stored `followers_count` becomes 0 instead of 1 | each count is taken over the column that names the user's role | high (not executed) | Follow.FollowService.UpdateUserStatsAsWritten, Follow.FollowService.AfterChange, Follow.RecountAsWrittenMiscounts | Follow.FollowService.UpdateUserStats, Follow.FollowService.AfterChangeCorrected, Follow.FollowKeepsStatsAccurate |
| frontend/src/utils/dateUtils.js:46-55 | months are `floor(days / 30)` once the week count reaches 4, and years are `floor(days / 365)` once the month count reaches 12 | a date 28 days old reads "0 months ago"; one 360 days old reads "0 years ago" | a label never counts zero units | high (not executed) | DateUtils.ZeroMonths, DateUtils.ZeroYears | DateUtils.ClassifyCorrected, DateUtils.CorrectedAgrees |
| backend/internal/post/repository.go:312-319 | the almost-private check queries `followers.followed_id`; the followers table has `following_id` | anyone but the author opening an almost-private post gets the error "no such column"; the post service and handler, modelled on the check as written, never hand such a post to a non-author | the viewer may see the post iff they follow its author | high (not executed) | Posts.Repository.CanViewPostAsWritten, Posts.AlmostPrivateAsWrittenFails | Posts.CanViewDecision, Posts.CorrectedAgreesElsewhere |
| frontend/src/services/websocketService.js:103-116 | `onmessage` dispatches to the listener table captured when `connect` ran; once the socket is open, `connect` skips, so that table is never refreshed | a component subscribes to `private_message` after the socket opened; no message of that type ever reaches its callback, not even after a reconnect, whose `connect` is the stale closure with the old table | every current subscriber hears every message of its type | medium (not executed) | WsClient.Client.OnMessage, WsClient.LateSubscriberMissesMessages, WsClient.ReconnectKeepsStaleTable | WsClient.Client.OnMessageCurrent, WsClient.SubscriberHearsMessages |
| frontend/src/services/websocketService.js:225-262 | the start-up effect depends on `connect`, which changes with every new socket, and each run sets the attempt count to zero | a server that drops every connection abnormally: after each reconnect the effect re-runs, so every close waits one second and the give-up toast never comes | the delay doubles per failed attempt and the hook gives up after five | medium (not executed) | WsClient.Client.StartupEffect, WsClient.BackoffRestarts | WsClient.BackoffGrows, WsClient.FailureRunFromStart |
| backend/internal/post/repository.go:193-211 | the public feed scans `image_path` into a local variable that is never copied into the post | a public post stored with an image is returned by `GetPublicPosts` with an empty image path, so the feed shows no image | each post carries its stored image path, as `GetPostByID` does | high (not executed) | Posts.Repository.GetPublicPosts, Posts.PublicFeedDropsImages | Posts.Repository.GetPublicPostsCorrected |
