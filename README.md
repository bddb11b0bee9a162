# Herald message-bus bookkeeping, modelled in Dafny

Herald is a Laravel package that consumes messages from a broker and turns
them into Laravel events. This project models its in-process bookkeeping:

- the manager's handler registry, connection selection and cache, fake mode
  and publish-log assertions (`Herald`, herald_manager.dfy);
- the in-memory fake connection (`FakeConnections`, fake_connection.dfy);
- the immutable `Message` value and its serialise/unserialise pair
  (`Messages`, message.dfy);
- the `herald:list` handler classification and table rows (`ListCommand`,
  list_command.dfy);
- the consumer-group stream connection's decode and ack/nack policy
  (`RedisConnections`, redis_connection.dfy);
- the `herald:work` startup guard, consume loop and per-message ack/dispatch
  discipline (`WorkCommand`, work_command.dfy).

`Wrappers` (wrappers.dfy) holds Option and Result. `Console` (console.dfy)
holds the command exit codes. `Scenarios` (scenarios.dfy) replays two of the
fake-mode usages of the package's tests.

PHP values are modelled by `Messages.Json`. A PHP array is a map from string
keys. The source has no `declare(strict_types=1)`, so PHP's coercive typing is
modelled explicitly: a `string` parameter accepts strings, numbers and
booleans, an `array` parameter only arrays, and anything else raises a
TypeError (`Messages.AsStringParam`, `Messages.AsArrayParam`). A TypeError
raised while a Message is built makes `__unserialize` and the stream
connection's `consume` fail (a `Result.Err`).

External parts are inputs:
- `class_exists` and "implements ShouldQueue" are predicates over class names. In `herald:work`, `class_exists` instead gives one of three outcomes: the class is found, it is missing, or the autoloader raises.
- `json_decode` is a function from text to a PHP value.
- `uniqid('msg_')` supplies a suffix, and the generated id is "msg_" followed by it.
- What `xreadgroup` returned is an argument of the stream connection's `Consume`.
- The `xack` calls are recorded in the connection's `acked` log.
- For the worker, `polls(k)` says what the k-th consume attempt brings and
  how the ack and the event dispatch then go. `quit[k]` is the quit flag at
  the k-th check of the loop condition.
- The worker's calls (consume, ack, dispatch, close), error reports and
  back-off pauses are recorded in order as a trace of `Effect`s.

Behaviour of the code as written that the model keeps:
- The RabbitMQ connection class has no `publish` method. So when it is not faking,
  `Herald.HeraldManager.Publish` first selects the connection: an unconfigured name
  or an unsupported driver raises that InvalidArgumentException, and otherwise the
  broker connection is built and cached, and the call then fails with an
  undefined-method error.
- `connection()` is not wrapped in a try block in `herald:work`. So an
  unconfigured name or an unsupported driver escapes the command.
- A Message that cannot be built from a stream entry raises out of `consume`.
  No ack is issued for it, because the loop's catch does not ack.

## Model

| member | source | states |
|---|---|---|
| Console.ExitCode.Code | src/Commands/HeraldWorkCommand.php:29-59 | SUCCESS is exit status 0 and FAILURE is exit status 1 |
| Messages.Serialize | src/Message.php:18-25 | the serialised array has exactly the keys id, type and payload, never raw, holding the message's fields |
| Messages.Read | src/Message.php:34-36 | reading `$data[$key]` gives the value isset would find, and null for a missing or null entry |
| Messages.Unserialize | src/Message.php:31-39 | succeeds exactly when id and type fit a string parameter and payload is an array; the restored id and type are the coerced `$data['id']` and `$data['type']`, the payload is the entries of `$data['payload']`, and raw is null |
| Messages.SerializeRoundTrip | src/Message.php:18-39 | unserialising a serialised message gives the same id, type and payload with raw null; it gives the message back iff its raw was null |
| Messages.SerializeIgnoresRaw | src/Message.php:18-25 | two messages that differ only in raw serialise to the same array |
| Messages.SerializeInjective | src/Message.php:18-25 | equal serialisations mean equal id, type and payload |
| Messages.AsStringParam | src/Message.php:7-12 | a string argument is kept; null and arrays are refused (TypeError), other scalars converted |
| Messages.AsArrayParam | src/Message.php:7-12 | only an array is accepted for payload, and its entries are kept |
| Messages.Lookup | src/Connections/RedisConnection.php:52-60 | PHP isset on an array key: present only for an array holding a non-null value at that key |
| FakeConnections.LoggedMessage | src/Connections/FakeConnection.php:27-37 | a given id is stored verbatim, a missing one becomes a non-empty "msg_"-prefixed id; type and payload as given, raw null |
| FakeConnections.FakeConnection.constructor | src/Connections/FakeConnection.php:9 | a new fake starts with an empty log |
| FakeConnections.FakeConnection.Consume | src/Connections/FakeConnection.php:11-15 | consume always returns null |
| FakeConnections.FakeConnection.Ack | src/Connections/FakeConnection.php:17-20 | ack leaves the log unchanged |
| FakeConnections.FakeConnection.Nack | src/Connections/FakeConnection.php:22-25 | nack leaves the log unchanged, with or without requeue |
| FakeConnections.FakeConnection.Close | src/Connections/FakeConnection.php:39-42 | close leaves the log unchanged |
| FakeConnections.FakeConnection.Publish | src/Connections/FakeConnection.php:27-37 | the log grows by exactly one message, the new one last, earlier entries unchanged |
| FakeConnections.FakeConnection.GetMessages | src/Connections/FakeConnection.php:47-50 | the whole log, oldest first, with nothing filtered out |
| FakeConnections.FakeConnection.ClearMessages | src/Connections/FakeConnection.php:55-58 | afterwards the log is empty |
| Herald.HandlerTable.Get | src/HeraldManager.php:82-85 | in a well-formed table a type's handler list is empty exactly when the type was never registered |
| Herald.HandlerTable.Append | src/HeraldManager.php:68-75 | the handler is added at the end of its type's list, every other list is unchanged, a new type is added last to the key order, and well-formedness is kept |
| Herald.EmptyTableIsEmpty | src/HeraldManager.php:98-101 | the cleared table is well formed, has no types and no handlers for any type |
| Herald.RegisterAllKeepsOrder | src/HeraldManager.php:68-85 | after any sequence of registrations, a type's handlers are all those registered for it, in registration order |
| Herald.RegisterAllTypes | src/HeraldManager.php:68-93 | after any sequence of registrations the registered types are exactly the types passed to on, each listed once |
| Herald.EventTypes | src/HeraldManager.php:174-176 | one type per logged message, in log order |
| Herald.CountOfTypeOccurrences | src/HeraldManager.php:171-185 | the filtered count of messages of a type equals the number of times that type occurs in the log |
| Herald.AnyMatchExists | src/HeraldManager.php:144-163 | the filter keeps something iff some logged message has the type and satisfies the callback |
| Herald.DriverOf | src/HeraldManager.php:54 | `$config['driver'] ?? null` is the isset reading of the settings' driver key |
| Herald.RabbitMQConnection.constructor | src/HeraldManager.php:57 | a broker connection is built from the named connection's settings |
| Herald.HeraldManager.constructor | src/HeraldManager.php:13-26 | a new manager keeps its configuration, sees the current static registry, has no cached connection and is not faking |
| Herald.HeraldManager.On | src/HeraldManager.php:68-75 | on appends the handler to its type's list and leaves every other type's list, the cache and fake mode alone |
| Herald.HeraldManager.GetHandlers | src/HeraldManager.php:82-85 | a type's handler list is empty exactly when the type is not among the registered types |
| Herald.HeraldManager.GetRegisteredEventTypes | src/HeraldManager.php:90-93 | the registered types are listed once each |
| Herald.HeraldManager.ClearHandlers | src/HeraldManager.php:98-101 | afterwards no type is registered and every type's list is empty |
| Herald.HeraldManager.SelectionError | src/HeraldManager.php:28-60 | selection cannot fail while faking or for a cached name |
| Herald.HeraldManager.Connection | src/HeraldManager.php:28-50 | the fake while faking; a cached connection for a known name; NotConfigured for an unconfigured name and UnsupportedDriver for any driver but 'rabbitmq', both leaving the cache alone; otherwise a new connection from the named settings, which is then cached |
| Herald.HeraldManager.CreateConnection | src/HeraldManager.php:52-60 | the 'rabbitmq' driver gives a new broker connection with those settings; any other or missing driver raises UnsupportedDriver |
| Herald.HeraldManager.Publish | src/HeraldManager.php:111-114 | while faking, the fake's log grows by the logged message and the cache is kept; otherwise a selection error is returned as it is with the cache kept, or else the named connection is cached, every earlier entry kept, and the call fails with the undefined method `publish`; no fake log changes |
| Herald.HeraldManager.Fake | src/HeraldManager.php:120-124 | faking is on with a fresh, empty fake connection; registry and cache kept |
| Herald.HeraldManager.Published | src/HeraldManager.php:129-136 | empty when not faking, the fake's log when faking |
| Herald.HeraldManager.AssertPublished | src/HeraldManager.php:144-163 | succeeds iff some published message has the type and satisfies the callback when one is given |
| Herald.HeraldManager.AssertPublishedTimes | src/HeraldManager.php:171-185 | succeeds iff the type occurs exactly the given number of times among published messages |
| Herald.HeraldManager.AssertNothingPublished | src/HeraldManager.php:190-199 | succeeds iff nothing was published, and then no assertPublished can succeed |
| Herald.ConnectTwice | src/HeraldManager.php:37-39 | a second connection call with the same name returns what the first returned |
| ListCommand.DescribeHandler | src/Commands/HeraldListCommand.php:47-74 | a Closure is ('Closure','sync'); a class name is 'missing' iff its class does not exist and 'queued' iff it exists and implements ShouldQueue, labelled by its name; an instance is 'invalid' iff its class implements ShouldQueue, labelled by its class; other callables are ('Unknown','sync') |
| ListCommand.HandlerRows | src/Commands/HeraldListCommand.php:36-39 | one row per handler |
| ListCommand.HandlerRowsPointwise | src/Commands/HeraldListCommand.php:36-39 | the j-th row describes the j-th handler, labelled with the event type |
| ListCommand.TypeRows | src/Commands/HeraldListCommand.php:28-39 | a type gives max(1, number of handlers) rows |
| ListCommand.TypeRowsContents | src/Commands/HeraldListCommand.php:28-39 | a type without handlers gives the single row (type, '-', '-'); otherwise the k-th row describes the k-th handler; every row names the type |
| ListCommand.Rows | src/Commands/HeraldListCommand.php:27-40 | the nested foreach over types and handlers: no rows exactly when there are no types |
| ListCommand.RowsSnoc | src/Commands/HeraldListCommand.php:27-40 | the rows of the first i + 1 types are the rows of the first i followed by the rows of the i-th |
| ListCommand.RowCountSplit | src/Commands/HeraldListCommand.php:27-40 | the row count of a list of types is that of all but the last plus max(1, handlers) for the last |
| ListCommand.RowsPrefix | src/Commands/HeraldListCommand.php:27-40 | the rows of the first k types are a prefix of the whole table |
| ListCommand.RowsLength | src/Commands/HeraldListCommand.php:27-40 | the table has, summed over the types, max(1, number of handlers) rows |
| ListCommand.RowsBlock | src/Commands/HeraldListCommand.php:27-40 | the rows of the i-th type form one block right after the rows of the types before it |
| ListCommand.RowsEvents | src/Commands/HeraldListCommand.php:27-40 | every row names one of the listed types |
| ListCommand.AddHandlerRows | src/Commands/HeraldListCommand.php:36-39 | the inner loop appends the rows of the handlers, in order |
| ListCommand.Handle | src/Commands/HeraldListCommand.php:15-45 | SUCCESS always; no table iff no type is registered; otherwise the rows of the registered types in registry order |
| RedisConnections.StreamHandle | src/Connections/RedisConnection.php:66 | the raw handle is an array with exactly the keys id and stream, holding the entry id and the stream name |
| RedisConnections.AckCalls | src/Connections/RedisConnection.php:70-79 | ack makes one xack, for raw['id'], exactly when raw is an array with a non-null id, and none otherwise |
| RedisConnections.RedisConnection.constructor | src/Connections/RedisConnection.php:19-32 | construction always succeeds, a failing group creation being swallowed, with the given names and no xack yet |
| RedisConnections.RedisConnection.Consume | src/Connections/RedisConnection.php:34-68 | null for an empty reply or no entry for this stream, for an entry without data, and for a body lacking type or payload; a TypeError iff type is an array or payload is not; otherwise the entry id, the body's type and payload, and raw naming id and stream |
| RedisConnections.RedisConnection.Ack | src/Connections/RedisConnection.php:70-79 | the xack log grows by exactly the calls AckCalls gives |
| RedisConnections.RedisConnection.Nack | src/Connections/RedisConnection.php:81-92 | without requeue it acks like ack; with requeue it issues no xack |
| RedisConnections.RedisConnection.Close | src/Connections/RedisConnection.php:94-97 | close issues no xack |
| RedisConnections.ConsumedMessageAcksItsEntry | src/Connections/RedisConnection.php:62-79 | acking a message consume produced makes exactly one xack, for the stream entry id the message carries |
| Scenarios.PublishThree | tests/Unit/FakeTest.php:48-51 | a fresh faking manager after three publishes logs three messages, whose types are those published, in order, and whose second payload is the one published second |
| Scenarios.ThreeMessageCounts | tests/Unit/FakeTest.php:53-54 | a log of two `user.created` and one `order.created` holds those types twice and once |
| Scenarios.PublishedTimes | tests/Unit/FakeTest.php:35-80 | after publishing two `user.created` and one `order.created` in fake mode, the counts 2 and 1 are confirmed, the count 1 for `user.created` is refused, and a payload callback finds its message |
| Scenarios.PublishedIds | tests/Unit/FakeTest.php:98-112 | in fake mode a caller's id is logged verbatim and a generated id is non-empty |
| WorkCommand.MessageEffects | src/Commands/HeraldWorkCommand.php:62-94 | processMessage makes at most three calls and reports; the first is the ack, except when class_exists raises, when the single effect is the report |
| WorkCommand.MessageDispatch | src/Commands/HeraldWorkCommand.php:71-87 | an event is dispatched iff the type is mapped, its class is found, the ack did not raise and constructing the event did not raise, and then right after the ack with the mapped class and the payload; an unmapped type or a missing class is only acked |
| WorkCommand.MessageAckedOnce | src/Commands/HeraldWorkCommand.php:62-94 | the message is acked exactly once, as the first call, on every path but the one where class_exists raises, where it is not acked at all; processing neither consumes nor closes |
| WorkCommand.ProcessMessage | src/Commands/HeraldWorkCommand.php:62-94 | processMessage makes the calls MessageEffects gives, in that order |
| WorkCommand.StepEffects | src/Commands/HeraldWorkCommand.php:41-48 | a pass starts with the consume, and a null result (always, on the fake) ends it there |
| WorkCommand.StepConsumesOnce | src/Commands/HeraldWorkCommand.php:41-53 | each pass of the loop body consumes exactly once and does not close, whatever consume returns or raises |
| WorkCommand.FirstSet | src/Commands/HeraldWorkCommand.php:40 | the first check finding the quit flag set: all earlier checks found it clear |
| WorkCommand.Loop | src/Commands/HeraldWorkCommand.php:40-54 | a check that finds the quit flag set ends the loop with no further call |
| WorkCommand.LoopRunsUntilQuit | src/Commands/HeraldWorkCommand.php:40-54 | when every pass consumes once and does not close, the loop consumes once per check that finds the flag clear, up to the first check that finds it set, and never closes |
| WorkCommand.ClosedOnceAtEnd | src/Commands/HeraldWorkCommand.php:40-59 | a whole run consumes once per clear check and then closes exactly once, as its last call |
| WorkCommand.DeliveryStepAcks | src/Commands/HeraldWorkCommand.php:42-48 | a pass that receives a message acks it, unless class_exists raises for it |
| WorkCommand.DeliveredMessagesAreAcked | src/Commands/HeraldWorkCommand.php:40-54 | every message received before the quit flag is seen is acked, unless class_exists raises for it |
| WorkCommand.Step | src/Commands/HeraldWorkCommand.php:41-53 | one pass makes the calls StepEffects gives; the fake connection's consume returns null |
| WorkCommand.RunLoop | src/Commands/HeraldWorkCommand.php:40-57 | the loop runs one pass per check that finds the flag clear, the k-th pass being what StepEffects gives for the k-th poll, and then closes the connection |
| WorkCommand.Handle | src/Commands/HeraldWorkCommand.php:20-60 | FAILURE with no calls made and the manager untouched when there are no mappings; the connection error, with the cache kept, when selection fails; otherwise SUCCESS after the loop over the selected connection (the fake's when faking) and a single close, with the selected connection cached; fake mode, the fake and the registry are never changed |

## Left out

- RabbitMQ connection: its channel and socket plumbing and its decode are not modelled. The manager only builds it from its settings.
- Network and client side effects: the Redis client, the `xgroup` and `xreadgroup` calls, blocking timeouts and `sleep(1)` are inputs or recorded effects, not modelled behaviour.
- Signal handling through pcntl: the quit flag is an input sequence.
- Herald.HeraldManager: the handler table is a field of the manager. The source keeps it in a static property shared by all managers; the constructor's `registry` argument stands for that shared value.
- WorkCommand.Handle: when the loop is reached, it requires the quit flag to be seen set at some check. A run where it never is does not terminate in the source and is not modelled.
- Herald.HeraldManager.CreateConnection: building the broker connection always succeeds. An exception from the broker client's constructor (an unreachable host, say) is not modelled. `Connection`, `Publish` and `ConnectTwice` rely on this.
- ListCommand.DescribeHandler: the `class_exists` of `herald:list` is a total predicate. An autoloader exception, which would escape the command, is not modelled. In `herald:work` it is modelled (`WorkCommand.ClassLookup`).
- WorkCommand: the topic's type => event-class `mappings` are a parameter. `getEventsByTopic`, which the command calls, is not defined in the manager, and the topic router is not part of this model.
- Console output text, including the messages logged on errors, is not modelled. Only the fact that an error was reported is recorded.
- The install, listen, service-provider, facade and configuration files are not part of this model.
- Dispatching handlers inline or to the queue is not modelled, because no core file performs it.
- Payload values are opaque. Numbers are kept as their PHP string form, and floats are not reasoned about.
- The key order of payloads, decoded bodies and connection settings is not kept, because those arrays are modelled as maps. The handler registry keeps its key order (`Herald.HandlerTable.types`).
- Configuration shape: the configuration always has a string `default`, and each configured connection's settings is an array.
- RedisConnections.RedisConnection.constructor: it takes the stream, group and consumer names as strings. A missing configuration key, which raises a TypeError in the source, is not modelled.
- The feature test of `herald:work` expects the text "No handlers registered for topic" (tests/Feature/HeraldWorkCommandTest.php:18-20). The command prints "No event mappings found for topic" instead. Output text is not modelled, and the model follows the code's FAILURE exit.
- The PHPUnit machinery is not modelled. The assertion helpers return the boolean outcome of the check.
