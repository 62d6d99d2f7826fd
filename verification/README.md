# trigemit-kafka: a Dafny model and its proofs

trigemit-kafka is a MariaDB module with SQL functions that produce to Kafka. It owns one librdkafka
producer, an array of topic records, an array of dismissed ("retired") records that may still be
referenced, and an array of parameters. Any number of sessions call in under one read/write lock, while
delivery callbacks write to topic records at any time. This project models

* the interleaved system as a transition system of small steps, with an invariant that every step keeps
  (`Protocol`, `Invariant`), and what follows from it in every run: memory safety of the deferred
  reclamation, conservation of records and messages, the topic table as a map, whole calls of
  `kafka_send` and `kafka_stats` under interference, librdkafka's topic handles, absence of deadlock
  (`Safety`, `Footprint`, `TopicMap`, `Sessions`, `Truncation`, `Handles`, `Progress`);
* the table as the code keeps it, with arrays, counts and capacities updated in place; every read, write
  and free of a record goes through a member whose precondition is that its address is allocated; each
  method performs a run of that transition system; the delivery reports a call is handed are spelled out one
  by one (`GrowArray`, `Callbacks`, `KafkaTable`, `KafkaSend`);
* the log throttle of the delivery callback (`Delivery`);
* the producer's life and the parameter list: who owns what librdkafka made, on every path
  (`Lifecycle`, `Parameters`), joined with the table to the one C struct they are parts of (`KafkaModule`);
* the bounded, redacted rendering behind `kafka_info` (`CStrings`, `Decimals`, `Rendering`);
* the rewriting of `git describe` into a Debian version, against the order of section 5.6.12 of the
  Debian Policy Manual (`VersionOrder`, `DebianVersion`).

## How it fits together

A state of `Protocol` holds the lock, the table, the heap of records, librdkafka's out queue and one
program point per session. A record is named by its address, and a queued message is such an address: the
delivery report opaque of kafka-engine.c:409. `Place` (registered, in the writer's hand, parked, leaked,
freed) and the accounts of accepted and dropped messages are bookkeeping that decides no step. `Reachable`
is "some run from an unconnected module leads here", for any number of sessions and any schedule.

`Safety.Touched` names the records whose memory a step uses. `Footprint.ActionFrame` shows that a step
depends on no others, changes no others and frees no others, so that `Safety.NoUseAfterFree` speaks of
what the steps do; `Footprint.FreedMemoryNeverMatters` is what both say together about runs.

`KafkaTable.KafkaTables` is kafka-table.c in place. Its predicate `Valid` says that the fields are what
the protocol's state `world` says, and that `world` is where the actions in `trace` lead; so each method,
by re-establishing `Valid`, is shown to take only steps the protocol has, and inherits what is proved
about every run. `KafkaSend.KafkaSend` is the SQL function on that table, with any number of other sessions
taking turns between its three separately locked steps: beginning any call, going through their own next
section under the lock, or taking the answer.

The protocol takes creating, configuring and running a producer as one choice. `KafkaModule.Module` holds the
table next to the parameter list that owns the real producer object; the two agree on it at every moment,
and the choice is what that code does.

A list of reports given to a method is what librdkafka is ready to hand over at that point; a report no
message is outstanding for is not handed over. `Callbacks.Remaining` is what the reports leave of the out
queue and `Callbacks.Heard` what one record hears of them, and contracts state the queue and the counters
in these terms. The rounds of the produce loop are a ghost result of the methods that send: what
librdkafka answered in each.

The fields of a topic record are a replay of what happened to it (`Delivery.Replay`);
`Delivery.TopicRecord` is the mutable record, whose methods are proved against that replay, and
`Delivery.LogSays` says what the log then shows, in terms of the history alone.

## What is assumed

Of librdkafka: only a produce call that succeeds adds a message, exactly one; a queue-full answer means
that the queue is not empty; a message counts in `rd_kafka_outq_len` until its callback has returned;
`poll`, `flush` and `destroy` serve any finite number of outstanding reports on the calling thread; what
is outstanding when the producer is destroyed is served or dropped, and no callback runs afterwards (a
weaker form of the comment at kafka-engine.c:276-280); whether one property is accepted depends on its
name and value alone, and it is filed under the property the name stands for; whether a producer is made
from a configuration depends on that configuration and on memory; `rd_kafka_produce` needs a live topic
handle; a payload may be accepted whatever its size. The last is used by `Truncation.Misreported` only: a
librdkafka that refuses payloads of 2^31 bytes and more leaves nothing to misreport. A callback and each
other step is atomic. An `snprintf` that fails writes nothing. Memory, librdkafka's answers, the clock and the
lock's scheduling are inputs.

## Where code and comments differ

The code is what is modelled.

* kafka-engine.h:69-76 says the throttle fields are only touched by the poll thread. Callbacks also run
  on session threads, from the polls at kafka-engine.c:418 and 426 and the flush at 254, and
  `tek_kafka_topic_dispose` touches them while the poll thread runs. That a callback is one atomic step is
  therefore an assumption here, not a consequence.
* Failures reported to a record after its disposal raise `suppressed` again, and freeing the record does
  not print it. The conservation law keeps that residual (`Delivery.ThrottleConservation`).
* "Order is not significant" (kafka-table.c:577) holds exactly when no two stored names are aliases of
  one property with different values (`Parameters.OrderInsignificant`). README.md:328-330 shows such an
  alias. With `enable.idempotence` off, as README.md:381-382 sets it, the two orders connect and give
  different producers (`Parameters.OrderMatters`); with it on, one order connects and the other is refused
  for the reason README.md:367-374 shows (`Parameters.OrderDecides`).
* kafka-cmd-disconnect.c:34-38 says parameters are cleared. They are kept (`Parameters.ReconnectSame`).
* `kafka_table_send` casts the payload length to `int`, so `kafka_send` answers truthfully exactly for
  payloads below 2^31 bytes (`Truncation.TruthfulExactly`).
* README.md:284-286 sorts an untagged build below any tagged one. That fails for a hash that has no letter
  and is not all zeros (`DebianVersion.UntaggedBelowExactly`).

## Model

| member | source | states |
|---|---|---|
| Safety.ReachableInv | kafka-table.c:78-130 | the invariant holds in every state any number of sessions, callbacks and lock grants can reach |
| Invariant.ActionInv | kafka-table.c:253-612 | every step of every thread keeps the invariant: places, messages, names, handles, the producer and the lock |
| Invariant.RunInv | kafka-table.c:253-612 | so does every run |
| Safety.NoUseAfterFree | kafka-engine.c:60-86 | every record a step of a session or a callback touches is allocated and not freed; so nothing is freed twice |
| Footprint.ActionFrame | kafka-table.c:5-16 | whether a step can be taken, where it leads and what it changes depends on the records it touches only, and it changes and frees no others |
| Footprint.FreedMemoryNeverMatters | kafka-table.c:117-124 | whatever freed memory contains, every run is the same run, with the same tables, queue and live records, and no freed record is written to or comes back |
| Safety.QueuedRecordsExist | kafka-engine.c:395-429 | every message in the out queue names a record that is registered, in the writer's hand, retired or leaked |
| Safety.QueueShrinksUnderWriter | kafka-table.c:426-442 | while a session holds the lock for writing, the out queue can only shrink |
| Safety.EmptyStaysEmpty | kafka-table.c:85-95 | an out queue found empty under the write lock is empty until that lock is released |
| Safety.DecidesByQueue | kafka-table.c:113-127 | in every reachable state a record taken out is freed if and only if the out queue is empty when it is looked at; otherwise it is retired, or leaked without room |
| Safety.ReapsByQueue | kafka-table.c:78-96 | retired records are freed, from the first on, if and only if there are any and the out queue is empty when it is looked at |
| Safety.OnlyDrains | kafka-table.c:104-129 | from the moment a record has left the topic array, its messages in flight never increase again, in any run |
| Safety.PlacesEvolve | kafka-table.c:98-130 | a record leaves the array once, is freed at most once and never comes back |
| Safety.LeaksOnlyThen | kafka-table.c:117-124 | memory is given up on only for a record just taken out, with messages in flight, when there is no room to remember it |
| Safety.RecordConservation | kafka-table.c:38-51 | the records created are the disjoint union of those registered, retired, in the writer's hand, leaked and freed, and no array lists one twice |
| Safety.TeardownComplete | kafka-table.c:505-539 | when a full disconnect releases the lock, both arrays and the queue are empty, the producer is gone and every record not leaked is freed |
| Safety.DeliveryAccounting | kafka-engine.c:75-83 | for every record in every run, messages accepted are those reported delivered, reported failed, in flight or dropped at destroy, and the two counters are those numbers modulo 2^32 |
| Safety.DeliverCounts | kafka-engine.c:75-83 | a report adds one failure to the record its message names if and only if its code is an error, one success if and only if not, and nothing to any other record |
| Safety.CallbackPoints | kafka-engine.c:245-257 | a session serves reports itself at the polls of the produce loop, in the three flushes and while the producer is destroyed, and nowhere else |
| Safety.ModuleState | kafka-table.c:491-531 | without a producer there are no topics, no retired records and nothing in flight; with one, its poll thread runs and every registered topic has a live handle that borrows it; that the producer is live and owns its configuration is KafkaModule.Module.ProducerLives |
| Safety.LockExcludes | kafka-table.c:5-16 | one session holds the lock for writing and then none for reading; asking whether a topic exists, sending and counting share it, everything else has it alone |
| Handles.ReleasedOnce | kafka-engine.c:333-353 | in every run each topic handle is released at most once, and has been before its record is retired, leaked or freed |
| Handles.NoneLeft | kafka-table.c:505-531 | when the producer is destroyed, and while there is none, every topic handle ever made has been released exactly once |
| Safety.GuardNeverRejects | kafka-engine.c:434-437 | the guard of tek_kafka_topic_feed never turns away a topic that was found |
| TopicMap.OneKeyPerStep | kafka-table.c:104-130 | the topic array is a map in every run: each step leaves it alone, adds one new name, removes exactly one name, or empties it at the end of a teardown |
| TopicMap.OtherActionsKeepTable | kafka-engine.c:60-86 | callbacks, lock grants and the poll thread never change the map |
| TopicMap.OthersStay | kafka-table.c:107-109 | a step leaves the identity, handle and counters of every record it is not about alone, swap-with-last included |
| TopicMap.TableSize | kafka-table.c:374-418 | names stay pairwise distinct even when sessions race from a failed lookup to the creation, and no record has two names |
| TopicMap.FoundExactly | kafka-table.c:55-69 | a name is found if and only if some entry has it, and then the first one is |
| Sessions.KafkaSend | kafka-cmd-send.c:84-102 | whatever other sessions do between its three steps and however often the queue was full, a nonnegative result means one message, queued on the record registered under the name at that moment, and -1 means none if the length survives the cast |
| Truncation.TruthfulExactly | kafka-table.c:420-450 | for all systems, runs and names: the length is returned if and only if exactly one message was queued, exactly for payloads below 2^31 bytes |
| Truncation.Misreported | kafka-table.c:449 | from 2^31 bytes on there is a call whose message is queued and whose answer is something else than its length |
| Sessions.KafkaStats | kafka-table.c:591-612 | a whole call, while others keep producing: zeroes for a name that is not registered at the lookup; otherwise the successes at the first load and the failures at the second, modulo 2^32, which add up to at most the messages accepted on that record by the second load, and, if the flush saw the queue drained, to at least those accepted by the lookup and so before the call |
| Progress.NoDeadlock | kafka-table.c:426-442 | from every reachable state some continuation brings every session back, past the queue-full loop under the read lock and the join under the write lock |
| Progress.Release | kafka-engine.c:411-419 | a session that holds the lock can always be run until it has released it |
| Progress.NeverWaitsForItself | kafka-table.c:5-16 | no session requests the lock while it holds it |
| GrowArray.Slots.Grow | kafka-table.c:33-52 | growing keeps the contents, doubles from 8, and leaves the array untouched when the allocation fails |
| GrowArray.Slots.Append | kafka-table.c:406 | the new entry comes last |
| GrowArray.Slots.Remove | kafka-table.c:107-109 | the last entry fills the hole and every other entry stays where it is |
| GrowArray.Amortised | kafka-table.c:33-52 | over a whole lifetime, any mix of appends, removals and refused allocations: count is at most capacity, capacity is 0 or 8 times a power of two and at most 8 or twice the peak count, and all growths together copied at most twice the peak count |
| Callbacks.OneReport | kafka-engine.c:60-86 | a report whose message is outstanding takes it from the queue and reaches the record it names with its own code; one whose message is not does nothing |
| Callbacks.HeardAll | kafka-engine.c:60-86 | whatever is served, each record hears of every message once, or the message is still in the queue |
| KafkaTable.KafkaTables.constructor | kafka-table.c:21-26 | an unconnected module with empty arrays |
| KafkaTable.KafkaTables.ServeOne | kafka-engine.c:60-86 | exactly this report, with its code and time, is added to the record its message names, which is allocated; no other record changes, and the message leaves the queue |
| KafkaTable.KafkaTables.Serve | kafka-engine.c:245-257 | a poll or flush: each record gains exactly the reports for its outstanding messages, in order, and these messages leave the queue |
| KafkaTable.KafkaTables.FindLocked | kafka-table.c:55-69 | the index of the first topic with that very name, or their number; every record compared is allocated |
| KafkaTable.KafkaTables.ReapRetiredLocked | kafka-table.c:78-96 | all retired records are freed and forgotten if the out queue is empty at the check, and none is if it is not |
| KafkaTable.KafkaTables.RemoveLocked | kafka-table.c:104-130 | exactly the entry at the index leaves the array |
| KafkaTable.KafkaTables.Settle | kafka-table.c:113-127 | the record taken out is freed if the out queue is empty at the check; if it is not, it stays allocated, parked if there is room or memory for it and leaked if not |
| KafkaTable.KafkaTables.Connect | kafka-table.c:263-298 | a producer is installed exactly when there was none and it could be built; otherwise nothing is |
| KafkaTable.KafkaTables.Create | kafka-table.c:374-418 | it succeeds exactly when the name is there already, and then adds nothing, or a connection, a name, room or memory, and librdkafka's consent are, and then adds one fresh record of that name; retired records are gone afterwards if the queue is empty, and all there if it is not |
| KafkaTable.KafkaTables.Exists | kafka-table.c:364-372 | tells whether the name is in the table, and changes nothing |
| KafkaTable.KafkaTables.Produce | kafka-engine.c:396-424 | one message with the record's address and one more accepted, or none; and which of the three answers, when |
| KafkaTable.KafkaTables.FeedKey | kafka-engine.c:388-432 | a round is refused if and only if librdkafka refuses in it; every round but the last is queue-full; it succeeds if and only if the last was accepted, and then one message more is accepted, and none if not, whatever records the polls between the rounds ran callbacks for |
| KafkaTable.KafkaTables.Feed | kafka-engine.c:434-440 | with the guard: the length as an int if the last round was accepted and that is not negative, and -1 if not |
| KafkaTable.KafkaTables.Send | kafka-table.c:420-450 | there are rounds if and only if there is a topic of that name, and nothing changes if not; which rounds are refused or queue-full; -1 after a refusal, with nothing queued by the call; and the exact queue and histories it leaves |
| KafkaTable.KafkaTables.Dismiss | kafka-table.c:452-489 | exactly the entry with the name is removed and 0 returned, or -1 and the array is as it was; if the flush leaves the queue empty, that record and all retired ones are freed; if the queue is not empty at the end, nothing is |
| KafkaTable.KafkaTables.DismissAll | kafka-table.c:491-542 | afterwards there is no producer, no message, no topic handle and no memory but that of leaked records, and both arrays are given back; at most what the flush left in the queue was dropped |
| KafkaTable.KafkaTables.ProducerDispose | kafka-engine.c:259-296 | the poll thread is told to stop and joined before the producer is destroyed, and the queue is empty afterwards |
| KafkaTable.KafkaTables.GetStats | kafka-table.c:591-612 | zeroes for an unknown topic; otherwise the successes among all reports up to the end of the flush and the failures among those up to the second load, modulo 2^32, each report of the flush counted by its own code; and their sum against the messages accepted |
| KafkaSend.CopyName | kafka-cmd-send.c:81-82 | the local copy reads as the argument up to its first terminator |
| KafkaSend.KafkaSend | kafka-cmd-send.c:55-103 | the SQL function with turns of any number of other sessions between its steps: the error flag is set exactly when -1 is returned, arguments outside the guard change nothing, the result tells truly what was queued and where, a refusal by librdkafka makes it -1, and an undisturbed call gets as far as producing exactly when the topic is there or can be made |
| Delivery.TopicRecord.LogDeliveryFailure | kafka-engine.c:25-42 | with the code of the record and less than 60 seconds after its last line, one more is held back and nothing printed; otherwise the line is printed, with the count held back, and the code and time are remembered |
| Delivery.TopicRecord.LogDeliveryRecovered | kafka-engine.c:48-58 | the fields after a recovery, and its line |
| Delivery.TopicRecord.DrMsgCb | kafka-engine.c:60-86 | the record's fields and log are the replay of its history, with this report added |
| Delivery.TopicRecord.Dispose | kafka-engine.c:333-353 | the same for a disposal, which releases the handle if it has not been released yet |
| Delivery.CountersCount | kafka-engine.c:76-82 | the two counters are the numbers of failed and successful reports modulo 2^32 |
| Delivery.ThrottleConservation | kafka-engine.c:25-58 | over any events and any clock: failures received are failure lines, plus the counts printed, plus what is still held back, plus 2^32 for each overrun of the field |
| Delivery.NoOverrun | kafka-engine.c:28-31 | below 2^32 failures there is no overrun |
| Delivery.SettledAfterLine | kafka-engine.c:333-353 | nothing is held back right after a failure line, a recovery line or a disposal |
| Delivery.LastErrIsLastCode | kafka-engine.c:28-39 | the throttle compares with the code of the latest report, across disposals |
| Delivery.LogSays | kafka-engine.c:25-58 | for every history and any clock, event by event: a failure is printed if and only if its code is not the latest one or the latest line of this run is 60 seconds old, with its own code and the number not printed since the last line; a recovery exactly after a failure; and what a disposal says |
| Delivery.ThrottleRate | config.h.in:41-46 | for every history with a nondecreasing clock, failure lines are at least the maximal runs of one failing code and at most those plus the elapsed time divided by 60 |
| Delivery.ThrottleRateIsTight | config.h.in:41-46 | for every number of intervals some history meets that bound |
| Lifecycle.OnceEach | kafka-engine.c:203-222 | in any sequence of allowed calls a configuration is made once, and destroyed once or handed over once and never both, unless still held; producers and threads likewise |
| Lifecycle.AllGivenBack | kafka-engine.c:259-296 | while not connected, everything ever made was given back exactly once |
| Lifecycle.LastUse | kafka-engine.c:264-284 | a producer is destroyed while alive and without its poll thread, and nothing uses it afterwards |
| Lifecycle.Create | kafka-engine.c:110-160 | a producer with the defaults, or nothing is left behind; and exactly when, the six properties by name |
| Lifecycle.DefaultsAre | kafka-engine.c:150-157 | the six properties and their values, in the order in which they are set |
| Lifecycle.Producer.SetParam | kafka-engine.c:162-181 | one property more, exactly when there is a configuration, a name, and librdkafka accepts it; a producer that runs has none |
| Lifecycle.Producer.Run | kafka-engine.c:193-237 | running with the configuration that was built, or stopped at the first refusal with nothing owned twice; without a configuration, as after a first run, nothing changes |
| Lifecycle.Producer.Dispose | kafka-engine.c:259-296 | from any state create, set_param or run can leave: everything is given back |
| Parameters.MapRefined | kafka-table.c:212-245 | the list is a map: setting stores or replaces one pair, unsetting deletes one name, a refused call changes nothing, and while connected every change is refused |
| Parameters.SetExactly | kafka-table.c:191-251 | exactly when setting succeeds, a stored name needing memory for the value only, and that the pairs afterwards are those from before with this one stored |
| Parameters.UnsetExactly | kafka-table.c:558-589 | unsetting succeeds if and only if the name is stored and the module not connected, and takes away that pair only |
| Parameters.ConnectExactly | kafka-table.c:253-299 | exactly when connecting succeeds: brokers, not connected, the grants, the six defaults accepted and the configuration coherent |
| Parameters.ConnectBuilds | kafka-engine.c:150-157 | in the configuration a property the list names has the value of the last pair that names it, and any other is one of the six defaults |
| Parameters.RunSound | kafka-table.c:201-203 | in every run names are distinct and not empty, and every stored pair was accepted |
| Parameters.Frozen | kafka-table.c:207-210 | until a disconnect, no sequence of calls changes anything |
| Parameters.StoredNeverRefused | kafka-table.c:280-285 | after any calls since the module was loaded, a stored parameter is never the reason for a failed connect |
| Parameters.AppliedIsOverlay | kafka-table.c:276-285 | setting the list in order overlays the map it stands for on the defaults |
| Parameters.OrderInsignificant | kafka-table.c:577-579 | all orders of a list build the same configuration exactly when no two of its names are aliases of one property with different values |
| Parameters.OrderMatters | README.md:377-383 | with idempotence off, two names for one property set in one order or the other connect either way and give different producers |
| Parameters.OrderDecides | README.md:367-374 | with idempotence on, one of the two orders connects and the other is refused |
| Parameters.ReconnectSame | kafka-table.c:533-537 | connecting to the same brokers again, after any calls that change no parameter, builds the same configuration |
| Parameters.ParamTable.SetParam | kafka-table.c:191-251 | the list and the answer are those of the specification, in every error case |
| Parameters.ParamTable.Validate | kafka-table.c:165-189 | tells whether librdkafka accepts the pair, and gives the scratch configuration back on every path |
| Parameters.ParamTable.UnsetParam | kafka-table.c:558-589 | the list and the answer are those of the specification |
| Parameters.ParamTable.ConnectTo | kafka-table.c:253-299 | connected to the configuration specified, or unchanged with everything given back, and exactly when |
| Parameters.ParamTable.Configure | kafka-table.c:280-285 | the loop builds the defaults overlaid by the list, or stops at a refusal |
| Parameters.ParamTable.DisposeProducer | kafka-table.c:516-537 | the producer is given back and the parameters stay |
| KafkaModule.Module.constructor | kafka-table.c:21-26 | unconnected, without parameters, and the two parts agree |
| KafkaModule.Module.Connect | kafka-table.c:253-299 | it succeeds exactly when creating, configuring and running the producer does, the table then has the producer that was made, and otherwise both parts are as before |
| KafkaModule.Module.Disconnect | kafka-table.c:491-542 | both parts give the producer up, librdkafka holds nothing of ours, and the parameters stay |
| KafkaModule.Module.ProducerLives | kafka-engine.c:203-236 | an installed producer is live, owns its configuration and has its poll thread |
| CStrings.Snprintf | kafka-table.c:346 | as much of the text as fits before the terminator, the terminator, nothing outside the given range, and the length of the whole |
| CStrings.HeldString | kafka-cmd-info.c:61-67 | what C reads from such a buffer is the first characters of the text |
| Rendering.MentionsWhere | kafka-table.c:328-330 | the substring test is true exactly when the part occurs somewhere |
| Rendering.LineShown | kafka-table.c:346 | each entry adds one line of its name and its value, or asterisks if "password" or "secret" occurs anywhere in the name |
| Rendering.DescribeParams | kafka-table.c:332-360 | for every list and buffer size: exactly the first characters of the full text that fit, terminated, although the cursor may run past the end |
| Rendering.GetBrokers | kafka-table.c:301-325 | the broker list as far as it fits, or the empty string |
| Rendering.Info | kafka-cmd-info.c:49-79 | the three parts, the broker list cut to 512 characters and the parameters to 511, composed and cut to 1023, and exactly the length of what is there |
| Rendering.SecretsStay | kafka-table.c:328-330 | lists that differ only in values whose name has "password" or "secret" in it somewhere give the same answer |
| Rendering.RedactsOnlySecrets | kafka-table.c:346 | changing one value changes the full text if neither word occurs in its name, and does not if one does |
| Decimals.DigitsRead | kafka-cmd-info.c:67 | a number printed in decimal reads as that number and has no leading zero |
| VersionOrder.Antisymmetric | build-deb.sh:41-42 | the policy's comparison changes sign when its sides are exchanged |
| VersionOrder.Transitive | build-deb.sh:41-42 | and is transitive |
| VersionOrder.PlusAbove | build-deb.sh:41-42 | a '+' suffix sorts above the string it is appended to, whatever that is |
| VersionOrder.PrefixCancel | build-deb.sh:33-34 | a common beginning that does not end inside a number does not matter |
| VersionOrder.CharactersDecide | build-deb.sh:41-42 | between characters that are no digits a tilde comes first, then letters, then the rest, by their codes |
| VersionOrder.EndDecides | build-deb.sh:41-42 | where one version ends or goes on with a number, a tilde in the other sorts below it and any other character above |
| VersionOrder.NumbersDecide | build-deb.sh:41-42 | digits compare as numbers, an empty part as zero, and if they are equal what follows decides |
| Decimals.OneMoreDigit | build-deb.sh:41-42 | digits are read in the decimal system |
| Decimals.ZerosIgnored | build-deb.sh:41-42 | a leading zero does not matter |
| Decimals.FirstDigitDecides | build-deb.sh:41-42 | of two digit texts of one length the first difference decides |
| VersionOrder.PolicyExample | build-deb.sh:41-42 | the sorted list that the policy gives as its example |
| DebianVersion.DeriveVersion | build-deb.sh:44-70 | the script's assignments compute the specified version, or none without git information |
| DebianVersion.MatchPostExact | build-deb.sh:59-61 | the pattern matches exactly the texts made of a tag, a distance and a hash, and its groups are these |
| DebianVersion.MatchTagExact | build-deb.sh:62-64 | the other pattern matches exactly dotted numbers, with or without the v |
| DebianVersion.RewriteDescribe | build-deb.sh:33-39 | what git describe prints is taken apart into the tag and the suffix it was made of |
| DebianVersion.OnTag | build-deb.sh:36 | a tag loses its v and nothing else |
| DebianVersion.AfterTag | build-deb.sh:37 | the distance and hash after a tag become its suffix |
| DebianVersion.OffTag | build-deb.sh:38-39 | everything else is put behind 0.0.0+git., dirty or not, and without git information there is no version |
| DebianVersion.UntaggedExactly | build-deb.sh:65-67 | an untagged commit is recognised exactly when its hash has a letter |
| DebianVersion.HyphenFree | build-deb.sh:31-34 | the version has a hyphen exactly when the description, less its dirty mark, has one and is not a tag with commits after it |
| DebianVersion.StartsWithDigit | build-deb.sh:31 | the version always starts with a digit |
| DebianVersion.SuffixedTag | build-deb.sh:41-42 | a suffixed build sorts above its tag; and it sorts below every text above that tag which the pattern takes for one exactly when the tag does not end in a dot, as none of git's does |
| DebianVersion.BuildsFollowTags | build-deb.sh:41-42 | any build of a smaller tag git can have, whatever its distance, hash and dirtiness, sorts strictly below any build of a greater one |
| DebianVersion.BuildsByDistance | build-deb.sh:59-61 | builds after one tag sort by their distance |
| DebianVersion.UntaggedBelow | build-deb.sh:65-67 | a commit recognised as untagged sorts below a tag exactly when 0.0.0 does |
| DebianVersion.UntaggedBelowExactly | README.md:284-286 | for every hash: an untagged build sorts below every tag above 0.0.0 exactly when the hash has a letter or is all zeros |
| DebianVersion.DigitHashExample | README.md:284-286 | commit 1234567 outranks release 1.0 |

## Left out

- The C ABI of the SQL functions, argument coercion, `_init` and `_deinit`, and the wrappers for connecting, disconnecting, parameters and statistics: length checks and copies.
- librdkafka itself, behind the contract above.
- Real time: the clock is an input, a flush may stop early at any point, and no wall-clock bound is stated.
- C11 memory order and torn accesses: a callback, a load and each other step is atomic.
- Message texts and stderr output, except as the lines the throttle prints.
- The unload destructor and the final release of the parameters.
- Readers' and writers' fairness: `Progress.NoDeadlock` says that every session can return, not that any schedule lets it.
- The queue limit is one positive number for the life of the module; a parameter may change it between connections.
- KafkaTable.KafkaTables: within one locked section only callbacks interleave with a method; other sessions that hold the lock for reading at the same time are covered by the transition system (`Sessions.KafkaSend`, `Sessions.KafkaStats`).
- KafkaTable.KafkaTables.FeedKey: librdkafka may answer queue-full any number of times, after which the loop ends; an endless queue-full answer is not modelled, and keys, which the table never passes, are not.
- KafkaTable.KafkaTables.Connect: creating, configuring and running the producer is one choice here; `KafkaModule.Module.Connect` says what it is.
- KafkaSend.KafkaSend: other sessions take turns by whole sections under the lock; two sessions inside the lock for reading at the same time are covered by `Sessions.KafkaSend`.
- KafkaTable.KafkaTables.GetStats: other senders inside the lock at the same time are covered by `Sessions.KafkaStats`; counters at or above 2^32 wrap, and then nothing is said about their sum.
- Records are values at addresses rather than Dafny objects, so that a freed address can be told from an allocated one.
- Safety.DeliveryAccounting: what librdkafka does with a message between accepting and reporting it.
- Rendering.Info: a format that fails leaves the result buffer alone and the length 0, which is all that is said of it.
- DebianVersion.HyphenFree: tags that are not dotted numbers are passed through, hyphens included, as the script does.
