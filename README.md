# ConnectTheDots: recording test sender and Azure preparation command line

This project models, in Dafny, two sequential pieces of the ConnectTheDots
repository and proves properties of them.

1. **The recording test sender** of the gateway's batch-sender tests,
   `MockSenderAsyncQueue<T>` (`gateway_queue.dfy`, `mock_sender.dfy`). Sending a
   message pushes it onto the sender's own `GatewayQueue<T>`. `ToMockSenderMap`
   samples the queue's count once, then pops and forwards exactly that many
   messages into a new `MockSenderMap<T>`. `Close` does nothing. The queue is a
   class whose `items: seq<T>` field is reassigned by `Push` and `TryPop`. The
   recorder map is a class with an append-only `received` log. The drain is a
   `while` loop over `processedCount`, with the invariants that make it lose
   nothing, duplicate nothing and keep the order.
2. **The command line of the Azure preparation tool** (`azure_prep.dfy`).
   `Program.Parse` walks the argument array. It normalises each switch: a
   leading `/` becomes `-` and the rest is lower-cased. `-n`/`-nameprefix`,
   `-l`/`-location` and `-ps`/`-publishsettingsfile` each consume the next
   argument. The walk stops at the first error. On success, every setting still
   null gets its default. `Main` maps the outcome to the exit code. The class
   `Program` keeps the settings as fields; a null field is `None`. `Parse` is
   proved equal to a specification function, `Scan`, followed by `WithDefaults`.
   The lemmas about `Scan` state the parsing rules.

Three things the real program gets from outside are parameters. Reading a
publish-settings file is a function `load` from a path to an optional profile.
The hex text of the GUID hash in the default name prefix is a string. The way
`Run` ended is a value.

## Model

| member | source | states |
|---|---|---|
| GatewayQueues.GatewayQueue.constructor | GatewayService/BatchSenderThreadTest/Utils/MessageSender/MockSenderAsyncQueue.cs:11 | a new queue is empty |
| GatewayQueues.GatewayQueue.Count | GatewayService/BatchSenderThreadTest/Utils/MessageSender/MockSenderAsyncQueue.cs:22 | the count is 0 exactly when the queue is empty (that it equals the number of queued messages comes from its body, `|items|`, not from its contract) |
| GatewayQueues.GatewayQueue.Push | GatewayService/BatchSenderThreadTest/Utils/MessageSender/MockSenderAsyncQueue.cs:15 | the message goes to the tail of the queue; nothing else changes |
| GatewayQueues.GatewayQueue.TryPop | GatewayService/BatchSenderThreadTest/Utils/MessageSender/MockSenderAsyncQueue.cs:26-27 | on a non-empty queue, it removes and returns the head; on an empty queue, it reports failure and changes nothing |
| MockSender.MockSenderMap.constructor | GatewayService/BatchSenderThreadTest/Utils/MessageSender/MockSenderAsyncQueue.cs:20 | a new map has recorded nothing |
| MockSender.MockSenderMap.SendMessage | GatewayService/BatchSenderThreadTest/Utils/MessageSender/MockSenderAsyncQueue.cs:29 | the recorder appends the message after everything it has already recorded |
| MockSender.MockSenderAsyncQueue.constructor | GatewayService/BatchSenderThreadTest/Utils/MessageSender/MockSenderAsyncQueue.cs:11 | a new sender owns a fresh, empty queue |
| MockSender.MockSenderAsyncQueue.SendMessage | GatewayService/BatchSenderThreadTest/Utils/MessageSender/MockSenderAsyncQueue.cs:13-16 | always succeeds and appends exactly `data` to the tail of the recorded messages |
| MockSender.MockSenderAsyncQueue.ToMockSenderMap | GatewayService/BatchSenderThreadTest/Utils/MessageSender/MockSenderAsyncQueue.cs:18-35 | returns a fresh map holding exactly the messages recorded before the call, in sending order; the queue is left empty; the loop keeps `0 <= processedCount <= count` and counts only successful pops |
| MockSender.MockSenderAsyncQueue.Close | GatewayService/BatchSenderThreadTest/Utils/MessageSender/MockSenderAsyncQueue.cs:37-39 | the recorded messages are unchanged |
| MockSender.RecordAll | GatewayService/BatchSenderThreadTest/Utils/MessageSender/MockSenderAsyncQueue.cs:13-16 | sending a sequence of messages one by one appends that whole sequence, in order |
| MockSender.RecordAndDrainTwice | GatewayService/BatchSenderThreadTest/Utils/MessageSender/MockSenderAsyncQueue.cs:13-35 | record a batch, drain, record a second batch, drain: the first drain yields exactly the first batch and the second drain exactly the second, each in sending order, with nothing repeated |
| AzurePrep.LowerChar | Azure/AzurePrep/ConnectTheDotsAzurePrep/Program.cs:397 | an upper-case ASCII letter becomes its lower-case letter; every other character is kept |
| AzurePrep.Lower | Azure/AzurePrep/ConnectTheDotsAzurePrep/Program.cs:493 | lower-casing keeps the length, lower-cases each character and leaves no upper-case letter |
| AzurePrep.SwitchKey | Azure/AzurePrep/ConnectTheDotsAzurePrep/Program.cs:397 | the key has the argument's length, never starts with `/`, and has no upper-case letter after its first character |
| AzurePrep.SwitchKeyMatches | Azure/AzurePrep/ConnectTheDotsAzurePrep/Program.cs:397-400 | an argument selects the switch `-word` if and only if it starts with `-` or `/` and its rest lower-cases to `word` |
| AzurePrep.SwitchKeyIgnoresCase | Azure/AzurePrep/ConnectTheDotsAzurePrep/Program.cs:397 | two arguments that start with `-` or `/` and differ only in letter case after the first character select the same switch |
| AzurePrep.Scan | Azure/AzurePrep/ConnectTheDotsAzurePrep/Program.cs:394-471 | scans left to right; a value-taking switch consumes the next argument; stops at the first error, keeping what was assigned before it; a clean scan reads the arguments in switch/value pairs; a name prefix or location it sets is one of the arguments, and an argument it rejects is one of the arguments |
| AzurePrep.DefaultNamePrefix | Azure/AzurePrep/ConnectTheDotsAzurePrep/Program.cs:479-493 | lower-casing the default prefix (as the storage account name does) always yields text starting "iotdemo"; when the hash text has no upper-case letter, as lower-case hex does not, it yields exactly "iotdemo" followed by the hash text |
| AzurePrep.WithDefaults | Azure/AzurePrep/ConnectTheDotsAzurePrep/Program.cs:479-506 | after defaulting, every setting is non-null, and the publish-settings values are untouched |
| AzurePrep.ScanAppend | Azure/AzurePrep/ConnectTheDotsAzurePrep/Program.cs:395-471 | a clean scan consumes exactly its arguments, so scanning more arguments continues from the settings it reached |
| AzurePrep.ScanStopsAtFirstError | Azure/AzurePrep/ConnectTheDotsAzurePrep/Program.cs:462-470 | once an argument is rejected, the arguments after it are never looked at |
| AzurePrep.LastValueWins | Azure/AzurePrep/ConnectTheDotsAzurePrep/Program.cs:399-424 | a repeated name-prefix or location switch overwrites the earlier value, and every other setting stays as it was |
| AzurePrep.PublishSettingsSwitch | Azure/AzurePrep/ConnectTheDotsAzurePrep/Program.cs:425-461 | after a clean prefix, `-ps path` with a loadable file sets only the certificate and subscription id and scanning goes on; with a file that does not load, the scan ends with `InvalidPublishSettings(path)` and keeps the earlier settings |
| AzurePrep.WebsiteSwitchRejected | Azure/AzurePrep/ConnectTheDotsAzurePrep/Program.cs:462-475 | `-website`, which the usage text offers, selects no case: it is rejected as unrecognised, whatever follows |
| AzurePrep.MissingValueAtEnd | Azure/AzurePrep/ConnectTheDotsAzurePrep/Program.cs:399-434 | a value-taking switch given as the last argument is a parse error |
| AzurePrep.UnrecognizedArgumentStops | Azure/AzurePrep/ConnectTheDotsAzurePrep/Program.cs:462-470 | an argument that selects no switch is a parse error wherever it stands, whatever follows it |
| AzurePrep.EmptyArgumentStops | Azure/AzurePrep/ConnectTheDotsAzurePrep/Program.cs:395-397 | an empty argument in switch position, after a clean prefix, ends the scan with the empty-argument error, keeps the settings reached so far, and whatever follows is never looked at |
| AzurePrep.EmptyValueAccepted | Azure/AzurePrep/ConnectTheDotsAzurePrep/Program.cs:399-424 | an empty argument in value position is accepted: `-n ""` or `-l ""` sets that field to the empty string and the scan continues with the arguments after it |
| AzurePrep.ScanKeepsDerivedSettings | Azure/AzurePrep/ConnectTheDotsAzurePrep/Program.cs:395-471 | no switch sets the namespace, storage account, event hub or web-site directory settings |
| AzurePrep.ParseFillsDefaults | Azure/AzurePrep/ConnectTheDotsAzurePrep/Program.cs:479-506 | after a successful parse: the location is the given one or "Central US"; the prefix is the given one or "IoTDemo" plus the GUID hash; the namespace is prefix + "-ns"; the storage account is lower-cased prefix + "storage" and has no upper-case letter; the event hubs are "ehdevices" and "ehalerts"; the web-site directory gets its default |
| AzurePrep.Program.constructor | Azure/AzurePrep/ConnectTheDotsAzurePrep/Program.cs:49-59 | a new program has every setting null |
| AzurePrep.Program.Parse | Azure/AzurePrep/ConnectTheDotsAzurePrep/Program.cs:392-516 | succeeds exactly when the scan finds no error, and then the fields are the scanned settings with defaults filled in; on error it reports that first error and applies no default |
| AzurePrep.Program.FillDefaults | Azure/AzurePrep/ConnectTheDotsAzurePrep/Program.cs:479-506 | the fields become the defaulted settings |
| AzurePrep.MainExit | Azure/AzurePrep/ConnectTheDotsAzurePrep/Program.cs:371-390 | the exit code is 0 exactly when parsing succeeded and `Run` did not return false; it is 1 on a parse error or when `Run` returned false; an empty argument ends the process with an unhandled exception |
| AzurePrep.RunExceptionExitsZero | Azure/AzurePrep/ConnectTheDotsAzurePrep/Program.cs:379-389 | an exception thrown by `Run` after a successful parse still gives exit code 0 |
| AzurePrep.IntendedMainExit | Azure/AzurePrep/ConnectTheDotsAzurePrep/Program.cs:375-389 | corrected mapping: the exit code is 0 exactly when parsing succeeded and `Run` returned true; otherwise it is 1 |
| AzurePrep.IntendedDiffersOnlyOnRunException | Azure/AzurePrep/ConnectTheDotsAzurePrep/Program.cs:375-389 | the corrected mapping differs from the one in the code exactly when `Run` throws after a successful parse |

## Left out

- `Run` and `CreateEventHub` (Program.cs:75-352) are left out. They call the cloud management APIs, poll with `Thread.Sleep` and write to the console. Only how `Run` ended (`RunOutcome`) enters the model.
- The body of the publish-settings branch (Program.cs:438-453) is left out. It loads XML, runs XPath queries and decodes an X509 certificate. It is the `load` parameter: it consumes one value and either yields a profile or fails.
- AzurePrep.Program.Parse: when the certificate decodes but the subscription id attribute is missing, the code has already assigned `ManagementCertificate` when it fails. The model's `load` is all-or-nothing, so after such a failed parse the model's certificate field still holds its old value. This affects only the fields after a failed parse, which nothing reads.
- The GUID-based hash in the default name prefix (Program.cs:481) is not computed. Its hex text is the `guidHashHex` parameter.
- The `AZURESTREAMANALYTICS` blocks are left out. They are compiled only when that symbol is defined.
- Console output is left out: the error messages, the usage text and the mislabelled "missing NamePrefix argument" message of the `-ps` branch. Each printed error is a `ParseError` value instead.
- AzurePrep.LowerChar: only ASCII `A`–`Z` are folded; `ToLowerInvariant` also folds other Unicode upper-case letters (for example `Ä` to `ä`), which the model keeps as they are. `SwitchKey` and the storage-account name inherit this gap.
- AzurePrep.Lower: only ASCII `A`–`Z` are lower-cased. `ToLowerInvariant` also lower-cases other Unicode letters.
- AzurePrep.Program.Parse: the exception from `Substring(0, 1)` on an empty argument is the outcome `Failed(EmptyArgument)`, not a thrown exception. `MainExit` maps it to `UnhandledException`.
- The usage text (Program.cs:475) offers `-website <websitedir>` and marks `-PublishSettingsFile` as required. The code has no `-website` case, and a command line without `-ps` parses successfully with no certificate. The model follows the code: `WebsiteSwitchRejected` states the first, and `Scan` of no arguments succeeds.
- Null entries in the argument array are not modelled, since a command line cannot contain them.
- The async machinery is left out. `SendMessage` completes synchronously, and `.Result` and `.Wait()` add nothing. So is the unused `tasks` array (MockSenderAsyncQueue.cs:23).
- Thread safety of the queue is left out, and the model runs in a single thread. There, a pop inside the drain loop never fails. With a concurrent consumer, the code's loop could spin on failed pops until other messages arrive. That behaviour is not modelled.
- The internals of `GatewayQueue<T>` and `MockSenderMap<T>` are not part of this model. They are a FIFO sequence and an append-only log.
- `Close` does nothing. Sends after `Close` still succeed and are recorded, and the model has no closed state.

## Findings

| source | as written | input that shows it | evidently intended | confidence | as-written member | corrected member |
|---|---|---|---|---|---|---|
| Azure/AzurePrep/ConnectTheDotsAzurePrep/Program.cs:379-389 | if `Run` throws, the exception is caught but `result` still holds `true` from `Parse`, so `Main` returns 0 | any arguments that parse, with `Run` throwing (for example, a management API call failing) | return 1 when creating the resources failed with an exception | medium; not executed | AzurePrep.RunExceptionExitsZero | AzurePrep.IntendedMainExit |
