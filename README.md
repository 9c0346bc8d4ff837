# Change-record reconciliation pipeline, modelled in Dafny

The pipeline (`app.js`) reads one JSON file of change records from the root
of a storage bucket. It projects each record onto a configured attribute list
and fetches the organisation index from the topology service. Then it walks
the changes in order:

- it normalises each change: unifies the affected-services separators,
  strips parenthesised revision tags, and gives the change an id
  `CHG_<seconds>[_<services>]` with its entity type and match token;
- it keeps the change only when its status is of interest and it has a title;
- it resolves the affected organisation codes (with the `SP`→`ES` alias);
- it turns the affected services into tags and sends the change as a vertex;
- it links the change either to every resolved organisation (the broadcast
  case, when the only service is one of the two indicators) or to every
  topology element of every named service that belongs to an affected
  organisation (the targeted case, which also sets the change status on
  that element).

Every send goes through `sendToTopoApiOrFile`. In file mode that function
appends a `V:` or `E:` line per payload to a local artifact.

The model has these modules:

| module | file | models |
|---|---|---|
| `Wrappers` | wrappers.dfy | `Option`, `Result` |
| `Values` | values.dfy | attribute values (text, list, null), JavaScript truthiness, the mutable `ChangeRecord` object |
| `Settings` | settings.dfy | the run-scoped configuration read from the environment |
| `JsStrings` | jsstrings.dfy | `trim`, a global single-character replace, `startsWith`, `split`, decimal rendering |
| `Bootstrap` | bootstrap.dfy | `envStringToBoolean` and `getRootFile`'s archive filter and exactly-one check |
| `Extraction` | extraction.dfy | `extractAttributes` |
| `Normalizer` | normalizer.dfy | `beautifyChangeObject`, `generateUID`, `addAiopsTopoPropperties` |
| `OrgIndex` | orgindex.dfy | the index fill of `fetchTopologyOpcoData` and the OPCO resolution loop |
| `Sink` | sink.dfy | the log of sink calls and the file-mode branch of `sendToTopoApiOrFile` |
| `Engine` | engine.dfy | `prepareAndSendChangeData`: its specification functions and the imperative loops |
| `EngineFacts` | enginefacts.dfy | the properties of the engine |
| `Scenarios` | scenarios.dfy | worked cases with `|` as the separator |

The engine works in two layers:

- **The specification layer.** `Prepare` and `Emit` state what one change
  does. `ProcessChange` combines them into the calls the change sends,
  whether it threw, and the record it leaves behind. `Fold` and `Run` state
  what the pass does: the changes in order, stopping after the first one
  that throws.
- **The imperative layer.** It follows the source loop by loop. A class
  `ChangeRecord` is mutated in place, and an `EventLog` records every call to
  the sink. Each method is proved to do exactly what the specification
  functions say.

A JavaScript exception escapes `prepareAndSendChangeData` and ends the pass.
The model reports it as `aborted`. The places where the source can throw are:

- beautifying a list-valued services attribute;
- trimming a list-valued title;
- reading `.length` of a missing or null organisation list;
- splitting a non-empty list of services.

Notes on app.js (the model follows the code in each case):

- `beautifyChangeObject` deletes every tab at app.js:172 before the group
  pattern runs at app.js:173. For `"A;B\n C\t(old)"` the pattern therefore
  sees `"A|B| C(old)"` and removes `(old)`, so the result is `"A|B| C"`
  (`Scenarios.BeautifyExample`). A space before a group goes with it:
  `"ServiceA (v2)"` becomes `"ServiceA"` (`Scenarios.RevisionTagRemoved`).
- Of the organisation index's outcomes, only `null` stops the program
  before the pass (app.js:530-531); `main` also skips the pass when there is no
  root file or no file content, or when extraction throws (app.js:521-537).
  An empty index object is truthy
  (app.js:192-197), so with no organisations the pass still runs, and no
  code resolves.
- Several record-level problems throw instead of being skipped: a configured
  attribute missing during extraction (`item[attr].trim()`, app.js:465) and
  the list-valued attributes listed above. The throw ends the whole
  extraction or the rest of the pass.
- The title is cleaned at app.js:280 with
  `replaceAllOccurrences(changeTitle.trim(), '\t')`, which passes no
  replacement. JavaScript then replaces each inner tab with the text
  `undefined` (`Scenarios.TitleTabBecomesUndefined`).

## Model

| member | source | states |
|---|---|---|
| Bootstrap.EnvStringToBoolean | app.js:133-135 | A flag is on exactly when the variable is the text `true` or `1` (so one or four characters); an unset variable, a value with surrounding whitespace and a value with any upper-case letter are all off |
| Bootstrap.EnvFlagIsExact | app.js:133-135 | No case folding, trimming or other truthy words: `TRUE`, `True`, ` true`, `yes`, `0`, the empty text and an unset variable are all off |
| Bootstrap.NonArchived | app.js:144-147 | The filtered keys are exactly the listed keys that do not start with `archive/`, never more than were listed |
| Bootstrap.NonArchivedConcat | app.js:144-147 | The filter distributes over concatenated listings, so it keeps the listing order and repeated keys |
| Bootstrap.GetRootFile | app.js:138-158 | A root file is chosen exactly when the listing succeeded and exactly one key lies outside the archive folder; the chosen key was listed and is not archived |
| Bootstrap.AmbiguousRootIsRejected | app.js:149-151 | Two different keys outside the archive folder give no root file |
| Bootstrap.SoleLiveKeyIsRoot | app.js:144-153 | When one key, listed once, lies outside the archive folder, it is the root file, whatever else is archived |
| JsStrings.Trim | app.js:317 | The trimmed text has no whitespace at either end, is empty exactly when the input is all whitespace, and uses only the input's characters |
| JsStrings.TrimIsInnerSlice | app.js:317 | The trim is the slice of the input that starts after the leading whitespace; every character before and after that slice is whitespace |
| JsStrings.TrimKeeps | app.js:317 | A text with no whitespace at either end is its own trim |
| JsStrings.TrimIdempotent | app.js:317 | Trimming twice is trimming once |
| JsStrings.TrimAll | app.js:317 | `map(item => item.trim())`, item by item: as many items as parts, item i being the trim of part i |
| JsStrings.ReplaceChar | app.js:161-164 | After replacing every `c`: no `c` remains unless the replacement has one; every character comes from the input (not `c`) or from the replacement; a text without `c` is unchanged |
| JsStrings.ReplaceCharConcat | app.js:161-164 | Replacement distributes over concatenation |
| JsStrings.ReplaceCharKeeps | app.js:161-164 | Every character of the input other than `c` survives |
| JsStrings.Split | app.js:316 | Splitting on a non-empty separator gives at least one part |
| JsStrings.SplitJoin | app.js:316 | Joining the parts with the separator gives the text back |
| JsStrings.SplitLeftmost | app.js:316 | Splitting cuts at the leftmost occurrences: no part contains the separator, and no occurrence starts inside a part and runs into the separator after it |
| JsStrings.NatDecimalRoundTrip | app.js:244 | The decimal digits of a natural number read back as that number |
| JsStrings.IntDecimalRoundTrip | app.js:244 | The template-literal rendering of an integer, sign included, reads back as that integer |
| Extraction.ConfigAttributes | app.js:26 | The comma-split configuration list always has at least one name |
| Extraction.Projected | app.js:465 | `trim() \|\| null` is null exactly when the value is all whitespace, and otherwise a non-empty text with no whitespace at either end |
| Extraction.ExtractValue | app.js:465 | Reading one configured name succeeds exactly when it holds text, and gives its `trim() \|\| null` projection; a missing name or a non-text value throws |
| Extraction.ExtractRecord | app.js:462-467 | Projecting one record succeeds exactly when every configured name holds text; the output then has exactly the configured names, each with its trimmed value or null |
| Extraction.ExtractAll | app.js:461-468 | `data.map`, record by record: extraction succeeds exactly when every record can be projected, giving one projected record per input record, in order; the first record that cannot be projected fails the whole extraction |
| Extraction.ExtractAttributes | app.js:451-471 | There are as many records out as in; extraction fails exactly when the configuration is not `['*']` and some record does not hold every configured name as text |
| Extraction.WildcardPassesThrough | app.js:456-459 | With the configuration `['*']` the records pass through unchanged |
| Extraction.ProjectionContract | app.js:456-469 | With any other configuration, extraction succeeds exactly when every record holds every configured name as text; then the output has one record per input record, each with exactly the configured names and their trimmed values or null |
| Normalizer.GroupLength | app.js:173 | A match of `\s*\([^)]*\)` at the start runs over the leading whitespace to a `(` and ends at the first `)` after it (none lies between); when a `(` follows the leading whitespace and no match starts, no `)` follows it at all |
| Normalizer.StripGroups | app.js:173 | Removing the groups leaves no `(` followed later by `)`, keeps only input characters, and leaves a text without `(` unchanged |
| Normalizer.NoGroupIsFixed | app.js:173 | A text the pattern does not match is unchanged |
| Normalizer.StripGroupsIdempotent | app.js:173 | Removing the groups twice is removing them once |
| Normalizer.StripGroupsKeepsPrefix | app.js:173 | A prefix with no `(` that ends in a non-space is kept as it is, and the rest is processed on its own |
| Normalizer.StripGroupsDropsGroup | app.js:173 | A group `(x)` without `)` inside, with the whitespace before it, is removed after such a prefix, and the scan resumes after the `)` |
| Normalizer.UnifySeparators | app.js:172 | After unification no tab remains, and no `;` or newline unless the separator has one |
| Normalizer.UnifyConcat | app.js:172 | Unification distributes over concatenation |
| Normalizer.BeautifyServices | app.js:172-173 | The new services text has no tab, no `;` and no newline (unless the separator contains them), and no parenthesised group |
| Normalizer.BeautifyDropsGroup | app.js:172-173 | After a separator-free prefix with no `(` that ends in a non-space, a group and its leading whitespace are removed from the services text and the rest is beautified on its own |
| Normalizer.Beautified | app.js:169-176 | Beautification throws exactly when the services attribute is a list; otherwise only that attribute changes: to its beautified text when it is truthy, and not at all when it is falsy |
| Normalizer.BeautifyChangeObject | app.js:169-176 | The method throws exactly when `Beautified` fails and otherwise leaves the record as `Beautified` describes |
| Normalizer.EpochText | app.js:244-246 | The seconds stamp contains no `_` |
| Normalizer.EpochSeconds | app.js:244-246 | The stamp of a valid time reads back as its milliseconds divided by 1000, rounded towards negative infinity |
| Normalizer.StartEpoch | app.js:244-248 | The stamp comes from the start time when that attribute is truthy, and from the clock otherwise |
| Normalizer.StartEpochSources | app.js:244-248 | With a truthy start time the clock does not matter; without one the date parser does not matter |
| Normalizer.GenerateUid | app.js:243-255 | Every id starts with `CHG_` and contains no `\|`, whatever the services text |
| Normalizer.UidRoundTrip | app.js:243-255 | An id splits back into its stamp and, after the first `_`, the services with `\|` turned into `_`; the services part is there exactly when the services text is non-empty |
| Normalizer.WithTopoProperties | app.js:258-264 | The record gains `uniqueId`, `entityTypes = ['change']` and `matchTokens = [uniqueId]`, and every other attribute is kept |
| Normalizer.AddAiopsTopoPropperties | app.js:258-264 | The method assigns the id `generateUID` computes from the start time (or the clock) and the services, and leaves the record as `WithTopoProperties` describes |
| OrgIndex.IndexOf | app.js:193-196 | The index has a key exactly for each item name |
| OrgIndex.LastItemWins | app.js:194-196 | A name maps to the id of its last item |
| OrgIndex.BuildOpcoIndex | app.js:193-197 | The forEach loop builds exactly `IndexOf` of the items |
| OrgIndex.FetchTopologyOpcoData | app.js:179-210 | An index comes back exactly when the query answered with items, and it is their `IndexOf` |
| OrgIndex.Resolve | app.js:291-302 | The resolved ids are at most as many as the codes, and each is a non-empty value of the index |
| OrgIndex.ResolveConcat | app.js:292-302 | Resolution distributes over concatenated code lists, so the ids keep the code order |
| OrgIndex.ResolveOne | app.js:293-301 | One code resolves to its index entry when that entry is truthy, and otherwise to nothing |
| OrgIndex.SpResolvesAsEs | app.js:293-294 | Wherever it stands, code `SP` resolves exactly as `ES` does |
| OrgIndex.ResolveCounts | app.js:296-301 | Every code contributes an id exactly when every code hits the index |
| OrgIndex.ResolveAffectedOpcos | app.js:291-302 | The loop computes exactly `Resolve` of the codes |
| Sink.EventLog.Send | app.js:80 | A call to the sink is appended to the log, and its result is the delivery answer for that position |
| Sink.RenderLine | app.js:86 | A framed line is three characters longer than its JSON text and ends in a newline; `Sink.ParseTagged` states its content |
| Sink.RenderAllAppend | app.js:88 | Appending a line extends the artifact by exactly that line |
| Sink.ParseTagged | app.js:86 | A tagged line reads back as its kind and its JSON text |
| Sink.ArtifactRoundTrip | app.js:85-97 | Lines whose JSON has no raw newline read back as exactly the entries written, in order |
| Sink.Classify | app.js:84-95 | The resources endpoint and every endpoint under the topology endpoint give a vertex line; the references endpoint, when it passes neither vertex test, gives an edge line, and an edge line comes from nowhere else; any other endpoint gives no line |
| Sink.FileSink.constructor | app.js:493-504 | The old artifact is deleted, so the sink starts with no content |
| Sink.FileSink.SendToFile | app.js:81-109 | A resources or topology endpoint appends a `V:` line, the references endpoint an `E:` line, and any other endpoint appends nothing and fails; a failed append changes nothing and fails |
| Sink.ArtifactReadsBack | app.js:81-109 | The artifact of a file sink always reads back as the entries appended to it |
| Engine.OpcoCodes | app.js:285-292 | Reading `.length` of the organisation attribute throws exactly when that attribute is missing or null; a text iterates as its single characters, one code per character in order, and a list as its items |
| Engine.NonEmpty | app.js:321-324 | The pushed tags are exactly the non-empty tokens |
| Engine.NonEmptyConcat | app.js:321-324 | Filtering distributes over concatenation, so the tags keep the token order |
| Engine.OfInterest | app.js:271-277 | A change of interest has a non-empty text status listed in the comma-split setting; a list-valued status is never of interest (`includes` compares with `===`); `EngineFacts.OfInterestFrame` shows that no other attribute matters |
| Engine.Tokens | app.js:316-317 | One token per split part, and at least one for a non-empty separator; `JsStrings.SplitJoin` and `JsStrings.SplitLeftmost` fix the parts |
| Engine.TokensTrimmed | app.js:317 | Every token has no whitespace at either end |
| Engine.IsBroadcast | app.js:339 | The broadcast case holds only for a single token that is one of the two indicators; `EngineFacts.EmitBroadcast` gives its calls |
| Engine.BroadcastCalls | app.js:343-357 | At most one call per organisation id, each a relation on the references endpoint to the change; `EngineFacts.BroadcastIsOnePerOpco` gives exactly one per non-blank id, in order |
| Engine.ElementCalls | app.js:371-405 | An even number of calls, at most two per element; `EngineFacts.ElementCallsArePairs` gives the update and relation for each eligible element, in order |
| Engine.TargetedCalls | app.js:362-416 | An even number of calls, and none when every token is blank; `EngineFacts.TargetedConcat` and `EngineFacts.TargetedLinks` give the content |
| Engine.TitleName | app.js:280 | The cleaned title has no tab, and a trimmed title without an inner tab is used as it is |
| Engine.Normalized | app.js:268-269 | Normalisation fails exactly when beautification throws; otherwise the change gains exactly the keys `uniqueId`, `entityTypes` and `matchTokens`, holding its generated id, `['change']` and `[id]`, and every other attribute is as beautification left it |
| Engine.UidOf | app.js:243-255 | The id of a beautified change starts with `CHG_`, has no `\|`, and parses back into the stamp of its start time (or clock) and its services with `\|` turned into `_` |
| Engine.Prepare | app.js:268-279 | A change whose beautification throws halts with an abort and its raw record; a change that reaches the sending stage, or throws after it was normalised, has a status of interest; a ready change carries the id normalisation gave it |
| Engine.ProceedTitle | app.js:278-316 | A change ready to send has a non-empty text title, is named by its cleaned title, is tagged `change`, keeps its id and has a non-empty services text |
| Engine.Emit | app.js:316-417 | The sending stage never throws and sends the vertex first; the vertex record is the change with `tags` set and every other attribute kept |
| Engine.ProcessChange | app.js:268-430 | A change that throws sends nothing, and a change that sends anything sends its vertex first, carrying the final record; the EngineFacts lemmas characterise the rest |
| Engine.FoldAborted | app.js:267 | A fold of outcomes aborts exactly when one of them threw |
| Engine.Run | app.js:266-431 | The pass reports an abort exactly when some change, processed at its own clock reading, throws |
| Engine.AbortIsFinal | app.js:267-269 | Once a change has thrown, the later changes add nothing to the pass |
| Engine.OutcomeAt | app.js:267-269 | The outcome recorded for change i is what processing that change at its own clock reading gives |
| Engine.ReachedIff | app.js:267 | When the loop stopped at i, the changes it processed are exactly those before i |
| Engine.StoppedAt | app.js:267 | The pass is the pass up to where the loop stopped |
| Engine.PushTags | app.js:321-324 | The method appends exactly the non-empty services to the tags and changes nothing else |
| Engine.LinkOpcos | app.js:343-357 | The broadcast loop sends exactly `BroadcastCalls` |
| Engine.LinkElements | app.js:371-410 | The element loop sends exactly `ElementCalls` |
| Engine.LinkServices | app.js:362-416 | The services loop sends exactly `TargetedCalls` |
| Engine.SendChange | app.js:316-417 | The sending stage pushes the tags, sends the vertex, then the broadcast or targeted calls, exactly as `Emit` says |
| Engine.ProceedTitleObject | app.js:278-425 | The title, organisation and services stages do exactly what `ProceedTitle` and the sending stage say |
| Engine.ProcessChangeObject | app.js:268-277 | The loop body sends, throws and leaves the record exactly as `ProcessChange` says |
| Engine.ProcessAt | app.js:267-269 | Processing change i after changes that did not throw extends the pass by its outcome |
| Engine.ProcessEach | app.js:267-430 | The loop stops after the first throwing change; it has sent the calls of the changes it processed and left each processed record as its outcome says, the rest untouched |
| Engine.PrepareAndSendChangeData | app.js:266-431 | The whole pass sends the calls of `Run`, reports an abort exactly when a change threw, and leaves each reached record as its outcome says and every record after the throw untouched |
| EngineFacts.BroadcastLinks | app.js:343-357 | Every broadcast call is a `has` relation to the change on the references endpoint |
| EngineFacts.ElementLinks | app.js:371-405 | Every element call is an element update under the topology endpoint or a `has` relation to the change |
| EngineFacts.TargetedLinks | app.js:362-416 | The same holds for all targeted calls |
| EngineFacts.BroadcastIsOnePerOpco | app.js:343-357 | With no blank ids, there is exactly one relation per organisation, in order |
| EngineFacts.Eligibles | app.js:372-375 | The linked elements are exactly those with an organisation and an id, whose organisation is affected |
| EngineFacts.ElementCallsArePairs | app.js:371-405 | The element loop sends two calls per linked element, in element order: the update, then its relation |
| EngineFacts.TargetedIgnoresBlankTokens | app.js:362-363 | Blank tokens add nothing: only non-empty services are looked up |
| EngineFacts.TargetedConcat | app.js:362-416 | The targeted calls for consecutive services are the concatenation of each service's calls |
| EngineFacts.HaltEmitsNothing | app.js:419-429 | A change that stops before the sending stage sends nothing, and ends as the stop says |
| EngineFacts.ReadyEmits | app.js:315-334 | A change that reaches the sending stage is processed by `Emit` |
| EngineFacts.EmitVertexFirst | app.js:321-334 | The sending stage never throws; its first call is the vertex with the tags; every later call links to the change id |
| EngineFacts.AbortEmitsNothing | app.js:268-316 | A change that throws does so before its first send |
| EngineFacts.PrepareSkips | app.js:268-315 | A change whose beautification throws stops before the sending stage with an abort and its raw record; one whose status is not of interest or whose title is falsy stops there without an abort, in its normalised form; falsy services also stop it, whenever the services attribute is not `name` or `tags` |
| EngineFacts.OfInterestFrame | app.js:271-277 | Changing any attribute other than the status does not change whether a change is of interest |
| EngineFacts.RawStatusDecides | app.js:268-277 | When the status attribute is not one that normalisation writes, the normalised change is of interest exactly when the raw change is |
| EngineFacts.RawStatusSkips | app.js:268-277 | A raw change whose status is not of interest sends nothing, and throws exactly when its services attribute is a list |
| EngineFacts.PrepareStages | app.js:268-279 | Processing is normalisation, then the status filter, then the title stage |
| EngineFacts.ProceedTitleSkips | app.js:278-315 | A falsy title or falsy services stop the title stage |
| EngineFacts.SkipsEmitNothing | app.js:419-429 | Every skip path sends nothing, and a skipped change keeps its normalised form |
| EngineFacts.ReadyMeansQualified | app.js:276-316 | A change reaches the sending stage only with a status of interest, a title, a non-empty services text and an organisation list; its organisations are the resolved codes |
| EngineFacts.ProceedTitleReady | app.js:278-316 | The title stage gives the change its cleaned title as name and the tag `change`, and reads services and organisations from that record |
| EngineFacts.EmitsIffReady | app.js:315-334 | A change sends something exactly when it reaches the sending stage |
| EngineFacts.VertexFirst | app.js:321-334 | An emitting change sends one vertex first, carrying its tags, id, entity types and match tokens; every later call links to that id |
| EngineFacts.NamedKeepsTopoProperties | app.js:282-283 | Naming and tagging keep the id, entity types and match tokens |
| EngineFacts.EmitBroadcast | app.js:339-357 | In the broadcast case the vertex is followed by exactly one relation per organisation id, in order |
| EngineFacts.BroadcastCase | app.js:339-357 | The same holds for a whole change: no element updates, one relation per resolved organisation |
| EngineFacts.EmitTargeted | app.js:359-416 | In the targeted case the calls after the vertex are the targeted calls of the non-empty tokens, carrying the change's own status |
| EngineFacts.TargetedCase | app.js:359-416 | The same holds for a whole change |
| EngineFacts.EngineFraming | app.js:84-97 | When the references endpoint is neither the resources endpoint nor under the topology endpoint, every relation the engine sends is framed as an edge line and every other call as a vertex line |
| EngineFacts.RunStopsAtAbort | app.js:267-269 | The first change that throws ends the pass: the pass sends what came before and reports the abort |
| EngineFacts.RunConcatenates | app.js:267 | Without an abort, the pass sends each change's calls in change order |
| Scenarios.ReplaceOnce | app.js:161-164 | Replacing a character that occurs once between two free parts puts the replacement there |
| Scenarios.UidExample | app.js:251-253 | Services `a\|b` give the id `CHG_<seconds>_a_b` |
| Scenarios.SplitOne | app.js:316 | A text without the separator is one token |
| Scenarios.SplitPair | app.js:316 | Two separator-free texts around one separator are two tokens |
| Scenarios.RevisionTagRemoved | app.js:173 | `ServiceA (v2)` beautifies to `ServiceA`, whatever the separator |
| Scenarios.BeautifyShape | app.js:172-173 | `a;b\nc\t(x)` beautifies to `a`, `b` and `c` joined by the separator: the tab goes first, then the group |
| Scenarios.BeautifyExample | app.js:170-174 | `A;B\n C\t(old)` with separator `\|` beautifies to `A\|B\| C` |
| Scenarios.TitleTabBecomesUndefined | app.js:280 | A title `a<tab>b` with no whitespace at its ends is cleaned to `aundefinedb` |
| Scenarios.BroadcastExample | app.js:339-357 | The indicator alone, with two organisations, gives the vertex and two relations |
| Scenarios.TargetedOneHit | app.js:362-405 | A first service with one linked element and a second with none give that element's update and relation |
| Scenarios.TargetedExample | app.js:359-405 | The same for a whole sending stage: the vertex, the element update with the change's status, and its relation |

## Left out

- The HTTP branch of `sendToTopoApiOrFile`, the bearer-token fetch and its retries, `fetchTopologyDataByName`, the S3 listing and download, the proxy setup and `main`'s wiring are I/O. They appear only as parameters: the listing (`Option<seq<string>>`), the organisation query's items, `Env.lookup`, the delivery answers of `EventLog`, and the append outcome of `FileSink.SendToFile`.
- `Settings.Config`: every configuration variable is assumed set, so each setting is a text. An unset variable is not modelled. In the source, an unset `APP_CHG_TYPES_OF_INTEREST` makes `split(',')` throw at app.js:271 on the first change, aborting the pass. An unset `APP_SEPERATOR` makes app.js:172 write the text `undefined` and app.js:316 keep the whole services text as one token. An unset `APP_APIGW_INDICATOR` or `APP_STBS_INDICATOR` means that indicator's half of the broadcast test at app.js:339 never holds.
- Logging, including everything that `DEV_MODE` switches on, has no effect on the state and is not modelled.
- `Date.now()` and `new Date(...)` are the parameters `Env.clock` and `Env.parseDate`; the date parser is not modelled.
- `JSON.stringify` is a parameter of `FileSink`. `ArtifactReadsBack` assumes only that its output has no raw newline. The attribute order of the JSON text is not modelled.
- A failed deletion of an old artifact is not modelled: `Sink.FileSink.constructor` always starts empty.
- Strings are sequences of characters; UTF-16 code units versus code points are not distinguished.
- `Normalizer.BeautifyServices`: it does not model `$` replacement patterns in a separator that contains `$`.
- `OrgIndex.Resolve`: it does not model keys inherited from `Object.prototype` (a code such as `constructor` finds a truthy inherited value in the source).
- `Bootstrap.GetRootFile`: it does not model the error message; all three error paths return `None`.
- The delivery answer of a sink call only decides which line is logged. The model records it and nothing branches on it.
- Attribute values are modelled as text, lists of text, or null. Numbers, booleans, objects and lists of other values are not modelled. With the configuration `['*']` such values reach the engine, where, for example, a numeric title makes `.trim()` throw (app.js:280).
- `Engine.UpdateCall`: a topology element's missing field is modelled as the empty text. A missing `_id` therefore gives the endpoint `<topology>/` where the source builds `<topology>/undefined` (app.js:384). A missing `opco` or `uniqueId` is falsy in both.
- The engine's precondition that the change records are distinct objects holds for records that `JSON.parse` creates; aliased records are not modelled.
