# A model of the gateway's stream conversion and account scheduling

The gateway speaks the OpenAI and Anthropic APIs in front of a pool of upstream accounts. This
project models the parts with hard logic and proves what they keep:

- **Stream assembler** (`Events`, `Assembler`, `AssemblerLaws`, `ToolHistory`, `AssemblerDelivery`,
  `AssemblerObject`). OpenAI deltas in any order become one Anthropic message. The object updates its
  fields in place; each method is proved against a function of its state, and the laws are about those
  functions. What a tool block carries is told from the deltas of its index alone.
- **Tool arguments and JSON** (`Texts`, `Json`, `JsonLaws`, `JsonCanon`, `ToolArgs`,
  `ToolArgsDeltas`, `ToolArgsMerge`, `ToolReadiness`, `Stabilize`, `StabilizeLaws`,
  `StabilizeMeaning`, `ToolUseRoundTrip`). A full parser and printer for RFC 8259 section 2 with
  Python's extensions carries the recovery of doubled arguments, the merge of re-sent, of piecewise
  and of whole arguments, the canonical form, stable history messages, and the tool-use round trip.
- **Tool emitter and failover streams** (`ToolEmitter`, `ToolEmitterHistory`, `Upstream`,
  `FailoverOpenAi`, `ReasoningCompat`, `FailoverOpenAiLaws`, `FailoverOpenAiDelivery`,
  `FailoverOpenAiText`, `FailoverOpenAiHandover`, `FailoverOpenAiEnding`, `FailoverOpenAiStream`,
  `FailoverAnthropic`). Upstreams are arbitrary scripts, one an account; the client may leave at any
  line. The OpenAI side composes with the emitter's invariant, the Anthropic side with the
  assembler's main theorem.
- **Account pool** (`Ranking`, `PoolRecord`, `PoolRecordLaws`, `PoolRecordEffects`, `PoolObject`,
  `Scheduling`, `Acquire`, `Sequence`). One account's record under every event of its life, the
  five-rung ladder of `acquire`, and the failover chain, both told without their ladders.
- **Caches** (`LiveCreds`, `LiveCredsServing`, `LiveCredsObject`, `Affinity`). The credentials snapshot
  under any interleaving of writers, builders and refreshers, and the conversation affinity map.

The clock, generated ids, dice, shuffles, the outcome of a token refresh and the reading of an error
message by regular expressions are parameters. Redis is absent. Pool records and settings are those
of the file-backed store; the PostgreSQL store patches the same keys. The credentials cache is
modelled for writers that commit to the primary store and then invalidate, which only the PostgreSQL
branches do (auth_store.py:299, 320 and 358); a writer of the file alone never invalidates, and no
result speaks of its writes. Numbers that are floats in the source are `real`,
so rounding is not modelled.

Where the code does not keep what one might expect of it, a lemma says exactly when it does:

- the pieces of a text, merged one after the other, rebuild it only under the condition of
  `ToolArgsDeltas.DeltasRebuildExactly`; otherwise a piece is dropped, replaces the buffer, or is
  appended without what made it unclean;
- two complete arguments of which one is an object and the other an array are put one after the
  other, which is not complete (`ToolArgsMerge.ReadyStaysReady`);
- an upstream id that begins with `toolu_` is taken for a generated one, and so is not kept stable
  (`AssemblerDelivery.IngestTells`);
- two tool calls that differ only in the order of members inside the function have different stable
  forms (`StabilizeMeaning.FunctionOrderSays`, `StabilizeMeaning.CallDecides`);
- a failure that is both of the quota and of free usage leaves the account enabled
  (`PoolRecordEffects.FailureExactly`);
- a tool input comes back from OpenAI form only if it is an object (`ToolUseRoundTrip.InputComesBack`);
- in think-tag mode without tools in the request, a chunk with both a finish reason and reasoning
  but no content sends the closing tag ahead of the reasoning, unless that reasoning prints as the
  tag; and an answer that is blank altogether ends in an error with its think tag left open
  (`FailoverOpenAiText.TextIsInOrderExactly`, `FailoverOpenAiText.BlankReasoningLeavesTagOpen`);
- the text of a JSON body is dropped when it comes with tool calls, even if none of them can be sent
  (`FailoverOpenAiText.BodyTextExactly`);
- when the account store cannot be read, an earlier state or the empty list is stored and served as
  a fresh snapshot (`LiveCreds.FailedReadServesNothing`, `LiveCreds.FreshIsCurrent`);
- an invalidated credentials snapshot is served as fresh while the clock has not passed the
  length of the window since 0, because 0 stands for "never" (`LiveCreds.EarlyClockServesOld`);
- re-enabling an account does not end a stacked cooldown (`PoolRecordLaws.DurableExactly`);
- the bounded expansion of the failover window never happens, since the last rung keeps every
  account of a window that is not empty (`Sequence.BestIs`, `Sequence.WindowIs`);
- an emitted call id is the finalised id without its outer blanks (`ToolEmitter.EmitAll`).

## Model

| member | source | states |
|---|---|---|
| AssemblerLaws.RunIsOneMessage | anthropic_compat.py:1171-1712 | any run (start or not, any chunks, finish) is one message: blocks 0, 1, ... each opened, filled and stopped before the next, so a client with one active block ends closed; every tool block has its own upstream index, one that was fed; the cap on tools holds; without tools requested the text is everything fed, in order; with tools requested it is all of it, before any tool block, or none, and none only if a tool was sent; it stops for tool use exactly if it has a tool or upstream says so, and otherwise for the reason that upstream gave |
| AssemblerLaws.FedKeeps | anthropic_compat.py:1362-1566 | every call of feed keeps the invariant that ties indices, slots and held text to the events sent: no tool block stays open, a stopped slot is one whole block with its complete arguments and never changes, a slot is sent after every smaller known one, and a slot still held is behind an unfinished one or the cap |
| AssemblerLaws.ToolFedIsOneBlock | anthropic_compat.py:1394-1566 | a ready slot becomes in feed exactly one block: start with its id and name, one delta equal to its complete arguments, stop |
| AssemblerLaws.ToolsFedKeeps | anthropic_compat.py:1394-1566 | the tool loop of feed sends slots in index order, each whole, stops at the first unfinished known one, and sends nothing but tool blocks |
| AssemblerLaws.AllFedKeeps | anthropic_compat.py:1362-1566 | any number of feeds keeps the invariant, and slots are exactly among the indices that the chunks mention |
| AssemblerLaws.PrefaceKeeps | anthropic_compat.py:1584-1609 | the held preface is sent in full and in order unless a tool was sent or is ready, and then not at all |
| AssemblerLaws.FinishedKeeps | anthropic_compat.py:1568-1712 | finish completes the message, closes every block, keeps the cap, leaves out only slots that are blank or over the cap, and gives the reason why the message stops |
| AssemblerLaws.IngestInv | anthropic_compat.py:1394-1470 | deltas never open, revive or change a stopped slot |
| AssemblerLaws.StopReasonExactly | anthropic_compat.py:493-506 | which finish reasons become which stop reasons, in both directions |
| AssemblerDelivery.ToolsAreDelivered | anthropic_compat.py:1171-1712 | no tool is lost in a run: every upstream index that was given a name or arguments owns a tool block unless the cap is reached, and every tool block carries the id, the name and the merged arguments that the deltas of its index add up to, all of them or those by which the arguments were complete |
| AssemblerDelivery.ArgumentsArriveWhole | anthropic_compat.py:1171-1712 | if the pieces given for an index are beginnings of one object or array text, the text among them, or cut it into pieces that continue each other, the index owns a block that carries exactly this text, unless the cap is reached |
| AssemblerDelivery.IngestTells | anthropic_compat.py:1394-1470 | an unsent slot is what the deltas of its index add up to: the first real id, the name, and every piece of the arguments merged in order under the name known when it came |
| ToolHistory.ResentIsLongest | anthropic_compat.py:1077-1168 | re-sent beginnings of a text merge to the longest, whatever names come with them |
| ToolHistory.CutIsRebuiltExactly | anthropic_compat.py:1077-1168 | a text sent in pieces, under a name that may still grow, is rebuilt if and only if every piece continues the ones before it |
| ToolHistory.NameIsLongest | anthropic_compat.py:1245-1258 | names that are beginnings of one name, in any order, add up to the longest |
| ToolHistory.NewNameWins | anthropic_compat.py:1245-1258 | a name that does not begin the current one takes its place |
| AssemblerDelivery.AllFedMerges | anthropic_compat.py:1362-1566 | after any feeds a slot not yet sent is what its deltas merge to, a sent one is what they had merged to when it was ready, and no index given a name or arguments is without them |
| AssemblerDelivery.AbsorbNotGhostly | anthropic_compat.py:1394-1470 | a delta with a name or arguments leaves its slot with a name or arguments, and no delta takes the last of them away |
| AssemblerDelivery.MergeNotBlank | anthropic_compat.py:1077-1168 | merging never turns arguments that are not blank into blank ones, whatever it drops or replaces |
| AssemblerObject.AnthropicStreamAssembler.constructor | anthropic_compat.py:1178-1203 | a new assembler is fresh and valid |
| AssemblerObject.AnthropicStreamAssembler.Start | anthropic_compat.py:1220-1228 | start on the object sends message_start once and keeps the invariant |
| AssemblerObject.AnthropicStreamAssembler.FlushToolArgs | anthropic_compat.py:1265-1293 | sends the part of the arguments not yet sent, only when they are complete or the slot closes, and records it |
| AssemblerObject.AnthropicStreamAssembler.CloseTools | anthropic_compat.py:1295-1328 | flushes and stops every open slot in index order |
| AssemblerObject.AnthropicStreamAssembler.Feed | anthropic_compat.py:1362-1566 | feed on the object does what its specification does, keeps the invariant and leaves the slots as promised |
| AssemblerObject.AnthropicStreamAssembler.Finish | anthropic_compat.py:1568-1712 | finish on the object completes the message: the trace is one whole message whose text is all of what was fed or, when tools win, none |
| AssemblerObject.Stream | anthropic_compat.py:1171-1712 | a whole run through one object yields the message of the specification, on which a client closes |
| Events.ClientAccepts | anthropic_compat.py:918-1069 | a client that keeps one active block never breaks on a message of numbered blocks |
| JsonLaws.ParseLocal | anthropic_compat.py:533-575 | what raw_decode returns is fixed by the text it consumes (RFC 8259, section 2) |
| JsonLaws.PrefixFree | anthropic_compat.py:533-575 | no proper prefix of an object or array text starts with a JSON value |
| JsonLaws.DumpsRoundTrip | app.py:1016-1041 | parsing what was printed gives the value back, compact or spaced |
| JsonLaws.ParseWf | app.py:1016-1041 | a parsed value has no key twice and only number texts, at every depth |
| ToolArgs.DecodeAll | anthropic_compat.py:533-575 | the decoding loop finds the ends of all JSON values that stand one after the other |
| ToolArgs.SanitizeToolArgumentsJson | anthropic_compat.py:509-575 | the method with its decoding loop returns the text that the laws below are about, and needs no precondition |
| ToolArgs.SanitizeIdempotent | anthropic_compat.py:509-575 | sanitizing twice is sanitizing once, on every string |
| ToolArgs.SanitizePrefix | anthropic_compat.py:509-575 | every prefix of an object or array text is left unchanged |
| ToolArgs.SanitizeRepeated | anthropic_compat.py:533-575 | an object or array text repeated any number of times comes back as one copy |
| ToolArgs.PrefixNotComplete | anthropic_compat.py:630-678 | arguments are never ready before their text is whole |
| ToolArgs.MergePrefixes | anthropic_compat.py:1077-1108 | two prefixes of one object or array text merge to the longer |
| ToolArgs.FoldPrefixes | anthropic_compat.py:1077-1168 | merging any prefixes of a text, in any order with repeats, gives the longest seen |
| ToolArgs.ReadyWhenWhole | anthropic_compat.py:1077-1168 | under such re-sends the buffer becomes ready exactly when the whole text has arrived and is ready |
| ToolArgs.SuffixAppendsExactly | anthropic_compat.py:1100-1168 | a piece continuing an unfinished text is appended if and only if it is clean, not ready on its own, and neither begins the buffer nor begins with it |
| ToolArgsDeltas.ParseShort | app.py:1016-1041 | what is read from a text prints no longer than it, compactly, where numbers keep their spelling; a float that Python prints longer than it was read, such as 1e15, is not covered |
| ToolArgsDeltas.MergeShrinks | anthropic_compat.py:1077-1168 | no merge gives more text than it was given, dict merges included, where numbers keep their spelling; a dict merge that prints a float longer than it was read, such as 1e15, is not covered |
| ToolArgsDeltas.DeltasRebuildExactly | anthropic_compat.py:1077-1168 | however an object or array text is cut into pieces, merging them in turn rebuilds it if and only if every piece is clean, neither begins the buffer nor begins with it, and is not ready on its own |
| ToolArgsDeltas.BracketIsLost | anthropic_compat.py:1100-1108 | an array in an array whose brackets come one by one is not rebuilt |
| ToolArgsMerge.ObjectsAdd | anthropic_compat.py:1077-1168 | two object texts, both ready or both not, merge to a text that reads as the earlier object with the later one added: the later value under a shared key, an object added to one that is not empty |
| ToolArgsMerge.JunkIsRefused | anthropic_compat.py:1077-1168 | complete arguments stay as they are when a piece is not complete, unless it extends them as a text |
| ToolArgsMerge.ReadyStaysReady | anthropic_compat.py:1077-1168 | two complete arguments merge to complete ones if and only if both are objects or both are arrays |
| ToolArgsMerge.LongerListStays | anthropic_compat.py:1077-1168 | of two list texts the longer is kept, of two of one length the later, and the earlier when they are equal |
| ToolArgsMerge.ScalarGivesWay | anthropic_compat.py:1077-1168 | a fragment that reads as a scalar gives way to an object or list, whichever came first |
| ToolArgsMerge.TwoValues | anthropic_compat.py:1077-1168 | one object or array text after another is not complete |
| ToolReadiness.KnownToolIsReady | anthropic_compat.py:593-678 | arguments are ready for a tool of the table, whatever the case and punctuation of its name, exactly if they are a list that is not empty or an object with every required argument there and not blank |
| ToolReadiness.SuffixToolIsReady | anthropic_compat.py:593-678 | a name that is not in the table needs what the first entry that it ends with needs |
| ToolReadiness.UnknownToolIsReady | anthropic_compat.py:593-678 | any other tool is ready with a list or object that is not empty |
| JsonCanon.CanonIsCanon | app.py:1004-1013 | canonicalising gives sorted keys at every depth and an equal value |
| JsonCanon.CanonIsNormalForm | app.py:1004-1013 | two values canonicalise to the same value if and only if they differ only in key order |
| JsonCanon.CanonIdempotent | app.py:1004-1013 | canonicalising twice is canonicalising once |
| JsonCanon.CanonicalTextReadsBack | app.py:1016-1041 | the canonical text parses to a value equal to the argument's |
| JsonCanon.CanonicalTextIdempotent | app.py:1016-1041 | the canonical text is its own canonical text |
| JsonCanon.CanonicalTextDecidesEquality | app.py:1016-1041 | two arguments have the same canonical text if and only if their values are equal up to key order |
| StabilizeLaws.StableArgsIdempotent | app.py:1050-1145 | stable arguments, canonical or not, are their own stable form |
| StabilizeLaws.StableCallsIdempotent | app.py:1050-1084 | stabilising history tool calls twice is doing it once, key order included |
| StabilizeLaws.StableTextIdempotent | app.py:1087-1098 | normalising line endings twice is doing it once |
| StabilizeLaws.CanonicalTextIsStable | app.py:1087-1169 | a content object's canonical text has no line break that a second pass could touch |
| StabilizeLaws.StableContentIdempotent | app.py:1132-1175 | content of any shape, once stable, stays as it is |
| StabilizeLaws.StableIdempotent | app.py:1101-1180 | stabilising a message twice is doing it once, for every JSON value on which it does not raise |
| StabilizeMeaning.StableDecides | app.py:1101-1180 | two messages have the same stable form if and only if they say the same: the order of members, the order of keys in arguments, the line endings of system text and the form a text is given in say nothing, and everything else does |
| StabilizeMeaning.StableKeeps | app.py:1101-1180 | nothing is lost: a stable message says what the message says, its role, name, ids, calls, arguments, content and reasoning |
| StabilizeMeaning.StableExactly | app.py:1101-1180 | a message has a stable form unless its role, or a type in its content list, is neither text nor missing |
| StabilizeMeaning.StableInPlace | app.py:1101-1180 | the members of a stable message are some of seven in a fixed order, a role and content always among them |
| StabilizeMeaning.MemberOrderSaysNothing | app.py:1101-1180 | messages that differ only in the order of their members have the same stable form |
| StabilizeMeaning.TextFormSaysNothing | app.py:1132-1169 | a text, a list of this text, a list of it as a part, and the part alone are the same content |
| StabilizeMeaning.LineEndingsSayNothing | app.py:1087-1098 | system texts with the same lines have the same stable form, whatever ends the lines |
| StabilizeMeaning.TextKept | app.py:1087-1098 | stable text keeps every line, up to white space at the end of a system text, and all of any other text |
| StabilizeMeaning.ContentKept | app.py:1132-1175 | stable content says what the content says, in every shape |
| StabilizeMeaning.ArgsDecide | app.py:1016-1145 | arguments have the same stable form if and only if they are equal values up to key order, or the same text |
| StabilizeMeaning.CallDecides | app.py:1050-1084 | tool calls have the same stable form if and only if they have the same id, type, function, arguments and other members in order |
| StabilizeMeaning.CallKept | app.py:1050-1084 | a stable tool call says what the call says |
| StabilizeMeaning.NumberIsTrue | app.py:1050-1084 | where the code asks whether a value is there, a number counts unless it is zero |
| StabilizeMeaning.FunctionOrderSays | app.py:1050-1084 | two equal calls whose functions list their members in different orders have different stable forms |
| ToolUseRoundTrip.ToolUseRoundTrips | anthropic_compat.py:278-328 | the tool uses of an assistant message survive the trip to OpenAI form and back, in order, if and only if each has an id and an object for input, whatever stands between them |
| ToolUseRoundTrip.InputComesBack | anthropic_compat.py:681-698 | an input comes back as it was if and only if it is an object |
| ToolUseRoundTrip.ArrayComesBackWrapped | anthropic_compat.py:681-698 | an array comes back under the key "value" |
| ToolUseRoundTrip.ScalarComesBackWrapped | anthropic_compat.py:681-698 | so does any other value that is not text; a missing input comes back as an empty object |
| ToolUseRoundTrip.TextComesBack | anthropic_compat.py:681-698 | text comes back as the object it reads as, wrapped if it reads as another value, and raw if nothing can be read from it |
| ToolUseRoundTrip.MessageToOpenAi | anthropic_compat.py:278-328 | the three lists built block by block are the message that the round trip is proved about: calls in block order, null content only beside calls without text |
| ToolUseRoundTrip.CallsToBlocks | anthropic_compat.py:701-723 | one block a call, in order, as the round trip is proved about |
| ToolUseRoundTrip.ThereAndBack | anthropic_compat.py:278-723 | both loops one after the other meet the round trip |
| ToolEmitter.EmissionShrinks | app.py:2451-2542 | every emission leaves fewer slots to send, so drains end |
| ToolEmitter.CandidateIsNext | app.py:2451-2512 | a tool is sent while streaming exactly when the smallest unsent known slot is complete, and it is that slot |
| ToolEmitter.FlushTakesNamed | app.py:2515-2542 | the flush takes the smallest unsent slot with a name, and stops exactly when there is none |
| ToolEmitter.NextIndex | app.py:2340-2360 | the next outbound index is the number of items sent so far |
| ToolEmitter.FinalizedSlots | app.py:2697-2726 | the finalised calls are those of exactly the named slots |
| ToolEmitter.Accumulator.AssignDense | app.py:2340-2360 | the loop over used indices finds the number of items sent |
| ToolEmitter.Accumulator.Build | app.py:2420-2448 | building an item marks its slot sent under the next index and a non-empty id |
| ToolEmitter.Accumulator.IngestDeltas | app.py:2363-2417 | merging deltas never emits or un-emits |
| ToolEmitter.Accumulator.ArgumentDelta | app.py:2451-2512 | merges, then sends at most one tool: the smallest unsent known slot, with its complete arguments |
| ToolEmitter.Accumulator.FlushOne | app.py:2515-2542 | sends the smallest unsent named slot, or nothing when all are sent |
| ToolEmitter.Accumulator.Finalize | app.py:2697-2726 | the result lists exactly the slots of FinalizedSlots, in index order |
| ToolEmitter.Accumulator.Stream | app.py:2451-2512 | any run of deltas extends the list of emissions |
| ToolEmitter.Accumulator.Drain | app.py:2515-2542 | the drain ends with every named slot sent |
| ToolEmitter.EmitAll | app.py:2340-2726 | deltas then drain: indices 0, 1, 2, ... in order of emission, no slot twice, every item with an id and a name, and the slots sent are exactly those finalised, under the same ids up to outer blanks |
| ToolEmitterHistory.IngestKept | app.py:2363-2417 | a slot holds what the deltas of its index add up to: the first id, the last type, the name, and every piece of the arguments merged in order under the name known when it came |
| ToolEmitterHistory.BuiltKept | app.py:2420-2448 | an item carries what its slot holds when it is sent |
| ToolEmitterHistory.FinalsTell | app.py:2697-2726 | the final list has for each named slot the name, the last type and all merged arguments, without doubled copies, or `{}` for none |
| ToolEmitterHistory.WholeIsCarried | app.py:2363-2542 | an item whose pieces arrive as re-sent beginnings of one text, or as a cutting of it that continues, carries exactly this text |
| ReasoningCompat.RewritingIsRight | app.py:2095-2156 | however an answer is cut into chunks: in think-tag mode the client has everything in order with each stretch of thought between tags, as plain content everything in order, and otherwise thoughts and text each in full |
| FailoverOpenAiLaws.StreamedIsSound | app.py:3454-4179 | for every chain and every script: output only from the last account tried, the role frame at most once and ahead of all output, tools on the wire numbered 0, 1, ... with ids and names and within the cap, never tools beside text when the request asks for tools, and [DONE] only as the last frame and always there for a client that stays |
| FailoverOpenAiLaws.AttemptEnds | app.py:3480-4168 | whatever one upstream does, its frames are early frames and one of three endings, and it hands over only before any output |
| FailoverOpenAiHandover.HandsOverExactly | app.py:3480-4027 | an attempt hands over if and only if another account is left and it got no connection before the role frame was sent, or a status 401, 403, 429, 500, 502, 503 or 504, or an uncut stream that says nothing to a client that is there; it has sent nothing then, or only the role frame and keepalives |
| FailoverOpenAiHandover.RunGoesOnExactly | app.py:3480-4027 | a run goes on as the run from the next account exactly if the attempt hands over, and otherwise ends with it |
| FailoverOpenAiHandover.RunStopsAtFirst | app.py:3454-4179 | the account that a run ends with is the first that does not hand over, or the last |
| FailoverOpenAiEnding.EndsExactly | app.py:2729-2737 | an answered attempt ends for a client that stays with an error exactly if it was cut or shipped no tool and blank text only, and otherwise with the reason that upstream gave last, or one that names tools exactly if there were any |
| FailoverOpenAiEnding.EmptyExactly | app.py:3982-3997 | an answer counts as empty exactly if it ships no tool and neither its text nor what is held says anything |
| FailoverOpenAiEnding.GoneGetsNothing | app.py:3576-4101 | a client that is gone gets nothing more, and no other account is tried |
| FailoverOpenAiLaws.OnChunkKeeps | app.py:3600-3815 | one upstream chunk keeps the invariant of an attempt |
| FailoverOpenAiLaws.OnJsonBodyKeeps | app.py:3818-3934 | a JSON body keeps the invariant of an attempt: dense capped tools, and never tools beside text when tools were asked for (what it delivers is stated by ToolsAreDelivered and BodyTextExactly) |
| FailoverOpenAiLaws.SettledKeeps | app.py:3936-4088 | the terminal flush, the empty-answer test and the terminal frames keep the invariant |
| FailoverOpenAiDelivery.ToolsAreDelivered | app.py:3600-3962 | in a stream drained with the client connected, and in every JSON body, each upstream index that was ever given a name is on the wire under its own frame, unless the cap has been reached; and each frame carries the id, type, name and merged arguments that the deltas of its index add up to, all of them or those by which the arguments were complete |
| FailoverOpenAiDelivery.ArgumentsArriveWhole | app.py:3600-3962 | if the pieces given for an index are beginnings of one object or array text, the text among them, or cut it into pieces that continue each other, its tool frame carries exactly this text |
| FailoverOpenAiDelivery.DrainReadyEnds | app.py:3783-3811 | the drain after a tool frame stops only at the cap or when the next slot in line is not complete |
| FailoverOpenAiDelivery.FlushHeldEnds | app.py:3936-3962 | the terminal flush stops only at the cap or when every slot with a name has been sent |
| FailoverOpenAiDelivery.FlushListEnds | app.py:3861-3871 | the flush of a JSON body leaves no slot with a name |
| FailoverOpenAiDelivery.IngestNames | app.py:2363-2417 | a slot has a name as soon as one delta has given it one, and keeps one |
| FailoverOpenAiText.TextIsInOrderExactly | app.py:3636-4075 | in every mode, with tools asked for or not, a drained stream that ships no tool gives a connected client every piece of text; it gives them in the right order with every think tag closed behind what it holds if and only if, in think-tag mode without tools in the request, neither of these happens: a chunk with a finish reason and reasoning but no content, with no tool call in or before it and reasoning that does not print as the closing tag; or an answer blank as a whole that has opened a tag |
| FailoverOpenAiText.BlankReasoningLeavesTagOpen | app.py:3982-4027 | in think-tag mode without tools, one chunk of blank reasoning opens a tag that the error ending the stream leaves open |
| FailoverOpenAiText.TextIsDelivered | app.py:3636-4062 | in a drained stream that ships no tool, with tools asked for or in a mode without think tags, a connected client gets everything said, held or not, in order and in full, and an open think tag is closed |
| FailoverOpenAiText.SentInOrder | app.py:3713-3762 | the pieces sent as they come are in order exactly when every chunk is orderly |
| FailoverOpenAiText.BodyTextExactly | app.py:3818-3934 | the text of a body that is no stream goes out in full if it carries no tool calls, and not at all if it does |
| FailoverOpenAiStream.DrainTools | app.py:3783-3811 | the drain after a tool frame in place: it stops only at the cap or when the next slot in line is not complete |
| FailoverOpenAiStream.FlushTools | app.py:3936-3962 | the terminal flush in place: it stops only at the cap or when every slot with a name has been sent |
| FailoverOpenAiStream.FlushAll | app.py:3861-3871 | the flush of a JSON body in place leaves no slot with a name |
| FailoverOpenAiStream.EmitSerial | app.py:2288-2325 | tools go out one a frame in order, with keepalives between, and stop at the cap |
| FailoverOpenAiStream.SendFrames | app.py:3752-3811 | text and tools of a chunk go out in frames of their own, text first, and nothing goes to a client that is gone |
| FailoverOpenAiStream.TakeChunk | app.py:3600-3815 | one chunk in the order of the source takes the step that the laws of the stream are about |
| FailoverOpenAiStream.ReadBody | app.py:3842-3934 | a JSON body in the order of the source takes the step that ToolsAreDelivered and BodyTextExactly are about |
| FailoverOpenAiStream.ReadLines | app.py:3576-3817 | lines take effect in order up to [DONE], whose disconnect check still counts |
| FailoverOpenAiStream.SendHeld | app.py:4049-4064 | if no tool won, every held piece goes out in order; afterwards nothing is held |
| FailoverOpenAiStream.Settle | app.py:3936-4101 | an answered attempt ends by handing over an empty answer, by an error, or by its terminal frames, as the laws of the stream require |
| FailoverOpenAiStream.StreamProxyWithFailover | app.py:3454-4179 | the generator over accounts has all the guarantees of the stream |
| FailoverAnthropic.StreamedIsSound | app.py:5282-5825 | for every chain and every script: all frames come from the last account tried, none is tried after one has answered, message_start at most once and first, an error only as the last frame; an answer that says something and is not cut off reaches a client that stays as exactly the assembler's message, any other as a message broken off by the error; a client that leaves has a beginning of it and is never broken |
| FailoverAnthropic.AttemptEnds | app.py:5320-5816 | an attempt sends nothing and hands over, or what it sends is final |
| FailoverAnthropic.RunGoesOnExactly | app.py:5315-5375 | a run goes on as the run from the next account exactly if another is left and this one got no connection or a status 401, 403, 429, 500, 502, 503 or 504; nothing has been sent then, and otherwise the run ends here |
| FailoverAnthropic.RunStopsAtFirst | app.py:5285-5760 | the account that a run ends with is the first that does not hand over, or the last |
| FailoverAnthropic.StreamReason | app.py:2729-2737 | the reason given to the assembler is the last that upstream gave, or one that says whether a tool was sent |
| FailoverAnthropic.OnLinesFed | app.py:5422-5490 | after any lines the client has a prefix of the events of feeding their chunks, all of them if it stayed |
| FailoverAnthropic.FedAccepted | app.py:5422-5490 | an unfinished message is one that a client accepts and has not closed |
| FailoverAnthropic.Yield | app.py:2259-2285 | events go out one by one, and none to a client that is gone |
| FailoverAnthropic.ReadLines | app.py:5422-5490 | the lines fed to an assembler object leave it and the client as OnLinesFed says |
| FailoverAnthropic.TryAccount | app.py:5320-5816 | one account with an assembler object of its own ends as AttemptEnds says |
| FailoverAnthropic.StreamAnthropicWithFailover | app.py:5282-5825 | the generator over accounts has all the guarantees of the stream |
| LiveCreds.FreshIsCurrent | auth.py:157-341 | after any interleaving, a snapshot served as fresh is what the store held at some time; read from the primary store it has every write whose invalidate had completed; stored after a failed read it is the state after some n writes and has them if and only if no completed write came later; at most one refresher runs |
| LiveCreds.FreshIsAlwaysCurrent | auth.py:157-341 | in a run without failed reads every snapshot served as fresh has every completed write |
| LiveCreds.FailedReadServesNothing | auth.py:214-254 | a failed read is stored as an empty snapshot that is served as fresh though a write is complete |
| LiveCreds.RunKeeps | auth.py:157-341 | every interleaving keeps: a snapshot of the primary store in flight with the current generation has every completed write, so has one marked fresh, a fallback is an earlier state, and the refreshing flag says whether there is a refresher |
| LiveCreds.EarlyClockServesOld | auth.py:174-211 | for every clock reading below the window there is a run, all at that reading, after which an invalidated snapshot is served as fresh |
| LiveCredsServing.ServedExactly | auth.py:174-211 | a request is served exactly if the last snapshot stored is of its path, and it was stored within the window with nothing invalidated since it was begun or, where stale ones are allowed, within the bound on those |
| LiveCredsServing.StartsExactly | auth.py:278-301 | a refresh is started exactly if there is a snapshot, no refresher is running and the last one was not started within the time to live; it reads the path of the snapshot at the current generation |
| LiveCredsObject.Worker.Invalidate | auth.py:157-171 | completes a write: from then on no snapshot counts as fresh and none in flight can be stored as fresh; the invariant of the interleavings is kept |
| LiveCredsObject.Worker.Store | auth.py:238-254 | a stored snapshot counts as fresh only if no invalidate came since its generation was read, and then, read from the primary store, it has every completed write |
| LiveCredsObject.Worker.Schedule | auth.py:278-301 | starts a refresher only if none is running, and then it is the only one; otherwise starts none |
| LiveCredsObject.Worker.EndRefresh | auth.py:272-275 | after the end of a refresher none is running |
| LiveCredsObject.Worker.GetCached | auth.py:174-211 | what is returned is what the store held at some time, and fresh from the primary store it has every completed write |
| LiveCredsObject.Worker.Build | auth.py:214-235 | a snapshot read from the primary store has every completed write |
| LiveCredsObject.Worker.BuildFromFallback | auth.py:214-235 | a read that fails gives an earlier state, and the empty list when there is no fallback |
| LiveCredsObject.Perform | auth.py:157-341 | any interleaving run on the object, then one request: what it is served as fresh is what the store held, with every completed write if no read failed |
| Affinity.SortedIs | conversation_affinity.py:298-310 | sorting by last_seen puts each binding where the number of bindings behind it says |
| Affinity.PurgedIs | conversation_affinity.py:298-310 | a purge leaves at most max bindings, unchanged: exactly those not expired with fewer than max others behind them |
| Affinity.DroppedOnlyWhenCrowded | conversation_affinity.py:298-310 | a binding younger than the time to live goes only when at least max others have last_seen no older |
| Affinity.PurgedExactly | conversation_affinity.py:298-310 | a purge leaves a fingerprint its binding if it is young with fewer than max others behind it, and drops it otherwise |
| Affinity.GotIs | conversation_affinity.py:313-336 | a lookup answers with the binding that the purge leaves, refreshes it and changes no other |
| Affinity.BoundIs | conversation_affinity.py:339-367 | a bind binds its fingerprint, freshly seen, and leaves what the purge leaves |
| Affinity.SizeIsBounded | conversation_affinity.py:298-408 | after any operations the map has at most max + 1 bindings, one a fingerprint, each with an account |
| Affinity.BoundToTheLast | conversation_affinity.py:298-408 | after any run a fingerprint is bound to the account last bound to it or, exactly when a purge since then has found the binding expired or crowded out, to nothing: never to another account |
| Affinity.GetIsLastBound | conversation_affinity.py:313-408 | after any run a lookup returns the account last bound if every purge since, its own included, found the binding young enough with fewer than max others behind it, and nothing otherwise |
| Affinity.YoungGetIsLastBound | conversation_affinity.py:313-408 | in particular while the binding is younger than the time to live and fewer than max others were seen no earlier |
| Affinity.AffinityMap.Purge | conversation_affinity.py:298-310 | popping the expired and then the oldest leaves exactly the table of PurgedIs |
| Affinity.AffinityMap.GetAffinity | conversation_affinity.py:313-336 | the answer and the table are those of GotIs, and every binding still has an account |
| Affinity.AffinityMap.BindAffinity | conversation_affinity.py:339-367 | the table is that of BoundIs, and every binding still has an account |
| Affinity.AffinityMap.ClearAffinity | conversation_affinity.py:370-385 | exactly the given fingerprint is unbound |
| Affinity.ReboundIs | conversation_affinity.py:388-408 | after a failover the fingerprint is bound to the account that worked, unless it is bound to another than the one that failed |
| Affinity.AffinityMap.RebindOnFailover | conversation_affinity.py:388-408 | a binding that has moved to another account is left alone, any other is rebound |
| PoolRecordLaws.StaysInCooldown | account_pool.py:642-670 | an account whose status stack is not empty is in cooldown at every time, through any run without a successful probe or manual clear |
| PoolRecordLaws.DurableExactly | account_pool.py:642-670 | a durable cooldown is there if and only if, after the last recovery, there came a failure that is not of the shared egress, a probe that failed on free usage or at the streak, or a timed kick |
| PoolRecordLaws.StackIsNewest | account_pool.py:169-190 | the status stack is the newest 50 of everything appended since the last recovery |
| PoolRecordLaws.RecoveredIsFree | account_pool.py:2183-2222 | one successful probe or manual clear ends any cooldown at every time |
| PoolRecordLaws.SteppedStack | account_pool.py:1049-1313 | every event but a recovery only appends to the stack, and the count follows it |
| PoolRecordLaws.ViewInCooldown | account_pool.py:495-595 | the record as schedulers see it is in cooldown exactly when the stored one is |
| PoolRecordLaws.PruneChangesNoAnswer | account_pool.py:457-519 | pruning blocks and lazy expiry change no answer of is_model_blocked, then or later |
| PoolRecordLaws.EndIsMax | account_pool.py:1382-1401 | stacked temporary blocks end at the greatest of: the start of one plus its length and all later lengths |
| PoolRecordLaws.BlockedExactlyUntilEnd | account_pool.py:598-639 | a model is blocked exactly before that end, with any prunes and blocks of other models between |
| PoolRecordEffects.ScaledIs | account_pool.py:1255-1265 | every entry of a stack adds its base length once to a cooldown |
| PoolRecordEffects.FailureExactly | account_pool.py:1113-1313 | a failure, unless it is of the shared egress, counts one more in a row, disables the account on a quota error unless it is also one of free usage, cools it for the base length times the height of the stack, and blocks the model as the error calls for and no other |
| PoolRecordEffects.ProbeFailureExactly | account_pool.py:2326-2524 | a failed probe lets the streak grow, and cools and blocks exactly on free usage or at the streak |
| PoolRecordEffects.ProbeSuccessExactly | account_pool.py:2326-2524 | a successful probe ends the cooldown, enables an account that is not out of quota if its reason allows it, and frees the model unless it is blocked for good; no other answer changes |
| PoolRecordEffects.SuccessExactly | account_pool.py:1049-1093 | a live success forgets the failures in a row and, unless the account cools, the probe streak and a temporary block of the model, and nothing else |
| PoolRecordEffects.KickExactly | account_pool.py:2241-2323 | a timed kick cools for the length times the count of kicks, any other disables |
| PoolRecordEffects.LabelIsTrue | settings_store.py:731-985 | every event that changes a record leaves a label that says the worst that is true of it, except that a success or a failure for want of free usage keeps the label of a running cooldown |
| PoolRecordEffects.ViewLabel | account_pool.py:495-594 | the label that a reader sees is never unset, and normal only if the account is not cooling |
| PoolRecordEffects.EnableExactly | account_pool.py:1316-1349 | switching on lifts the quota mark, the blocks and the clock of a cooldown, not its stack |
| PoolObject.AccountPool.ReportFailure | account_pool.py:1113-1313 | a live failure rewrites one record and leaves it cooling at every time, unless the error is one of the shared egress |
| PoolObject.AccountPool.ReportSuccess | account_pool.py:1049-1093 | a live success ends no durable cooldown |
| PoolObject.AccountPool.RecordProbe | account_pool.py:2326-2524 | a successful probe ends any cooldown; a failed one begins a durable one on free usage or at the streak |
| PoolObject.AccountPool.ApplyFreeUsage | account_pool.py:193-291 | blocks the model and appends to the stack of this account, and touches no other record |
| PoolObject.AccountPool.HandleForModel | model_health.py:195-301 | a model error blocks, kicks or disables this account and touches no other record |
| PoolObject.AccountPool.Kick | account_pool.py:2241-2323 | a timed kick leaves the account cooling at every time; a plain one disables it |
| PoolObject.AccountPool.ClearCooldown | account_pool.py:2183-2238 | a manual clear ends any cooldown |
| PoolObject.AccountPool.BlockModel | account_pool.py:1357-1421 | the time left on a block is added to the new length |
| PoolObject.AccountPool.PruneExpiredModelBlocks | account_pool.py:457-492 | the prune loop rewrites exactly its targets |
| PoolObject.AccountPool.PruneExpiredCooldowns | account_pool.py:717-754 | the prune loop rewrites exactly its targets and ends no durable cooldown |
| Ranking.SortIs | account_pool.py:1007-1020 | a stable sort by a tuple keeps the elements and puts them in order |
| Scheduling.PenaltyGrows | account_pool.py:845-858 | more failures in a row, a greater share of failures or a longer wait makes an account less healthy, and two more in a row outweigh any share |
| Acquire.EligibleIsBest | account_pool.py:799-1007 | acquire chooses among exactly the best accounts: usable, and with least against them in the order ready, cooling, blocked for a while, blocked for good, disabled; out of quota and disabled counts as none |
| Acquire.PicksBest | account_pool.py:901-1046 | in every mode the pick is one of these, and there is an error exactly when every usable account is disabled and out of quota |
| Acquire.RecoveringExactly | account_pool.py:1000-1003 | the pool is in soft recovery exactly when no account is enabled, ready, unblocked and unexpired |
| Acquire.RecoveryPicksSoonest | account_pool.py:1003-1030 | in soft recovery round robin and small pools pick an account before which no best account would be unblocked, ready or healthier; otherwise a quarter of the best, between 3 and 12, may come before the pick |
| Acquire.PicksEnabled | account_pool.py:940-1046 | a disabled account is picked exactly when no account that could be used is enabled |
| Acquire.LeastUsedIsLeast | account_pool.py:869-879 | outside soft recovery least used picks the healthiest of the best accounts, then the one with fewest requests, then the one not used for longest |
| Acquire.RoundRobinTakesEach | account_pool.py:825-841 | as many calls of acquire in a row as there are eligible accounts, with nothing else changed, pick each of them once, from the index on and around |
| Acquire.DiceMayPickAnyBest | account_pool.py:1038-1046 | among accounts that are ready, a random choice may fall on any of the best |
| Acquire.EarlierIs | account_pool.py:1003-1030 | who is ahead of an account in soft recovery |
| Acquire.DiceMayPickAnyLookedAt | account_pool.py:1003-1030 | in soft recovery a random choice may fall on any account that has few enough ahead of it |
| Acquire.RecoveryLeastUsed | account_pool.py:1003-1030 | in soft recovery the least used is picked of all accounts that have few enough ahead of them |
| Acquire.RoundRobinTakesEveryBest | account_pool.py:825-841 | these calls pick every one of the best accounts |
| Acquire.Scheduler.PickRoundRobin | account_pool.py:825-841 | takes the account at the index and leaves the index that RoundRobinTakesEach turns on |
| Acquire.Scheduler.PickLeast | account_pool.py:869-879 | the loop finds the first account whose key is least |
| Acquire.Scheduler.Acquire | account_pool.py:901-1046 | the ladder climbed in place picks one of the best accounts, or errs exactly when there is none, and only round robin moves the index |
| Sequence.SequenceIsSound | account_pool.py:1839-2180 | the chain is empty if and only if no live account could be used, or its only one was expired and its refresh came to nothing; every account in it can be used, no user comes twice, the attempts bound it, and without a preferred account everything ready comes before everything cooling in every mode |
| Sequence.SequenceFindsSomeone | account_pool.py:1839-2180 | when a refresh gives a usable token, the chain is not empty if and only if some live account is unexpired or refreshable |
| Sequence.OnlyFirstIsRefreshed | account_pool.py:2168-2180 | only the first of the chain is refreshed, only with an expired token and a key, and it is dropped only if that leaves it unusable |
| Sequence.PreferredComesFirst | account_pool.py:2122-2180 | an account that alone is meant by its key, its user or the end of its key, enabled and ready, comes first |
| Sequence.SetBackComesLast | account_pool.py:2122-2158 | an account that alone is meant but cooling, blocked, failing or expired comes last |
| Sequence.BestIsLeast | account_pool.py:2006-2043 | the rungs keep exactly those of the window that have the least against them: nothing, a block that passes, a lasting one, being disabled, being out of quota as well |
| Sequence.KeptOut | account_pool.py:2006-2043 | a disabled account is in the chain only if no account of the window is enabled, one that is blocked or blocked for good only if every enabled one is too, and a disabled one that is out of quota only if all are |
| Sequence.NobodyIsLeftOut | account_pool.py:2006-2180 | of those in the window with the least against them everyone is in the chain, by some credential of the same user, unless the chain is as long as the attempts allow |
| Sequence.LimitIs | account_pool.py:2146-2165 | the chain is as long as the attempts given, or as the policy says, and longer, by an eighth between 4 and 8, when fewer than two accounts are ready |
| Sequence.SmallPoolIsAllThere | account_pool.py:1873-1986 | a pool with at most twelve usable accounts an attempt, or 24, is in the window as a whole |
| Sequence.FreshComesFirst | account_pool.py:1858-1866 | in such a pool a user goes with an expired token only if no fresh one of the same user is as good |
| Sequence.ChainInOrder | account_pool.py:2076-2120 | without a preferred account the chain stands in the order of the mode: ready before cooling, then by health, use and last use, or in round robin by steps of health and by the end of the cooldown |
| Sequence.RoundRobinKeepsTurn | account_pool.py:2103-2120 | among ready accounts about as healthy round robin keeps the turn of the window |
| Sequence.WindowTurns | account_pool.py:1944-1970 | the round-robin window of a large pool begins at the index and goes around, and the index moves on by one |
| Sequence.WindowMeantFirst | account_pool.py:1873-1986 | unless it is drawn at random, the window has the preferred accounts in front |
| Sequence.WindowIs | account_pool.py:1873-1986 | the window has only usable live accounts and is empty only if there is none |
| Sequence.BestIs | account_pool.py:2006-2062 | the rungs within a window that is not empty always find someone, so the expansion after them never happens |
| Sequence.OrderedIs | account_pool.py:2093-2120 | ordering loses nobody and puts ready accounts first, in every mode |
| Sequence.Dedupe | account_pool.py:2064-2074 | the first credential of every user stays |
| Sequence.TryAcquireSequence | account_pool.py:1839-2180 | the passes run in place over the index that acquire uses too; no user twice, the attempts bound the chain, and nobody in it has more against it than anyone in the window |

## Left out

- FailoverOpenAiText.TextIsDelivered: leaves out think-tag mode without tools in the request, and bodies that are not streams; TextIsInOrderExactly and BodyTextExactly state those.
- Sequence.SequenceIsSound: takes a refreshed credential to be one of the same account.
- StabilizeLaws.StableIdempotent: takes it that Python's `str` never prints a number or boolean like an object or a list.
- StabilizeMeaning.StableDecides: takes the same of `str`, as do the other results there about arguments, calls and messages.
- Numbers in JSON are their source text: `1`, `1.0` and `true` are not equal, printing a float keeps its spelling, none is rounded to zero, and Python's limits on recursion and on digits of integers are absent.
- Tool names are lower-cased in ASCII only, and texts are sequences of code points without normalisation.
- Token counts, usage fields, `_output_chars`, the wall-clock gaps between tool frames and their timing marks.
- Cancellation of the generators while they yield; a client is connected throughout or gone from some line on.
- The sticky fast path of `try_acquire_sequence`, which answers from warm caches before the full path.
- The fast-account feedback and cursors kept in Redis, and the multi-worker form of `rebind_on_failover`.
- Adaptive cooldown lengths and their jitter: a failure's cooldown is a parameter.
- An event of the pool record reads the clock once, where the source reads it again for every patch.
- Fields of the pool record that no scheduling decision reads, such as reasons and last errors; whether a recorded reason lets a probe re-enable an account is a parameter.
- The expiry filter on snapshots and the flag for expired entries, which every caller in the request path sets.
- Reading the account store is one atomic step, and so is each lock section; the file mirror that answers when the primary store fails is any earlier state of it.
- Loading and flushing of the affinity file; the map starts empty, and fingerprints are given.
- Conversion of system prompts, user messages, images, tools and tool choice, which only rewrite shapes.
- Non-streaming completions, routes, authentication of clients, admin pages, metrics and quotas: plumbing without a hard invariant.
- Truthiness and types of loosely shaped upstream deltas are read into the datatypes of each module; an empty text stands for a missing one.
