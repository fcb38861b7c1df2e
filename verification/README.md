# Shirita core, verified

Dafny models of the parts of Shirita's Rust core that carry hard guarantees, with proofs of those guarantees.
`dafny verify dfyconfig.toml` checks everything.

| file | what it models |
|---|---|
| `Text.dfy`, `Protocol.dfy` | optional values, white space, string search; chat messages, Tool calls and results |
| `Utf8.dfy`, `Sse.dfy` | the incremental UTF-8 decoder, and the line splitter of the provider stream above it |
| `MathGrammar.dfy`, `MathEval.dfy` | the arithmetic language, and the recursive-descent evaluator as a class with a cursor |
| `Json.dfy`, `XmlTools.dfy` | JSON text (RFC 8259), and the XML form of Tool calls |
| `Matching.dfy`, `HtmlPatch.dfy` | non-overlapping string matches, and SEARCH/REPLACE patches |
| `Workspaces.dfy`, `Tools.dfy`, `Events.dfy`, `Transcript.dfy`, `Budgets.dfy`, `AgentLoop.dfy` | the agent run |
| `States.dfy`, `Tree.dfy`, `Storage.dfy`, `Summaries.dfy`, `Conversations.dfy`, `Snapshots.dfy`, `Fallbacks.dfy`, `Turns.dfy` | variables, the message tree and its store, the two caches derived from it, and where the first of them fails |
| `Portable.dfy`, `PortableDocs.dfy` | export and import of node trees |
| `Generations.dfy`, `Authorization.dfy` | two small concurrent protocols |
| `Assembly.dfy` | building a request and trimming it to the context window |

## How to read it

**The agent run.** `AgentRun` is the run loop as a class: its fields are the loop's variables, and ghost histories record the
requests, rounds, texts and signatures. What the provider streams, what the Tools answer, and when the stop signal arrives
is an arbitrary script. `Run` promises, for every script, that the run ends in the first round whose verdict is not to go
on, with exactly that verdict's terminal event, after exactly the events of its rounds (`Explained`); that the events form a
word of the automaton in `Events.dfy`; that every request is the context built from the earlier rounds with one workspace
snapshot laid over it (`Recorded`); that the workspace is the last text of a linear history (`Edited`); and that the
counters agree with what was asked for (`Counted`). The arm for a finish control behind another Tool's name, which the loop
marks unreachable, is proved to be so from the registry's construction.

**The message store.** A session's rows are a map by id. `Conversations.dfy` gives sending, regenerating, panel updates,
editing, deleting, switching branches and summarising as steps over one store. A long operation reads the session row in one
step, the messages in a second, a summariser the earlier summaries in a third, and each of its writes is a step of its own;
any other steps may come in between, and an insert whose parent has gone fails as the foreign key makes it fail.
`Snapshots.dfy` proves over all runs from a seeded session that stored snapshots agree with replaying a branch from its
root, and that summaries account for exactly a branch prefix, also when branch and summaries were read at different moments.
That every reply has a parent is not a hypothesis about moves: seeding establishes it and every step keeps it
(`StepKeepsAnchored`). `World.all` remembers deleted rows, so that what a slow task has read stays meaningful. `Turns.dfy`
has sending, regenerating and summarising as straight-line code on the store and proves them equal to their steps in a row.

**Protocols.** `Generations.dfy` and `Authorization.dfy` give each locked operation as a function on the value it changes. A
class with the source's fields is proved to compute these functions, the steps of the protocol are made of them, and the
invariants hold over every sequence of steps.

## What turned out not to hold everywhere

- A path without a leaf falls back to the newest message. `regenerate` of a message without a parent, and a panel update that
  reads the session row without a leaf while messages exist, therefore start from the newest message's state:
  `RegenerateCondition` and `PanelCondition` say exactly when that is right. Seeding a session puts every greeting under an
  anchor (`shirita-web/src/routes/sessions.rs:133-155`), so the first cannot happen in a session that was not imported;
  importing stores rows as the document has them (`shirita-web/src/routes/sessions.rs:465-500`), and
  `RegenerateAtRootGoesWrong` is a run from such a session. The second happens in an empty session by running beside the
  first send: `PanelGoesWrong` and `PanelRaceGoesWrong` are runs. It is the only move `SnapshotsAgree` excludes.
- Attribute values are written with JSON escapes and read with XML entities: a value that the reader has found survives
  exactly when it has no escaped characters (`AttrRoundTrip`), and `QuotedValueIsCut` gives one that is cut at its quotation
  mark. The reader finds a value by the first place that holds the attribute's key, and the id is written before the name:
  behind an id all plain names come back exactly when the id does not hold `name=` (`NamesComeBack`, `AttrsComeBack`), and
  `NameIsLost` gives a plain id and name for which something else is read.
- A patch line that ends in a carriage return loses it on the way through `lines`: `NormalIsIdentity` is the condition,
  `CarriageReturnIsLost` an input.
- A round's calls are counted after a cast to 32 bits, so 2^32 calls are free: `ChargeIsCount`, `OversizedRoundIsFree`.
- Call signatures are joined texts. `SignatureMeaning`: as long as no name holds both a colon and a line feed, they are equal
  exactly for equal lists of names and arguments. A registry accepts only such names (`RegisteredAreSeparable`), but a model
  may ask for a Tool under any name: `SignatureCollision` gives one call with the signature of two others.
- "aa" is unique in "aaa": `OverlapCountsOnce`.
- The list cap does not bound lists: a SET stores a list of any length. `OneKeepsCap` and `UpdatesKeepCap` say exactly which
  updates keep a capped list capped, and `SetPastCap` stores 1001 items.
- Merging messages keeps text but only the first message's images: `MergingKeepsImages`.
- Generation ids in a slot can go back, contrary to the file's own comment on monotonic ids: `SlotIdsCanGoBack` is a run,
  `StepGoesBack` says which step does it, and `SlotIdsNeverFall` that it is exactly the runs out of draw order.
- The authorization key separates run and call with a colon: `KeyInjective` needs colon-free run ids, `KeysMeetWhen` says for
  which two runs keys can meet at all, and `KeysCanCollide` is such a pair. A second live request under the key of a first
  loses its entry in any state: `SharedKeysLoseTheSecond` is the statement for all states, `SharedKeysBreak` a run. The code
  makes no such pair and no such run id today: a run's id is a fresh UUID (`shirita-core/src/conversation.rs:712`, `:823`),
  and a run awaits one call at a time; the broker itself does not ask for either.
- A decision that finds an entry reaches the entry's waiter exactly when that waiter still waits (`DecisionArrives`); an
  approval that arrives between a timeout and the guard's drop is reported as found (`LateApprovalIsFound`) though nothing
  ever runs for it (`LateApprovalIsLost`).
- A node whose parent is a ref that is skipped keeps a local parent id that nothing has: `ParentsResolve` is the condition,
  `ParentIsLost` an input.

## Model

| member | source | states |
|---|---|---|
| Utf8.ClassifyMeaning | shirita-core/src/model/mod.rs:116-156 | the verdict on the front of a buffer is the one of section 3.9 of the Unicode Standard: a well-formed character, the maximal subpart of an ill-formed one, or a proper prefix of at most three bytes that may still become one |
| Utf8.LossyAtError | shirita-core/src/model/mod.rs:131-152 | the loop body's step: decoding the valid part, then going on at the reported error, decodes the whole buffer |
| Utf8.LossyInvertsEncode | shirita-core/src/model/mod.rs:116-156 | well-formed UTF-8 (section 4 of RFC 3629) decodes to its own text with nothing left over |
| Utf8.LeftoverMeaning | shirita-core/src/model/mod.rs:111-117 | what is kept for the next chunk is a suffix of at most three bytes and a proper prefix of a well-formed character |
| Utf8.LossySplit | shirita-core/src/model/mod.rs:116-156 | decoding in two pieces with the leftover carried over is decoding in one |
| Utf8.ChunkIndependence | shirita-core/src/model/mod.rs:116-156 | for every cut into chunks, empty ones included, outputs and leftover equal those of one call on the whole stream |
| Utf8.Utf8Decoder.DecodeChunk | shirita-core/src/model/mod.rs:116-156 | fast path and buffered loop both give the one-pass decoding of what was pending and the chunk; the loop ends because the buffer shrinks |
| Sse.LinesSplit | shirita-core/src/model/openai.rs:157-161 | splitting text that arrives in two parts is splitting the whole, with the open line carried over |
| Sse.MoreBytes | shirita-core/src/model/openai.rs:142-187 | more bytes only add lines; a line that ended the stream stays the one that did |
| Sse.StreamLines | shirita-core/src/model/openai.rs:142-187 | the lines handled up to `[DONE]` or a failing frame are those of the whole decoded text cut at line feeds, without trailing carriage returns, whatever the network chunks |
| MathGrammar.LexInvertsPrint | shirita-core/src/tools.rs:552-565 | printing tokens with blanks between them and lexing gives the same tokens |
| MathGrammar.ParseSound | shirita-core/src/tools.rs:566-654 | a parsed tree is grammatical, within the nesting limit, and its tokens are exactly those consumed |
| MathGrammar.ParseComplete | shirita-core/src/tools.rs:566-654 | every grammatical tree within the nesting limit is what parsing its tokens gives, and parsing stops right after them |
| MathGrammar.Unambiguous | shirita-core/src/tools.rs:566-654 | tokens determine the tree: left-associative sums and products, right-associative powers, unary tighter than power |
| MathEval.EvalTextMeaning | shirita-core/src/tools.rs:545-654 | a value comes out if and only if the text is short enough and spells a tree within the nesting limit with that finite denotation and no zero divisor |
| MathEval.EvalMath | shirita-core/src/tools.rs:644-654 | the cursor-driven evaluator computes what lexing, parsing and evaluating the whole text gives, and refuses long, unread and non-finite results |
| MathEval.PrintedForm | shirita-core/src/tools.rs:545-654 | evaluating the printed form of a tree gives the tree's denotation |
| MathEval.BracketKeepsValue | shirita-core/src/tools.rs:617-634 | parentheses that a tree needs to be written down do not change its value |
| MathEval.Parser.Expr | shirita-core/src/tools.rs:566-577 | value, cursor and restored depth agree with parsing and evaluating what is ahead, and the recursion has a measure |
| MathEval.Parser.Term | shirita-core/src/tools.rs:578-599 | the same for products, with the zero divisor rejected |
| MathEval.Parser.Power | shirita-core/src/tools.rs:600-607 | the same for powers |
| MathEval.Parser.Unary | shirita-core/src/tools.rs:608-616 | the same for signs |
| MathEval.Parser.Atom | shirita-core/src/tools.rs:617-643 | the same for literals and parentheses, with the depth limit |
| Json.ReadWritten | shirita-core/src/xml_tools.rs:82-90 | what the serialiser writes, the reader reads back, for values nested less deeply than its recursion limit |
| Json.EscapeMarkupWrite | shirita-core/src/xml_tools.rs:82-90 | escaping markup after serialising is serialising with the escapes inside strings |
| Json.SafeJsonReadsBack | shirita-core/src/xml_tools.rs:82-90 | `safe_json` leaves no raw `<`, `>` or `&`, and its text still parses to the same value (section 7 of RFC 8259) |
| XmlTools.AttrRoundTrip | shirita-core/src/xml_tools.rs:64-79 | a quoted value, read from its opening quotation mark on, survives if and only if it contains no character that JSON escapes |
| XmlTools.IdReadsBack | shirita-core/src/xml_tools.rs:62-99 | the id of a rendered call is found and comes back if and only if it contains no character that JSON escapes |
| XmlTools.NameReadsBack | shirita-core/src/xml_tools.rs:62-99 | the same for the name, behind an id that as written does not hold the name's key |
| XmlTools.NamesComeBack | shirita-core/src/xml_tools.rs:62-99 | behind an id all names without escaped characters come back if and only if the id as written does not hold the name's key |
| XmlTools.AttrsComeBack | shirita-core/src/xml_tools.rs:62-99 | id and name come back, for all such names, if and only if the id has no escaped characters and does not hold the name's key |
| XmlTools.NameIsLost | shirita-core/src/xml_tools.rs:62-99 | a plain id and a plain name for which the text between the two is read as the name |
| XmlTools.QuotedValueIsCut | shirita-core/src/xml_tools.rs:62-99 | a value with a quotation mark comes back cut there, with a backslash at its end |
| XmlTools.ParseXmlToolRound | shirita-core/src/xml_tools.rs:17-60 | the scanning loop computes block by block what the recursive reading of the text gives, errors included |
| XmlTools.BlocksReadBack | shirita-core/src/xml_tools.rs:17-60 | rendered calls behind marker-free text are read back one for one |
| XmlTools.XmlRoundTrip | shirita-core/src/agent_loop.rs:440-453 | working text and rendered calls read back as exactly those calls and the trimmed working text |
| Matching.SingleMatch | shirita-core/src/html_patch.rs:143-147 | there is one non-overlapping match exactly when some position matches, nothing matches before it, and nothing at or after its end |
| Matching.OverlapCountsOnce | shirita-core/src/agent_loop.rs:322-331 | "aa" counts as unique in "aaa" |
| Matching.ReplaceSingleMeaning | shirita-core/src/html_patch.rs:138-152 | a replacement is accepted exactly when the match is unique, and changes only the matched stretch |
| HtmlPatch.ParsePatches | shirita-core/src/html_patch.rs:84-126 | the nested line loops collect exactly the complete blocks of the text |
| HtmlPatch.PatchesReadBack | shirita-core/src/html_patch.rs:84-126 | printed blocks with marker-free prose around them parse back to the patches' normal forms, in order, with or without a final line feed |
| HtmlPatch.NormalIsIdentity | shirita-core/src/html_patch.rs:84-126 | a patch comes back unchanged if and only if none of its lines ends in a carriage return |
| HtmlPatch.FinalLineFeed | shirita-core/src/html_patch.rs:84-126 | a final line feed makes no difference to the blocks of any text |
| HtmlPatch.CarriageReturnIsLost | shirita-core/src/html_patch.rs:84-126 | a printed patch that comes back without its carriage return |
| HtmlPatch.ApplyPatches | shirita-core/src/html_patch.rs:131-153 | patches apply in order as a fold of unique replacements, or not at all; no patches is a failure |
| HtmlPatch.Reconstruct | shirita-core/src/html_patch.rs:158-165 | a reply is rebuilt from its own blocks and a base, when it has both |
| Workspaces.ApplyOpMeaning | shirita-core/src/agent_loop.rs:321-336 | one operation is refused when nothing or more than one thing matches or the text would grow past the ceiling, and else replaces the one match |
| Workspaces.ApplyPatch | shirita-core/src/agent_loop.rs:311-346 | a patch is refused against an old revision; all its operations apply or the workspace stays as it was |
| Workspaces.CommitFinish | shirita-core/src/agent_loop.rs:348-366 | what a finish call commits, and that a refused one changes nothing |
| Workspaces.EnginesAgree | shirita-core/src/html_patch.rs:131-153 | below the ceiling and with non-empty searches both patch engines accept the same patches and produce the same text |
| Workspaces.HistoryMeaning | shirita-core/src/agent_loop.rs:299-366 | the revision counts the accepted edits, the text is the one with that number, and a patch was accepted only against the text it named |
| Workspaces.HistoryGrows | shirita-core/src/agent_loop.rs:299-366 | each accepted edit appends one text to the history |
| Tools.ReadPatchOps | shirita-core/src/tools.rs:308-355 | the validating loop accepts exactly well-formed operation lists and adds up both byte totals |
| Tools.FinishSound | shirita-core/src/tools.rs:264-284 | a finish control carries text that is not blank and within the ceiling, or none |
| Tools.PatchSound | shirita-core/src/tools.rs:308-355 | a patch control carries at least one and not too many operations, each with a non-empty search |
| Tools.RegistriesAreWellBuilt | shirita-core/src/tools.rs:156-204 | no Tool registered later can take a control name |
| Tools.ExecuteSound | shirita-core/src/tools.rs:126-153 | whatever is called with whatever arguments, the result answers the call, and only control Tools yield their controls, within their bounds |
| Events.TerminalIsLast | shirita-core/src/agent_loop.rs:102-296 | an accepted event sequence has at most one terminal event and nothing behind it |
| Events.StartedThenFinished | shirita-core/src/agent_loop.rs:166-263 | a started Tool is followed at once by its own result, unless the run stops |
| Events.FinishedWasStarted | shirita-core/src/agent_loop.rs:166-263 | every result answers the call started right before it |
| Events.RoundsAreConsecutive | shirita-core/src/agent_loop.rs:102-105 | rounds are numbered 1, 2, 3 and so on |
| Events.NothingAfterFinish | shirita-core/src/agent_loop.rs:206-223 | nothing starts behind an answered finish call in the same round |
| Events.AnnouncedAtOnce | shirita-core/src/agent_loop.rs:236-255 | an accepted edit is announced at once with the next revision |
| Transcript.PairedMeaning | shirita-core/src/agent_loop.rs:439-477 | in a transcript that the pairing scan accepts, each assistant message's calls are answered right behind it, one for one and in order, and no result stands elsewhere |
| Transcript.Retain | shirita-core/src/agent_loop.rs:428-438 | the first loop splits the turns into kept pairs and receipts |
| Transcript.RenderContent | shirita-core/src/agent_loop.rs:440-453 | an XML assistant message is the working text and one block per kept call |
| Transcript.AppendRound | shirita-core/src/agent_loop.rs:420-492 | a round is appended as assistant message, results, receipts and the unfinished instruction, in this order |
| Transcript.TurnSurvives | shirita-core/src/agent_loop.rs:428-438 | each executed call survives exactly once, at its own place among the kept pairs or as a receipt |
| Transcript.RoundBlockPaired | shirita-core/src/agent_loop.rs:420-492 | an appended round pairs up, also without its last instruction |
| Transcript.InsertKeepsPairs | shirita-core/src/agent_loop.rs:383-405 | the workspace snapshot splits no pair |
| Budgets.ChargeIsCount | shirita-core/src/agent_loop.rs:149-150 | the saturating 32-bit counter is the number of calls if and only if that number fits |
| Budgets.OversizedRoundIsFree | shirita-core/src/agent_loop.rs:149 | a round of 2^32 calls is charged nothing |
| Budgets.SignatureEmpty | shirita-core/src/agent_loop.rs:53-65 | a signature is empty exactly when there are no calls |
| Budgets.StreakMeaning | shirita-core/src/agent_loop.rs:155-161 | the repeat counter is the length of the longest run of equal non-empty signatures at the end |
| Json.NoValueBehindColon | shirita-core/src/agent_loop.rs:53-65 | the compact text of a value never ends in a colon and the compact text of a value |
| Budgets.SignatureMeaning | shirita-core/src/agent_loop.rs:53-65 | between lists in which no name holds both a colon and a line feed, with readable JSON as arguments, signatures are equal if and only if the lists of names and arguments are |
| Budgets.RegisteredAreSeparable | shirita-core/src/tools.rs:197-204 | a name that a registry accepts holds neither a colon nor a line feed |
| Budgets.SignatureCollision | shirita-core/src/agent_loop.rs:53-65 | one call whose name holds a colon and a line feed has the signature of two calls |
| AgentLoop.AgentRun.Run | shirita-core/src/agent_loop.rs:69-297 | for every script: one terminal event, last; the ending round, its event and all earlier events are those the script determines; requests, workspace history and counters as promised; a finished response is visible, within the ceiling and the final workspace text |
| AgentLoop.AgentRun.Prepare | shirita-core/src/agent_loop.rs:79-101 | transport choice, refusal of native calling, and the harness prompt before the last user turn |
| AgentLoop.AgentRun.RunRound | shirita-core/src/agent_loop.rs:102-294 | a round ends the run exactly as its verdict says, and otherwise leaves context, workspace and counters as its script determines |
| AgentLoop.AgentRun.BeginRound | shirita-core/src/agent_loop.rs:104-109 | the request is the context with exactly one snapshot, which the context itself never keeps |
| AgentLoop.AgentRun.StreamRound | shirita-core/src/agent_loop.rs:114-143 | the stream ends the run exactly at its first stop, error or overlong text, or when the XML cannot be read; else text and calls are the gathered ones |
| AgentLoop.AgentRun.CheckIds | shirita-core/src/agent_loop.rs:144-148 | accepted exactly when all ids are non-blank and distinct |
| AgentLoop.AgentRun.Admit | shirita-core/src/agent_loop.rs:149-161 | the call limit fails first; the repeat limit fails exactly when the streak is exceeded with the call budget intact; no Tool has started then |
| AgentLoop.AgentRun.ExecuteCall | shirita-core/src/agent_loop.rs:166-223 | one call: its events, its effect on the workspace, and how the loop goes on |
| AgentLoop.AgentRun.ApplyControl | shirita-core/src/agent_loop.rs:224-262 | what a control does to workspace, result and events; a finish control cannot occur here |
| AgentLoop.AgentRun.Replace | shirita-core/src/agent_loop.rs:299-309 | a replacement becomes the next text of the history and is announced |
| AgentLoop.AgentRun.Patch | shirita-core/src/agent_loop.rs:311-346 | an accepted patch becomes the next text; a refused one leaves text and revision as they were |
| AgentLoop.AgentRun.ExecuteCalls | shirita-core/src/agent_loop.rs:163-263 | the ordered call list with its fence: results, workspace, pending finish, stop and events are those of the list run call by call |
| AgentLoop.AgentRun.Commit | shirita-core/src/agent_loop.rs:264-291 | a pending finish completes the run exactly when it has its own text or the workspace is not blank |
| AgentLoop.AgentRun.Append | shirita-core/src/agent_loop.rs:293 | the context grows by exactly this round's block |
| AgentLoop.TallyGrows | shirita-core/src/agent_loop.rs:149-161 | starts stay within the call limit, and no executed round is beyond the repeat limit |
| AgentLoop.BlocksPaired | shirita-core/src/agent_loop.rs:420-492 | the context of any number of rounds pairs up |
| AgentLoop.RequestsPairUp | shirita-core/src/agent_loop.rs:108-109 | in every request of every run calls are answered right behind them and the snapshot splits no pair |
| States.MergeDecls | shirita-core/src/state.rs:202-213 | later declarations win in place, new names go to the end, names stay distinct |
| States.EffectiveState | shirita-core/src/state.rs:106-119 | initial values under the session's seed under the branch's snapshot |
| States.ApplyUpdatesLoop | shirita-core/src/state.rs:298-350 | the loop is the fold of single updates |
| States.ApplyUpdatesMeaning | shirita-core/src/state.rs:298-350 | no key is removed; only declared, unreserved keys that an update names change; what they then hold has the declared type |
| States.OneKeepsCap | shirita-core/src/state.rs:276-335 | an update leaves a capped list within the cap if and only if it is not a SET of that list to a longer one |
| States.UpdatesKeepCap | shirita-core/src/state.rs:298-350 | a list of updates keeps it capped throughout if and only if none of them is such a SET |
| States.SetPastCap | shirita-core/src/state.rs:276-296 | a SET that stores 1001 items |
| States.ReplaySettled | shirita-core/src/conversation.rs:137-154 | a replayed state carries every declared variable and the current identity |
| States.FoldContinues | shirita-core/src/conversation.rs:738-743 | folding updates into what the parent stored continues the replay by one step, exactly |
| States.UpdatesCommute | shirita-core/src/state.rs:298-350 | updates and reserved identity keys do not interfere |
| States.PanelContinues | shirita-web/src/routes/variables.rs:60-88 | a panel's fold, which leaves out the identity, still stands for one more step of the replay |
| Tree.PathMeaning | shirita-core/src/tree.rs:9-22 | the walk to the root is the one chain of parent links that ends in the message |
| Tree.PathPrefix | shirita-core/src/tree.rs:15-21 | every beginning of a branch is the branch of its last message |
| Tree.PathAgrees | shirita-core/src/tree.rs:15-21 | a branch depends on nothing but parent links |
| Tree.ActivePath | shirita-core/src/tree.rs:9-22 | terminates on every forest; the branch of the active leaf, or of the newest message when there is no such leaf |
| Tree.DeepestLeaf | shirita-core/src/tree.rs:26-38 | terminates; the result is childless, its branch passes through the starting message and takes the newest child at each level below it |
| Tree.UnderIsLeast | shirita-core/src/storage/sqlite.rs:595-603 | being below the root is the least relation closed under children |
| Tree.Subtree | shirita-core/src/storage/sqlite.rs:587-603 | the worklist ends with exactly the reflexive-transitive descendants |
| Tree.WithoutMeaning | shirita-core/src/storage/sqlite.rs:605-640 | what a delete leaves is a parent-closed forest with unchanged branches |
| Storage.DeleteMeaning | shirita-core/src/storage/sqlite.rs:566-641 | exactly the subtree goes; a surviving leaf stays the active one, and any other is replaced by the root's parent, which survives |
| Storage.Store.CreateMessage | shirita-core/src/storage/sqlite.rs:451-480 | inserted exactly when the id is new and the parent is stored |
| Storage.Store.CreateMessageAndAdvanceLeaf | shirita-core/src/storage/sqlite.rs:503-523 | both writes happen, or neither |
| Storage.Store.UpdateMessage | shirita-core/src/storage/sqlite.rs:550-564 | only the written columns of the one row change |
| Storage.Store.DeleteMessageSubtree | shirita-core/src/storage/sqlite.rs:566-641 | the store becomes the deleted one, and the new leaf is reported; an unknown id changes nothing |
| Storage.Store.SetSessionActiveLeaf | shirita-core/src/storage/sqlite.rs:643-650 | only the active leaf changes |
| Storage.Store.SelectBranch | shirita-web/src/routes/messages.rs:84-111 | the active branch becomes one through the chosen message that cannot be continued |
| Summaries.ApplicableMeaning | shirita-core/src/conversation.rs:184-195 | the chosen summary has its cutoff on the branch, and no other one reaches further |
| Summaries.ApplicableSummary | shirita-core/src/conversation.rs:184-195 | the selection loop computes that choice |
| Summaries.ReadDigest | shirita-core/src/summarize.rs:66-110 | the summariser's reading step, with the loop that writes down what is folded in |
| Summaries.DigestIsExact | shirita-core/src/summarize.rs:21-29 | something is folded exactly when the branch reaches further than the last cutoff and the recent messages; the result accounts for exactly root to cutoff; the cutoff strictly advances |
| Summaries.NoGapNoOverlap | shirita-core/src/conversation.rs:679-690 | the applicable summary and the rest of the branch give each position once |
| Summaries.ReadContext | shirita-core/src/conversation.rs:679-690 | a request shows that summary and the rest without hidden messages |
| Conversations.ReadSend | shirita-core/src/conversation.rs:653-672 | what sending reads: the parent, and the branch state with the identity |
| Conversations.ReadRegenerate | shirita-core/src/conversation.rs:782-811 | what regenerating reads; anything but an assistant message is refused |
| Conversations.ReadPanel | shirita-web/src/routes/variables.rs:60-88 | what a panel update reads of the messages, with the leaf it read before, and folds |
| Conversations.ReadFold | shirita-core/src/summarize.rs:56-97 | the branch a summariser reads, from the leaf it read before |
| Conversations.StepKeepsSound | shirita-core/src/conversation.rs:640-870 | every step of every operation keeps the store a parent-closed forest and all summaries, stored or under way, exact |
| Snapshots.StepKeepsTruthful | shirita-core/src/conversation.rs:640-870 | every step keeps all snapshots, stored or under way, in agreement with replay, unless a regenerate or a panel update falls back to a newest message that has left the initial state |
| Snapshots.StepKeepsAnchored | shirita-web/src/routes/sessions.rs:133-155 | what seeding establishes, every step of every operation keeps: each assistant message has a parent, and so has each reply under way |
| Snapshots.SnapshotsAgree | shirita-core/src/conversation.rs:738-743 | in every reachable state each snapshot agrees with replaying the updates along its branch from the root; one that a user turn or reply stored is that replay |
| Snapshots.SummariesAgree | shirita-core/src/summarize.rs:56-160 | in every reachable state and interleaving, summaries with a stored cutoff cover exactly the branch to it, and every branch, with summaries read then or later, is shown without gap or overlap |
| Fallbacks.RegenerateCondition | shirita-core/src/conversation.rs:787-811 | regenerating starts from the state above the target if and only if the target has a parent or the newest message carries the initial state |
| Fallbacks.PanelCondition | shirita-web/src/routes/variables.rs:58-88 | every panel update folds into the state above it if and only if it read a leaf, or no message, or the newest message carries the initial state |
| Fallbacks.PanelGoesWrong | shirita-web/src/routes/variables.rs:58-88 | a run from an empty session in which a panel update, between the first reply and its activation, stores a root with another branch's state |
| Fallbacks.PanelRaceGoesWrong | shirita-web/src/routes/variables.rs:58-68 | the same with a whole send between the panel update's two reads |
| Fallbacks.RegenerateAtRootGoesWrong | shirita-core/src/conversation.rs:787-811 | a run from an imported session, whose snapshots are truthful, in which regenerating a parentless reply stores another message's state |
| Turns.SendRun | shirita-core/src/conversation.rs:653-750 | a send that nothing interrupts stores both messages under the active branch and activates the reply |
| Turns.SendExtendsBranch | shirita-core/src/conversation.rs:653-750 | it makes the active branch longer by exactly the user's message and the reply |
| Turns.SendMessage | shirita-core/src/conversation.rs:653-750 | the straight-line writes to the store are the five steps of a send |
| Turns.RegenerateRun | shirita-core/src/conversation.rs:782-863 | an uninterrupted regenerate hides the target and stores a sibling |
| Turns.RegenerateReplacesLeaf | shirita-core/src/conversation.rs:782-863 | the active branch becomes the target's with the new reply in its place |
| Turns.RegenerateReply | shirita-core/src/conversation.rs:782-863 | the straight-line writes are the five steps, and anything but an assistant message is refused without a write |
| Turns.SummariseRun | shirita-core/src/summarize.rs:56-160 | the four steps of an uninterrupted summariser store the next summary, if there is one |
| Turns.SummaryReplacesAllButRecent | shirita-core/src/summarize.rs:56-160 | something is stored exactly when more than the recent messages is uncovered; then the active branch shows as the new summary and exactly the recent messages |
| Turns.Summarise | shirita-core/src/summarize.rs:56-160 | the straight-line reads and the write are those steps |
| Portable.IsClear | shirita-core/src/portable.rs:33-51 | the guarded ancestor walk terminates and answers whether the whole chain ends and is enabled |
| Portable.FilterEnabled | shirita-core/src/portable.rs:29-54 | keeps exactly the nodes whose whole ancestor chain is enabled and acyclic, in order |
| Portable.KeptMeaning | shirita-core/src/portable.rs:29-54 | a node is kept if and only if it is there and clear |
| Portable.KeptHasItsParents | shirita-core/src/portable.rs:29-54 | the kept nodes are closed under parents |
| Portable.CyclesAreDropped | shirita-core/src/portable.rs:41-45 | no node on a parent cycle is kept |
| PortableDocs.InlineSubtree | shirita-core/src/portable.rs:57-105 | the loop with its two maps writes the nodes and the definitions in order of first use, skipping refs without a definition |
| PortableDocs.NodeReadsBack | shirita-core/src/portable.rs:203-217 | a written node reads back in all its fields |
| PortableDocs.PackReadsBack | shirita-core/src/portable.rs:316-342 | a pack document reads back with identity, meta, nodes and definitions |
| PortableDocs.TemplateReadsBack | shirita-core/src/portable.rs:316-342 | the same for templates |
| PortableDocs.DefinitionReadsBack | shirita-core/src/portable.rs:15-26 | a single definition reads back with everything but its id |
| PortableDocs.ParentsAgree | shirita-core/src/portable.rs:61-62 | local ids are distinct, and a local parent is the parent's local id |
| PortableDocs.SharingAgrees | shirita-core/src/portable.rs:63-84 | two refs share a local definition if and only if they share a definition |
| PortableDocs.RefResolves | shirita-core/src/portable.rs:63-84 | a ref's local definition is in the document with its content |
| PortableDocs.ParentsResolve | shirita-core/src/portable.rs:85-104 | every local parent is in the document if and only if no exported node hangs below a skipped ref |
| PortableDocs.ParentIsLost | shirita-core/src/portable.rs:63-104 | a folder below a ref without a definition is exported with a local parent that is not in the document |
| PortableDocs.ExportKeepsTheTree | shirita-core/src/portable.rs:57-147 | with all definitions there, export is an isomorphism of trees with the same sharing |
| PortableDocs.PackRoundTrip | shirita-core/src/portable.rs:129-147 | exporting a pack and reading it gives the pack and the same tree |
| PortableDocs.TemplateRoundTrip | shirita-core/src/portable.rs:110-124 | exporting a template and reading it gives the enabled part of the tree |
| Generations.Table.Insert | shirita-web/src/generations.rs:40-49 | taking the slot aborts and stops whoever held it |
| Generations.Table.Finish | shirita-web/src/generations.rs:53-58 | a slot is given up only by its own occupant |
| Generations.StepKeepsInv | shirita-web/src/generations.rs:38-80 | after every step the slots hold exactly the live generations, each in its own session's slot |
| Generations.AtMostOneLive | shirita-web/src/generations.rs:38-80 | in every interleaving a session has at most one generation that is neither finished nor aborted, and it is in the slot |
| Generations.SlotsAreLive | shirita-web/src/generations.rs:38-80 | a slot never holds an aborted or finished generation |
| Generations.StaleFinishIsHarmless | shirita-web/src/generations.rs:53-58 | a stale finish never evicts another generation |
| Generations.StepGoesBack | shirita-web/src/generations.rs:38-49 | the id in a slot falls in a step if and only if a generation inserts itself over one that drew later |
| Generations.SlotIdsNeverFall | shirita-web/src/generations.rs:38-49 | in a run the ids in a session's slot never fall if and only if its generations insert themselves in the order they drew |
| Generations.SlotIdsCanGoBack | shirita-web/src/generations.rs:38-41 | ids are drawn before the lock is taken, so they are not monotonic in a slot |
| Authorization.KeyInjective | shirita-core/src/mcp/authorization.rs:82-84 | run and call can be read off a key when run ids have no colon |
| Authorization.KeysMeetWhen | shirita-core/src/mcp/authorization.rs:82-84 | two runs have calls with one key if and only if one run's id goes on with a colon where the other's ends |
| Authorization.KeysCanCollide | shirita-core/src/mcp/authorization.rs:82-84 | such a pair |
| Authorization.StepKeepsInv | shirita-core/src/mcp/authorization.rs:66-141 | with distinct live keys, every step keeps entries with live waiters, each decided once, and approvals with their own requests |
| Authorization.OneShot | shirita-core/src/mcp/mod.rs:354-385 | in every interleaving no registration is decided twice, and a Tool has run only after an approval of its own key, which names its own run and call if and only if the approver's run id has no colon |
| Authorization.NothingOutlivesItsWaiter | shirita-core/src/mcp/authorization.rs:66-76 | a dropped guard leaves no entry of its waiter and takes no other |
| Authorization.DecisionArrives | shirita-core/src/mcp/authorization.rs:127-141 | a decision that finds an entry is recorded for it, and reaches its waiter if and only if that waiter still waits |
| Authorization.LateApprovalIsFound | shirita-core/src/mcp/authorization.rs:117-141 | after a request and its timeout the entry is still there, an approval takes it and is recorded, and the Tool runs in no continuation |
| Authorization.LateApprovalIsLost | shirita-core/src/mcp/authorization.rs:117-122 | the Tool of a waiter that has timed out never runs, whatever follows |
| Authorization.SharedKeysLoseTheSecond | shirita-core/src/mcp/authorization.rs:66-76 | from every state in order: a request under the key of a live one loses its entry when the first is cancelled and leaves; it still waits, no decision finds it, and its Tool never runs |
| Authorization.SharedKeysBreak | shirita-core/src/mcp/authorization.rs:66-76 | the same in a run of four moves |
| Authorization.AuthorizationBroker.RequestAndWait | shirita-core/src/mcp/authorization.rs:90-123 | a wait that nothing else comes between gives the answer, or expiry, as its steps in a row do, and leaves no entry |
| Assembly.GroupsAreMaximal | shirita-core/src/assembly.rs:763-773 | the runs that are merged are the longest same-role runs, in order |
| Assembly.OneMaximalCut | shirita-core/src/assembly.rs:763-773 | there is only one such cut |
| Assembly.MergingKeepsText | shirita-core/src/assembly.rs:763-773 | merging conserves all text in order |
| Assembly.MergingKeepsImages | shirita-core/src/assembly.rs:763-773 | merging conserves all images if and only if in every run only the first message has any |
| Assembly.BuildChatMessages | shirita-core/src/assembly.rs:719-783 | the loops build the merged request with the current turn held out and put last |
| Assembly.RequestMeaning | shirita-core/src/assembly.rs:719-783 | the request ends with exactly the user turn, and before it stand the merged runs of everything else, with its text |
| Assembly.TrimHistory | shirita-core/src/budget.rs:20-50 | a leading system message and a suffix stay; the fewest oldest messages that make the rest fit are dropped, or all unprotected ones; their number is reported; the running sum never underflows |
| Assembly.AssembleAndTrim | shirita-core/src/conversation.rs:391-392 | the built request, without the fewest oldest unprotected messages that make it fit, or without all of them; it still ends with exactly the user turn |

## Left out

- Tools.ExecuteSound: capability Tools are an arbitrary outcome; random Tools and what MCP servers do are not modelled.
- Sse.StreamLines: which frames other than `[DONE]` end the stream is an arbitrary predicate on the lines so far; the
  content of frames and the accumulation of native Tool calls are not modelled.
- MathEval.EvalTextMeaning: numbers are an abstract type with a zero test and a finiteness test; floating-point rounding and
  the reading of a literal's value are not modelled.
- States.ApplyUpdatesMeaning: numbers are reals, so a sum that overflows a float is not modelled; reading numbers and JSON
  lists from text are parameters, and finding the update tags in a reply (regular expressions) is not modelled.
- States.FoldContinues: schema, seed and identity are fixed over a run.
- Json.ReadWritten: object members are kept in text order without merging repeated names, numbers are kept as their text.
- XmlTools.XmlRoundTrip: the prompt that describes the protocol is not modelled.
- Workspaces.EnginesAgree: the card engine has no size ceiling and allows an empty search, so the agreement is stated below
  the ceiling and for non-empty searches.
- Summaries.DigestIsExact: the prose of a summary is represented by the positions it was written from; the token threshold
  and the settings only decide whether a summariser runs, which is arbitrary here.
- Conversations.StepKeepsSound: one session; rows are listed in any order; each store call is one atomic step. Reading
  summaries for a prompt changes nothing and is no step; `SummariesAgree` speaks of any moment for it. Editing a message's
  text, copying, forking and importing sessions are not modelled; `Fallbacks.dfy` has a run that starts where an import ends.
- Snapshots.SnapshotsAgree: starts from a session seeded with at most greetings that carry no snapshot.
- PortableDocs.PackReadsBack: an identity that is neither an object nor absent reads as the empty one; asset references and
  their rewriting are not modelled.
- Generations.StepKeepsInv: the id counter does not wrap at 2^64.
- Authorization.StepKeepsInv: a panic while the lock is held, which poisons it, is not modelled; previews and redaction are
  not modelled.
- Assembly.TrimHistory: the tokenizer is any function from text to numbers; sums do not overflow.
- Assembling prompt segments from nodes, world-info activation, regular-expression rules, variable rendering and comment
  stripping: they rest on pattern libraries.
- SQL, transactions, migrations, connection pools; HTTP, stdio and MCP transports; authentication; provider request bodies.
- The timeouts of a Tool call are an answer of the script, and the description of Tools to the provider is one text.
- The user interface, the desktop shell and the routing layer.
