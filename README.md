# LingChat core, modelled in Dafny

This project models the run-time core of LingChat, a chat and visual-novel engine in which
language-model characters ("roles") talk with a user. It covers five parts:

- **The stream segmenter** (`StreamProducer.run`). It consumes the model's reply chunk by chunk
  and cuts it into sentences at fullwidth bracket tags such as `【1】`. It puts each sentence on a
  queue as `(text, index, is_final)` and creates one event per index. At the end it returns the
  whole reply.
- **The persistent memory system** (`PersistentMemorySystem`). Per role it keeps a memory bank of
  four sections and a pointer into the global dialogue log. Once enough lines visible to the
  role have piled up past the pointer, it launches one background consolidation. The
  consolidation's commit merges the model's four answers and advances the pointer.
- **The role manager** (`GameRoleManager`). It is a cache of live roles by id that creates roles
  lazily. It synchronises the roles a stretch of dialogue involves: their display names and
  their rebuilt short context.
- **The shared records** (`GameRole` with its equality and hash rules, `Player`,
  `ScriptStatus`).
- **The front end's achievement pop-up store.** It is a FIFO queue with one visible achievement,
  a hide timer and a fade timer.

The files:

| file | module | contents |
|---|---|---|
| `PyBuiltins.dfy` | `PyBuiltins` | the Python built-ins the core relies on: `str.strip`, `str.find`, `"\n".join`, negative-start slicing, `int(str)` and `str(int)` |
| `GameTypes.dfy` | `GameTypes` | dialogue lines, the memory-bank record, the `GameRole` class with `__eq__`/`__hash__`, `Player`, `ScriptStatus` |
| `StreamSegmenter.dfy` | `StreamSegmenter` | the segmenter. Functions `Step`/`Scan`/`Feed`/`Segment` specify it; the class `StreamProducer` holds the queue and the event map and runs it loop by loop, proved equal to `Segment` |
| `PersistentMemory.dfy` | `PersistentMemory` | the memory texts, the transcript, the trigger (`Check`) and the commit (`Pipeline`) as functions on a state value. The class `PersistentMemorySystem` updates the role's bank in place and is proved against them |
| `RoleManager.dfy` | `RoleManager` | source-line selection, involved ids and latest display name as functions, with lemmas stating what each means. The class `GameRoleManager` proves its imperative loops against them |
| `Achievement.dfy` | `Achievement` | the store's steps as functions on a state value and a replay of any sequence of events, with a FIFO theorem. The class `AchievementStore` mirrors the pinia actions |

The language model, the event loop, the clock, `str.isdigit`, `Function.fix_ai_generated_text`
and `MemoryBuilder` are parameters of the model. So are the environment variables: the model
takes them as a map.

## Model

| member | source | states |
|---|---|---|
| `StreamSegmenter.Segment` | ling_chat/core/ai_service/message_system/stream_producer.py:21-153 | what `run` queues and returns for a stream. It raises exactly when the stream raises, and queues every completed sentence plus at most one final item. `IndicesAreContiguous`, `FinalItemIsLastAndConditional` and `ResponseIsConcatenation` state the rest |
| `StreamSegmenter.StreamProducer.constructor` | ling_chat/core/ai_service/message_system/stream_producer.py:13-19 | the producer holds the given stream, queue and event map |
| `StreamSegmenter.StreamProducer.Run` | ling_chat/core/ai_service/message_system/stream_producer.py:21-153 | the queue gains exactly the items of `Segment(stream)`, in order. The event map gains one unset event for each index `0 .. n-1` just queued, replacing any event already under that index. The result is the reply, or the stream's exception passed on |
| `StreamSegmenter.StreamProducer.ScanBuffer` | ling_chat/core/ai_service/message_system/stream_producer.py:59-119 | the `while "【" in buffer` loop over one buffer. It completes the sentences of `Scan` and leaves `Scan`'s state. It queues them as non-final items under consecutive indices from the given one, creates their events, and returns the next index |
| `StreamSegmenter.StreamProducer.StepBuffer` | ling_chat/core/ai_service/message_system/stream_producer.py:60-119 | one turn of the loop body is `Step`: an emitted sentence with the rest of the buffer, or a stop with the new sentence and buffer |
| `StreamSegmenter.StreamProducer.CloseBranch` | ling_chat/core/ai_service/message_system/stream_producer.py:61-73 | the branch for an open sentence with a buffered `】` computes `CloseSentence` |
| `StreamSegmenter.StreamProducer.OpenBranch` | ling_chat/core/ai_service/message_system/stream_producer.py:85-106 | the branch that starts a sentence at the first `【` computes `OpenSentence`. `complete` is true exactly when the tag is closed and numeric |
| `StreamSegmenter.StreamProducer.TakeThrough` | ling_chat/core/ai_service/message_system/stream_producer.py:62-73 | cutting after position `k` and then up to the next `【` moves exactly `buffer[..ProseEnd]` into the sentence |
| `StreamSegmenter.StreamProducer.TakeProse` | ling_chat/core/ai_service/message_system/stream_producer.py:99-106 | the `find("【")` cut moves the prose up to the next `【` (or all of the buffer) into the sentence |
| `StreamSegmenter.StreamProducer.CountDigits` | ling_chat/core/ai_service/message_system/stream_producer.py:91-93 | the digit-counting loop returns the end of the leading digit run |
| `StreamSegmenter.StreamProducer.Publish` | ling_chat/core/ai_service/message_system/stream_producer.py:76-79 | publishing one sentence appends its item to the queue and stores an unset event under its index |
| `StreamSegmenter.ProseEnd` | ling_chat/core/ai_service/message_system/stream_producer.py:67-73 | the prose end lies in the buffer, at a `【` or at the buffer's end |
| `StreamSegmenter.ProseHasNoOpen` | ling_chat/core/ai_service/message_system/stream_producer.py:67-73 | the prose before that end holds no `【` |
| `StreamSegmenter.DigitsEnd` | ling_chat/core/ai_service/message_system/stream_producer.py:91-93 | the run end lies in the buffer, and the character there (if any) is not a digit |
| `StreamSegmenter.DigitsEndAreDigits` | ling_chat/core/ai_service/message_system/stream_producer.py:91-93 | every character of the run is a digit |
| `StreamSegmenter.DigitsEndUnique` | ling_chat/core/ai_service/message_system/stream_producer.py:91-93 | any end that bounds a digit run and stops at a non-digit is the computed one |
| `StreamSegmenter.CloseSentence` | ling_chat/core/ai_service/message_system/stream_producer.py:61-83 | the close branch always emits: the emitted text plus the new buffer is the old sentence plus the old buffer. The buffer shrinks and then is empty or starts at a `【` |
| `StreamSegmenter.OpenSentence` | ling_chat/core/ai_service/message_system/stream_producer.py:84-119 | the open branch emits exactly when the first `【` opens a closed numeric tag. It then emits a prefix of the buffer and keeps the rest, which is empty or starts at `【` |
| `StreamSegmenter.Step` | ling_chat/core/ai_service/message_system/stream_producer.py:59-119 | an emitting turn clears the sentence and strictly shortens the buffer, so the scan terminates |
| `StreamSegmenter.GatesDomain` | ling_chat/core/ai_service/message_system/stream_producer.py:76-79 | the events created hold exactly the indices `from .. from+n-1`, all unset |
| `StreamSegmenter.IndicesAreContiguous` | ling_chat/core/ai_service/message_system/stream_producer.py:76-146 | the k-th queued item has index k: no gap, no repeat |
| `StreamSegmenter.FinalItemIsLastAndConditional` | ling_chat/core/ai_service/message_system/stream_producer.py:130-146 | an item is final exactly when it is the last one and the stream ended normally with a non-empty remainder. Its text is `fix(sentence + buffer)` |
| `StreamSegmenter.ResponseIsConcatenation` | ling_chat/core/ai_service/message_system/stream_producer.py:40-153 | the run raises exactly when the stream raises. Otherwise it returns the concatenation of all chunks, passed through `fix` exactly when a final item was queued |
| `StreamSegmenter.WaitsExactlyOnIncompleteTag` | ling_chat/core/ai_service/message_system/stream_producer.py:84-119 | the loop stops without emitting exactly when no sentence can be closed and the first tag is not a closed numeric one. It then keeps the text through that `【` as the sentence |
| `StreamSegmenter.NumericEmissionShape` | ling_chat/core/ai_service/message_system/stream_producer.py:86-116 | a numeric-tag emission is a prefix `pre【digits】prose` of the buffer (no `【` in `pre` or `prose`). The buffer then holds the rest |
| `StreamSegmenter.NumericTagEmits` | ling_chat/core/ai_service/message_system/stream_producer.py:86-116 | conversely, a buffer whose first `【` is followed by digits and `】` emits everything up to the next `【` |
| `StreamSegmenter.ClosingEmissionShape` | ling_chat/core/ai_service/message_system/stream_producer.py:61-83 | with a sentence open, the item is the sentence, the buffer through its first `】`, and then prose without `【`. No text is lost |
| `StreamSegmenter.StepConservesText` | ling_chat/core/ai_service/message_system/stream_producer.py:59-116 | with no pending sentence (or a `】` to close it), one turn loses no text |
| `StreamSegmenter.ScanConservesText` | ling_chat/core/ai_service/message_system/stream_producer.py:59-119 | under the same condition, the sentences completed by a whole scan, followed by the carried state, spell out the input |
| `StreamSegmenter.TwoTagsInOneChunk` | ling_chat/core/ai_service/message_system/stream_producer.py:40-119 | `"【1】Hi【2】Bye"` in one chunk gives two numbered non-final sentences and the reply unchanged |
| `StreamSegmenter.UntaggedText` | ling_chat/core/ai_service/message_system/stream_producer.py:130-146 | a stream without `【`, however it is chunked, gives one final item `fix(text)` of its whole text and returns `fix(text)`; an empty text queues nothing and returns `""` |
| `StreamSegmenter.ChunkBoundaryChangesSegments` | ling_chat/core/ai_service/message_system/stream_producer.py:40-119 | `"【1】Hi"` in one chunk gives a non-final item, but as `"【"` then `"1】Hi"` it gives a single final item |
| `StreamSegmenter.PendingSentenceOverwritten` | ling_chat/core/ai_service/message_system/stream_producer.py:84-88 | a pending `【` is dropped when the next chunk brings another `【` and no `】`: `"【"`, `"a【"` ends as `fix("a【")` |
| `PersistentMemory.SafeReadInt` | ling_chat/core/ai_service/game_system/persistent_memory_system.py:12-16 | a missing variable gives the default, a parsable one gives its value, an unparsable one gives the default |
| `PersistentMemory.SafeReadIntOfShown` | ling_chat/core/ai_service/game_system/persistent_memory_system.py:12-16 | a variable holding `str(n)` reads back as `n` |
| `PersistentMemory.PersistentMemorySystem.constructor` | ling_chat/core/ai_service/game_system/persistent_memory_system.py:27-38 | the system is bound to the role and its id. The interval (default 50) and the window (default 15) are read from the environment, and the system starts idle |
| `PersistentMemory.SliceStartIndex` | ling_chat/core/ai_service/game_system/persistent_memory_system.py:87-93 | the start index is never negative, never before `pointer - window`, and equals 0 or `pointer - window` |
| `PersistentMemory.ShortTermUserText` | ling_chat/core/ai_service/game_system/persistent_memory_system.py:109-116 | the text is empty exactly when the short-term memory is blank. Otherwise it is the recap heading, the stripped memory and a blank line |
| `PersistentMemory.ShortTermIgnoresSurroundingSpace` | ling_chat/core/ai_service/game_system/persistent_memory_system.py:113-116 | surrounding whitespace of the short-term memory does not change the text |
| `PersistentMemory.SystemMemoryTextIgnoresShortTerm` | ling_chat/core/ai_service/game_system/persistent_memory_system.py:95-107 | the system text depends only on the user information, the promises and the long-term memory |
| `PersistentMemory.SystemMemoryText` | ling_chat/core/ai_service/game_system/persistent_memory_system.py:95-107 | the system text opens with the memory-bank banner and closes with the rule line |
| `PersistentMemory.SystemMemoryTextLayout` | ling_chat/core/ai_service/game_system/persistent_memory_system.py:101-107 | between banner and rule line come the user information, the promises and the long-term memory, in that order. Each stands right after its own heading and ends its own line, and the rule line follows the last one |
| `PersistentMemory.Render` | ling_chat/core/ai_service/game_system/persistent_memory_system.py:168-185 | a line is rendered exactly when it is not a system line, is visible to the role (sent or perceived) and has non-blank content. It renders as `AI: ` for the role's own lines, else `User: `, followed by the stripped content |
| `PersistentMemory.Transcript` | ling_chat/core/ai_service/game_system/persistent_memory_system.py:166-186 | each line contributes at most one chunk |
| `PersistentMemory.TranscriptShape` | ling_chat/core/ai_service/game_system/persistent_memory_system.py:184-185 | every chunk starts with `AI: ` or `User: ` |
| `PersistentMemory.ChatTextEndsInNewline` | ling_chat/core/ai_service/game_system/persistent_memory_system.py:188 | the chat text ends in a newline exactly when some line was rendered |
| `PersistentMemory.ChatTextNotBlank` | ling_chat/core/ai_service/game_system/persistent_memory_system.py:158-188 | a chat text with a rendered line is not blank |
| `PersistentMemory.ChatTextOfNoLines` | ling_chat/core/ai_service/game_system/persistent_memory_system.py:188 | no rendered line gives the empty chat text |
| `PersistentMemory.PersistentMemorySystem.BuildChatTextAndCount` | ling_chat/core/ai_service/game_system/persistent_memory_system.py:158-188 | the loop returns the chat text of the lines and the number of rendered lines |
| `PersistentMemory.HealedPointer` | ling_chat/core/ai_service/game_system/persistent_memory_system.py:126-127 | the healed pointer lies in the log. It equals the pointer when that was in range, and is 0 otherwise |
| `PersistentMemory.Check` | ling_chat/core/ai_service/game_system/persistent_memory_system.py:118-156 | the trigger's decision on a state never changes the memory sections. A launch from an idle state records a job aimed at the end of the log. `CheckWhileBusy`, `CheckPointerInRange`, `CheckBelowThreshold`, `CheckLaunchesExactly`, `CheckAtEndIsNoop` and `CheckKeepsSingleFlight` state the rest |
| `PersistentMemory.CheckWhileBusy` | ling_chat/core/ai_service/game_system/persistent_memory_system.py:119-120 | while a consolidation runs, the check changes nothing and launches nothing |
| `PersistentMemory.CheckPointerInRange` | ling_chat/core/ai_service/game_system/persistent_memory_system.py:122-142 | after an idle check the pointer lies within the log, and the memory sections are unchanged |
| `PersistentMemory.CheckBelowThreshold` | ling_chat/core/ai_service/game_system/persistent_memory_system.py:130-136 | below the threshold only the pointer heal happens |
| `PersistentMemory.CheckLaunchesExactly` | ling_chat/core/ai_service/game_system/persistent_memory_system.py:130-156 | a job is launched exactly when the visible count reaches the interval, is positive, and an event loop runs. The job carries the chat text of the new lines and the log length as its target |
| `PersistentMemory.BlankStretchNeedsNonPositiveInterval` | ling_chat/core/ai_service/game_system/persistent_memory_system.py:138-142 | the blank-stretch branch is reached only with an interval of 0 or less |
| `PersistentMemory.CheckAtEndIsNoop` | ling_chat/core/ai_service/game_system/persistent_memory_system.py:118-142 | with the pointer at the end of the log and a positive interval, the check does nothing |
| `PersistentMemory.CheckKeepsSingleFlight` | ling_chat/core/ai_service/game_system/persistent_memory_system.py:118-156 | the check keeps "busy exactly while one job is pending": at most one consolidation in flight |
| `PersistentMemory.PersistentMemorySystem.CheckAndTriggerAutoUpdate` | ling_chat/core/ai_service/game_system/persistent_memory_system.py:118-156 | the method leaves the role's bank and the system's flag and job as `Check` gives them |
| `PersistentMemory.MergeSection` | ling_chat/core/ai_service/game_system/persistent_memory_system.py:211-212 | a blank or missing answer keeps the old content; any other answer replaces it, stripped |
| `PersistentMemory.MergeSectionIdempotent` | ling_chat/core/ai_service/game_system/persistent_memory_system.py:211-212 | merging the same answer twice equals merging it once |
| `PersistentMemory.Pipeline` | ling_chat/core/ai_service/game_system/persistent_memory_system.py:190-236 | the commit always ends the job and clears the busy flag. A failed call leaves the bank unchanged; a success stamps the target pointer and the time. `PipelineCommits` and `MergeSection` state how the sections merge |
| `PersistentMemory.PipelineCommits` | ling_chat/core/ai_service/game_system/persistent_memory_system.py:221-236 | the busy flag is always cleared. A failed call leaves the bank unchanged. A success commits the target pointer. It keeps each section whose answer is blank or missing and replaces every other section by its stripped answer |
| `PersistentMemory.PersistentMemorySystem.RunUpdatePipeline` | ling_chat/core/ai_service/game_system/persistent_memory_system.py:190-236 | the method leaves the bank and the flag as `Pipeline` gives them |
| `PersistentMemory.LaunchCommitRecheck` | ling_chat/core/ai_service/game_system/persistent_memory_system.py:118-227 | after a launch and its successful commit, the pointer is at the end of the log and the next check does nothing |
| `GameTypes.GameRole.constructor` | ling_chat/core/ai_service/type.py:4-18 | `GameRole(role_id=…)` has every other field at its default |
| `GameTypes.RoleEq` | ling_chat/core/ai_service/type.py:24-29 | a role never equals a value that is not a role. Two roles with ids are equal exactly when the ids are; otherwise only a role is equal to itself |
| `GameTypes.RoleHash` | ling_chat/core/ai_service/type.py:20-22 | a role hashes by its id when it has one, otherwise by its identity |
| `GameTypes.EqualRolesHashAlike` | ling_chat/core/ai_service/type.py:20-29 | equal roles hash alike |
| `GameTypes.RoleEqIsEquivalence` | ling_chat/core/ai_service/type.py:24-29 | equality on roles is reflexive, symmetric and transitive |
| `GameTypes.DefaultPlayer` | ling_chat/core/ai_service/type.py:31-35 | all three player fields default to the empty string |
| `GameTypes.NewScriptStatus` | ling_chat/core/ai_service/type.py:37-54 | the required fields are as given; there is no running client, an empty chapter key, progress 0 and no variables |
| `RoleManager.GameRoleManager.constructor` | ling_chat/core/ai_service/game_system/role_manager.py:14-16 | the cache starts empty |
| `RoleManager.GameRoleManager.GetRole` | ling_chat/core/ai_service/game_system/role_manager.py:18-22 | afterwards the id is cached and the result is filed under it with that id. A cached role is returned as is and the cache is unchanged. Otherwise the result is a fresh default role with that id, added to the cache |
| `RoleManager.SourceLines` | ling_chat/core/ai_service/game_system/role_manager.py:41 | with `recent_n` None or 0, all lines. With positive `n`, the last `min(n, len)` lines. With negative `n`, all but the first `-n` |
| `RoleManager.InvolvedIdsMeaning` | ling_chat/core/ai_service/game_system/role_manager.py:43-49 | the collection fails (the `TypeError`) exactly when some line lacks a perceived-id list. Otherwise an id is collected exactly when some line has it as non-zero sender or as a perceiver |
| `RoleManager.CollectInvolvedIds` | ling_chat/core/ai_service/game_system/role_manager.py:43-49 | the loop collects `InvolvedIds`, plus a duplicate-free listing of the same ids |
| `RoleManager.LatestDisplayNameMeaning` | ling_chat/core/ai_service/game_system/role_manager.py:66-72 | there is a latest name exactly when some line sent by the role carries a non-empty name. It is the name on the last such line |
| `RoleManager.SyncDisplayName` | ling_chat/core/ai_service/game_system/role_manager.py:66-72 | the backward loop sets the latest name, or leaves the name as it was when there is none |
| `RoleManager.GameRoleManager.UpdateRole` | ling_chat/core/ai_service/game_system/role_manager.py:56-60 | the role gets its latest name (or keeps its own) and `memory := build(id, source)` |
| `RoleManager.GameRoleManager.SyncRole` | ling_chat/core/ai_service/game_system/role_manager.py:52-60 | one loop turn loads and syncs the id; every other role keeps both fields, and the cache gains at most that id. A role loaded by this turn keeps its default profile |
| `RoleManager.GameRoleManager.SyncRoles` | ling_chat/core/ai_service/game_system/role_manager.py:51-60 | the loop syncs every listed id and leaves every other role as it was. Every role it loads keeps its default profile |
| `RoleManager.GameRoleManager.SyncMemories` | ling_chat/core/ai_service/game_system/role_manager.py:36-64 | it raises exactly when the collection fails, and then nothing changes. No role is dropped or replaced. The keys become the old keys plus the involved ids. Each involved role gets `build(id, source)` and its latest name; other roles are untouched. A newly loaded role is fresh, and its settings, resource path, prompt and memory bank are the defaults of `GameRole(role_id=id)` |
| `Achievement.Stamp` | frontend_vue/src/stores/modules/ui/achievement.ts:31-37 | the stored achievement has the caller's fields and the given id. Its duration is the caller's, or 3500 when none was given |
| `Achievement.HideDelay` | frontend_vue/src/stores/modules/ui/achievement.ts:51 | the hide delay is the duration unless that is missing or 0, and then 3500; so it is never 0 |
| `Achievement.Process` | frontend_vue/src/stores/modules/ui/achievement.ts:41-53 | nothing happens while an achievement is visible or the queue is empty. Otherwise the head leaves the queue and becomes the visible current achievement. Nothing is lost |
| `Achievement.Add` | frontend_vue/src/stores/modules/ui/achievement.ts:31-39 | the achievement is appended at the tail. It stays queued while another one is visible; otherwise one is put on screen |
| `Achievement.Hide` | frontend_vue/src/stores/modules/ui/achievement.ts:55-56 | hiding clears only the visible flag |
| `Achievement.Fade` | frontend_vue/src/stores/modules/ui/achievement.ts:58-61 | the fade clears `current` and shows the next achievement, if nothing is visible and one is queued |
| `Achievement.ShownInAdditionOrder` | frontend_vue/src/stores/modules/ui/achievement.ts:31-61 | for any order of additions and timer firings, the achievements shown so far followed by the queue are exactly the added ones, in order. It is FIFO, with nothing lost or duplicated |
| `Achievement.AtMostOneShownPerStep` | frontend_vue/src/stores/modules/ui/achievement.ts:41-53 | a step puts at most one achievement on screen, and only when none was visible |
| `Achievement.FadeClearsTheNextAchievement` | frontend_vue/src/stores/modules/ui/achievement.ts:41-61 | an achievement added during the previous one's fade is shown at once, and that fade then leaves the store visible with no current achievement |
| `Achievement.AchievementStore.constructor` | frontend_vue/src/stores/modules/ui/achievement.ts:24-28 | the store starts with an empty queue, nothing current and nothing visible |
| `Achievement.AchievementStore.AddAchievement` | frontend_vue/src/stores/modules/ui/achievement.ts:31-39 | the store moves as `Add` says and returns the delay of the hide timer it starts |
| `Achievement.AchievementStore.ProcessQueue` | frontend_vue/src/stores/modules/ui/achievement.ts:41-53 | the store moves as `Process` says and returns the delay of the hide timer it starts |
| `Achievement.AchievementStore.HideAchievement` | frontend_vue/src/stores/modules/ui/achievement.ts:55-62 | the store moves as `Hide` says and returns the 500 ms fade delay |
| `Achievement.AchievementStore.FadeOut` | frontend_vue/src/stores/modules/ui/achievement.ts:58-61 | the store moves as `Fade` says and returns the delay of the hide timer it starts |

## Behaviour of the code that the model keeps

- **Busy check before the pointer heal.** `check_and_trigger_auto_update` returns while busy
  before it heals an out-of-range pointer (persistent_memory_system.py:119-127). The busy guard
  runs before the pointer is healed, so a busy check leaves a bad pointer in place
  (`CheckWhileBusy`).
- **The blank-stretch branch needs a non-positive interval.** Only an interval of 0 or less
  reaches the branch that moves the pointer over a stretch with no visible text
  (`BlankStretchNeedsNonPositiveInterval`). With the default of 50, a stretch with fewer visible
  lines is simply not counted yet.
- **The memory bank is a record.** `GameRole.memory_bank` is declared as a `dict` defaulting to
  `{}` (type.py:18), but the memory system uses it as a record with `meta` and `data`. The model
  types it as that record. A new role's bank is the empty record: pointer 0 and empty sections.
- **Chunk boundaries change the segmentation.** A tag split across two chunks is not scanned
  when its second chunk arrives, because that chunk holds no `【`. The scan is only postponed:
  a later chunk that brings a `【` scans the split tag too, and the sentences come out as for one
  chunk. When no later chunk brings a `【`, the split tag is never scanned and ends up in the final
  item (`ChunkBoundaryChangesSegments`).
- **A pending `【` can be dropped.** The open branch restarts the sentence at the next `【`
  (`PendingSentenceOverwritten`).
- **`sync_memories` raises on a missing perceived list.** It passes `perceived_role_ids` to
  `set.update` without the `or []` that `_build_chat_text_and_count` uses. A line whose list is
  `None` raises `TypeError` before any role changes. `SyncMemories` returns that case as
  `raised`.
- **A fade can clear the next achievement.** An achievement added during the previous one's
  fade is shown at once. The pending fade then clears `current` while the store stays visible
  (`FadeClearsTheNextAchievement`).

## Left out

- The language-model calls and the prompt texts (persistent_memory_system.py:42-85, 197-210). The
  four answers are an input `Responses`. A call that raises is the outcome `Failed`, on which
  `asyncio.gather` fails and nothing is committed.
- asyncio (`get_running_loop`, `create_task`, `run_in_executor`, `gather`, `asyncio.Event`, the
  queue's `await`). A launched consolidation is the recorded `pending` job, and
  `RunUpdatePipeline` is the separate step that completes it. The events are a map of unset
  `ReadyGate`s. `hasLoop` says whether an event loop runs.
- The sentence queue's capacity limit and back-pressure. The queue is a sequence.
- The real-time `print` display and its `time.time()` throttling (stream_producer.py:37, 43-57,
  124-128, 137-140, 151). It is presentation only.
- Clocks. `time.strftime` stamps are the `now` parameter.
- `Function.fix_ai_generated_text` and `str.isdigit`. Both are function parameters of the
  segmenter.
- The stream's exception. It is modelled after the chunks the stream delivered before raising;
  the items already queued stay queued.
- Logging.
- `MemoryBuilder`. The role manager takes `build` as a function parameter.
- `get_role_by_script_keys` and `_db_ensure_role_exists` (role_manager.py:24-34, 74-85). Both are
  database access.
- script_manager.py, the narrative event handlers, webview.py, downloading_RAG_model.py, config.py
  and the front end's websocket handler, processors and game store. Each is plumbing around the
  core.
- `RoleManager.GameRoleManager.SyncRoles`: visits the involved ids in the order they were first
  collected, not in Python's set order. Each turn touches only its own role, so the final state
  is the same for every order.
- `PyBuiltins.ParseInt`: accepts ASCII digits with underscores, a sign and surrounding
  whitespace, but not the other Unicode decimal digits `int()` also accepts.
- `PersistentMemory.PersistentMemorySystem.constructor`: the `ValueError` for a role without an
  id is a precondition.
- `GameTypes.RoleHash`: names what is hashed (the id or the object), not Python's hash values.
- Achievement ids. `Date.now()`/`Math.random()` ids are an `id` parameter.
- Achievement timers. `setTimeout` firings are the steps `HideAchievement` and `FadeOut`; the
  steps return the delays they would schedule.
- `Achievement.Stamp`: treats a duration as given or absent. An explicit `duration: undefined`
  would also override the default, but its hide delay is the default either way. Durations are
  whole milliseconds.
