/** The memory-compaction rules of `PersistentMemorySystem`: the configuration read, the context
    window, the two memory texts, the visible transcript of a stretch of the log, the trigger state
    machine over the processed-line pointer and the busy flag, and the commit of a consolidation run.
    The language model, the event loop and the clock are inputs: a consolidation run is a recorded
    pending job that a separate step completes with whatever the model answered. */
module PersistentMemory {
  import opened PyBuiltins
  import opened GameTypes

  // ----- configuration -----

  /** `_safe_read_int(key, default)`: `int(os.environ.get(key, default))`, or `default` when that
      raises. A missing variable yields `default` itself. */
  function SafeReadInt(env: map<string, string>, key: string, default: int): (r: int)
    ensures key !in env ==> r == default
    ensures key in env && ParseInt(env[key]).Some? ==> r == ParseInt(env[key]).value
    ensures key in env && ParseInt(env[key]).None? ==> r == default
  {
    if key !in env then default
    else match ParseInt(env[key])
      case Some(v) => v
      case None => default
  }

  /** A variable holding the decimal text of `n` (as `str(n)` writes it) is read back as `n`. */
  lemma SafeReadIntOfShown(env: map<string, string>, key: string, default: int, n: int)
    requires key in env && env[key] == Show(n)
    ensures SafeReadInt(env, key, default) == n
  {
    ParseShow(n);
  }

  const DefaultUpdateInterval := 50
  const DefaultRecentWindow := 15

  // ----- the pure accessors -----

  /** `get_slice_start_index`: `max(0, pointer - recent_window)`. */
  function SliceStartIndex(bank: MemoryBank, recentWindow: int): (r: int)
    ensures r >= 0 && r >= bank.meta.lastProcessedGlobalIdx - recentWindow
    ensures r == 0 || r == bank.meta.lastProcessedGlobalIdx - recentWindow
  {
    var p := bank.meta.lastProcessedGlobalIdx - recentWindow;
    if p > 0 then p else 0
  }

  const RecapOpen := "【近期回顾】"

  /** `get_short_term_user_text`: empty for a blank short-term memory, otherwise the stripped memory
      behind the recap heading and followed by a blank line. */
  function ShortTermUserText(bank: MemoryBank): (r: string)
    ensures r == "" <==> AllSpace(bank.data.shortTerm)
    ensures r != "" ==> r == RecapOpen + Strip(bank.data.shortTerm) + "\n\n"
  {
    var shortTerm := Strip(bank.data.shortTerm);
    if shortTerm == "" then "" else RecapOpen + shortTerm + "\n\n"
  }

  /** Surrounding whitespace of the short-term memory does not change its text. */
  lemma ShortTermIgnoresSurroundingSpace(bank: MemoryBank)
    ensures var stripped := bank.(data := bank.data.(shortTerm := Strip(bank.data.shortTerm)));
            ShortTermUserText(stripped) == ShortTermUserText(bank)
  {
    StripIdempotent(bank.data.shortTerm);
  }

  const MemoryHeader := "\n\n====== 记忆库 (Memory Bank) ======\n"
  const MemoryFooter := "=================================\n"

  const UserInfoHeading := "【用户信息】："
  const PromisesHeading := "【重要约定】："
  const LongTermHeading := "【长期经历】："

  /** One headed line of the system text. */
  function Line(heading: string, content: string): string
  {
    heading + content + "\n"
  }

  /** `get_system_memory_text`: the user information, the promises and the long-term memory under
      their headings, between the memory-bank banner and the rule line. */
  function SystemMemoryText(bank: MemoryBank): (r: string)
    ensures |r| >= |MemoryHeader| + |MemoryFooter|
    ensures r[..|MemoryHeader|] == MemoryHeader && r[|r| - |MemoryFooter|..] == MemoryFooter
  {
    MemoryHeader
    + (Line(UserInfoHeading, bank.data.userInfo) + Line(PromisesHeading, bank.data.promises)
       + Line(LongTermHeading, bank.data.longTerm))
    + MemoryFooter
  }

  /** `content` stands in `r` at offset `k`, right after `heading`, and is followed by a newline. */
  ghost predicate SectionAt(r: string, k: nat, heading: string, content: string)
  {
    k + |heading| + |content| < |r|
    && r[k..k + |heading|] == heading
    && r[k + |heading|..k + |heading| + |content|] == content
    && r[k + |heading| + |content|] == '\n'
  }

  lemma SectionInLine(heading: string, content: string)
    ensures SectionAt(Line(heading, content), 0, heading, content)
  {
    var r := Line(heading, content);
    assert r[..|heading|] == heading;
    assert r[|heading|..|heading| + |content|] == content;
  }

  /** Text appended after a section leaves it in place. */
  lemma SectionBefore(y: string, z: string, k: nat, heading: string, content: string)
    requires SectionAt(y, k, heading, content)
    ensures SectionAt(y + z, k, heading, content)
  {
    assert (y + z)[k..k + |heading|] == y[k..k + |heading|];
    assert (y + z)[k + |heading|..k + |heading| + |content|] == y[k + |heading|..k + |heading| + |content|];
  }

  /** Text prepended before a section moves it by its length. */
  lemma SectionAfter(x: string, y: string, k: nat, moved: nat, heading: string, content: string)
    requires SectionAt(y, k, heading, content) && moved == |x| + k
    ensures SectionAt(x + y, moved, heading, content)
  {
    assert (x + y)[moved..moved + |heading|] == y[k..k + |heading|];
    assert (x + y)[moved + |heading|..moved + |heading| + |content|] == y[k + |heading|..k + |heading| + |content|];
  }

  /** The three lines of a text `h + (l1 + l2 + l3) + f`, over any strings: the first one. */
  lemma FirstLineLayout(h: string, h1: string, c1: string, l2: string, l3: string, f: string)
    ensures SectionAt(h + (Line(h1, c1) + l2 + l3) + f, |h|, h1, c1)
  {
    var l1 := Line(h1, c1);
    SectionInLine(h1, c1);
    SectionBefore(l1, l2, 0, h1, c1);
    SectionBefore(l1 + l2, l3, 0, h1, c1);
    SectionAfter(h, l1 + l2 + l3, 0, |h|, h1, c1);
    SectionBefore(h + (l1 + l2 + l3), f, |h|, h1, c1);
  }

  /** The second line. */
  lemma SecondLineLayout(h: string, l1: string, h2: string, c2: string, l3: string, f: string)
    ensures SectionAt(h + (l1 + Line(h2, c2) + l3) + f, |h| + |l1|, h2, c2)
  {
    var l2 := Line(h2, c2);
    SectionInLine(h2, c2);
    SectionAfter(l1, l2, 0, |l1|, h2, c2);
    SectionBefore(l1 + l2, l3, |l1|, h2, c2);
    SectionAfter(h, l1 + l2 + l3, |l1|, |h| + |l1|, h2, c2);
    SectionBefore(h + (l1 + l2 + l3), f, |h| + |l1|, h2, c2);
  }

  /** The third line. */
  lemma ThirdLineLayout(h: string, l1: string, l2: string, h3: string, c3: string, f: string)
    ensures SectionAt(h + (l1 + l2 + Line(h3, c3)) + f, |h| + |l1| + |l2|, h3, c3)
  {
    var l3 := Line(h3, c3);
    SectionInLine(h3, c3);
    SectionAfter(l1 + l2, l3, 0, |l1 + l2|, h3, c3);
    SectionAfter(h, l1 + l2 + l3, |l1 + l2|, |h| + |l1| + |l2|, h3, c3);
    SectionBefore(h + (l1 + l2 + l3), f, |h| + |l1| + |l2|, h3, c3);
  }

  /** The layout of the system text: the user information, the promises and the long-term memory,
      in that order, each right after its own heading and on its own line, and then the rule line. */
  lemma SystemMemoryTextLayout(bank: MemoryBank)
    ensures var r := SystemMemoryText(bank);
            var k1 := |MemoryHeader|;
            var k2 := k1 + |UserInfoHeading| + |bank.data.userInfo| + 1;
            var k3 := k2 + |PromisesHeading| + |bank.data.promises| + 1;
            SectionAt(r, k1, UserInfoHeading, bank.data.userInfo)
            && SectionAt(r, k2, PromisesHeading, bank.data.promises)
            && SectionAt(r, k3, LongTermHeading, bank.data.longTerm)
            && |r| == k3 + |LongTermHeading| + |bank.data.longTerm| + 1 + |MemoryFooter|
  {
    var d := bank.data;
    var l1, l2, l3 := Line(UserInfoHeading, d.userInfo), Line(PromisesHeading, d.promises), Line(LongTermHeading, d.longTerm);
    FirstLineLayout(MemoryHeader, UserInfoHeading, d.userInfo, l2, l3, MemoryFooter);
    SecondLineLayout(MemoryHeader, l1, PromisesHeading, d.promises, l3, MemoryFooter);
    ThirdLineLayout(MemoryHeader, l1, l2, LongTermHeading, d.longTerm, MemoryFooter);
  }

  /** The system text leaves out the short-term memory and the meta data: banks that agree on the
      other three sections give the same text. */
  lemma SystemMemoryTextIgnoresShortTerm(a: MemoryBank, b: MemoryBank)
    requires a.data.userInfo == b.data.userInfo && a.data.promises == b.data.promises
    requires a.data.longTerm == b.data.longTerm
    ensures SystemMemoryText(a) == SystemMemoryText(b)
  {
  }


  // ----- the visible transcript -----

  /** A line is visible to the role when the role sent it or perceived it. */
  predicate IsVisible(line: GameLine, roleId: RoleId)
  {
    line.senderRoleId == Some(roleId)
    || (line.perceivedRoleIds.Some? && roleId in line.perceivedRoleIds.value)
  }

  function ContentOf(line: GameLine): string
  {
    if line.content.Some? then line.content.value else ""
  }

  /** How one line enters the transcript: not at all for a system line, an invisible line or a blank
      one; otherwise as `AI: ` (the role's own line) or `User: ` followed by its stripped content. */
  function Render(line: GameLine, roleId: RoleId): (r: Option<string>)
    ensures r.Some? <==> line.attribute != System && IsVisible(line, roleId) && !AllSpace(ContentOf(line))
    ensures r.Some? && line.senderRoleId == Some(roleId) ==> r.value == "AI" + ": " + Strip(ContentOf(line))
    ensures r.Some? && line.senderRoleId != Some(roleId) ==> r.value == "User" + ": " + Strip(ContentOf(line))
  {
    if line.attribute == System then None
    else if !IsVisible(line, roleId) then None
    else
      var content := Strip(ContentOf(line));
      if content == "" then None
      else if line.senderRoleId == Some(roleId) then Some("AI" + ": " + content)
      else Some("User" + ": " + content)
  }

  /** The rendered lines of `lines`, in order. */
  function Transcript(lines: seq<GameLine>, roleId: RoleId): (chunks: seq<string>)
    ensures |chunks| <= |lines|
  {
    if lines == [] then []
    else
      var init := Transcript(lines[..|lines| - 1], roleId);
      match Render(lines[|lines| - 1], roleId)
      case Some(c) => init + [c]
      case None => init
  }

  /** The chat text: every rendered line followed by a newline. */
  function ChatText(lines: seq<GameLine>, roleId: RoleId): string
  {
    Terminated(Transcript(lines, roleId))
  }

  /** A rendered line: `AI: ` or `User: ` and the content. */
  predicate RenderedShape(c: string)
  {
    (|c| >= 4 && c[..4] == "AI: ") || (|c| >= 6 && c[..6] == "User: ")
  }

  lemma RenderedShapeHead(c: string)
    requires RenderedShape(c)
    ensures |c| > 0 && !IsSpace(c[0])
  {
    if |c| >= 4 && c[..4] == "AI: " {
      assert c[0] == c[..4][0];
    } else {
      assert c[0] == c[..6][0];
    }
  }

  /** Every rendered line starts with `AI: ` or `User: `. */
  lemma {:induction false} TranscriptShape(lines: seq<GameLine>, roleId: RoleId)
    ensures forall c :: c in Transcript(lines, roleId) ==> RenderedShape(c)
  {
    if lines != [] {
      TranscriptShape(lines[..|lines| - 1], roleId);
      PrefixedShape(if lines[|lines| - 1].senderRoleId == Some(roleId) then "AI" else "User",
                    Strip(ContentOf(lines[|lines| - 1])));
    }
  }

  /** A role name and `: ` in front of the content give a rendered line. */
  lemma PrefixedShape(who: string, content: string)
    requires who == "AI" || who == "User"
    ensures RenderedShape(who + ": " + content)
  {
    var c := who + ": " + content;
    if who == "AI" {
      assert c[..4] == "AI: ";
    } else {
      assert c[..6] == "User: ";
    }
  }

  /** The chat text ends in a newline exactly when some line is rendered. */
  lemma ChatTextEndsInNewline(lines: seq<GameLine>, roleId: RoleId)
    ensures var t := ChatText(lines, roleId);
            (|t| > 0 && t[|t| - 1] == '\n') <==> |Transcript(lines, roleId)| > 0
  {
    TerminatedEndsInNewline(Transcript(lines, roleId));
  }

  /** A chat text with a rendered line in it is not blank. */
  lemma ChatTextNotBlank(lines: seq<GameLine>, roleId: RoleId)
    requires |Transcript(lines, roleId)| > 0
    ensures !AllSpace(ChatText(lines, roleId))
  {
    var chunks := Transcript(lines, roleId);
    TranscriptShape(lines, roleId);
    assert chunks[0] in chunks;
    var t := Terminated(chunks);
    assert t == chunks[0] + "\n" + Terminated(chunks[1..]);
    RenderedShapeHead(chunks[0]);
    assert t[0] == chunks[0][0];
  }

  /** The transcript of a blank stretch: no rendered line gives an empty chat text. */
  lemma ChatTextOfNoLines(lines: seq<GameLine>, roleId: RoleId)
    requires |Transcript(lines, roleId)| == 0
    ensures ChatText(lines, roleId) == ""
  {
  }

  lemma TranscriptSnoc(lines: seq<GameLine>, i: nat, roleId: RoleId)
    requires i < |lines|
    ensures Transcript(lines[..i + 1], roleId)
            == Transcript(lines[..i], roleId)
               + (match Render(lines[i], roleId) case Some(c) => [c] case None => [])
  {
    assert lines[..i + 1][..i] == lines[..i];
  }

  // ----- the trigger and the commit -----

  /** A launched consolidation: the chat text it summarises and the pointer it commits. */
  datatype Job = Job(chatText: string, targetIdx: int)

  /** What the trigger and the commit read and write: the role's memory bank, the busy flag, and the
      launched job that has not finished yet. */
  datatype MemState = MemState(bank: MemoryBank, isUpdating: bool, pending: Option<Job>)

  /** The state that runs at most one consolidation at a time: busy exactly while one is pending. */
  predicate SingleFlight(s: MemState)
  {
    s.isUpdating <==> s.pending.Some?
  }

  /** The pointer self-heal: an out-of-range pointer restarts at 0. */
  function HealedPointer(pointer: int, total: nat): (p: nat)
    ensures p <= total
    ensures 0 <= pointer <= total ==> p == pointer
    ensures !(0 <= pointer <= total) ==> p == 0
  {
    if pointer < 0 || pointer > total then 0 else pointer
  }

  function WithPointer(bank: MemoryBank, pointer: int): MemoryBank
  {
    bank.(meta := bank.meta.(lastProcessedGlobalIdx := pointer))
  }

  /** `check_and_trigger_auto_update` on a state: a busy state is returned as it is; otherwise the
      pointer is healed, and the unprocessed lines are consolidated once they hold `interval` visible
      lines: a blank transcript just moves the pointer to the end (stamped `now`), a missing event
      loop skips, and otherwise a job is launched and the state is marked busy. */
  function Check(s: MemState, lines: seq<GameLine>, roleId: RoleId, interval: int, hasLoop: bool, now: string): (r: MemState)
    ensures r.bank.data == s.bank.data
    ensures !s.isUpdating && r.isUpdating ==> r.pending.Some? && r.pending.value.targetIdx == |lines|
  {
    if s.isUpdating then s
    else
      var p := HealedPointer(s.bank.meta.lastProcessedGlobalIdx, |lines|);
      var healed := s.(bank := WithPointer(s.bank, p));
      var count := |Transcript(lines[p..], roleId)|;
      var text := ChatText(lines[p..], roleId);
      if count < interval then healed
      else if Strip(text) == "" then
        healed.(bank := MemoryBank(MemoryMeta(|lines|, now), s.bank.data))
      else if !hasLoop then healed
      else healed.(isUpdating := true, pending := Some(Job(text, |lines|)))
  }

  /** A busy state never launches a second job, nor changes at all. */
  lemma CheckWhileBusy(s: MemState, lines: seq<GameLine>, roleId: RoleId, interval: int, hasLoop: bool, now: string)
    requires s.isUpdating
    ensures Check(s, lines, roleId, interval, hasLoop, now) == s
  {
  }

  /** After a call on an idle state the pointer lies within the log, and an out-of-range pointer has
      been reset (or moved to the end). The sections are never touched. */
  lemma CheckPointerInRange(s: MemState, lines: seq<GameLine>, roleId: RoleId, interval: int, hasLoop: bool, now: string)
    requires !s.isUpdating
    ensures var r := Check(s, lines, roleId, interval, hasLoop, now);
            0 <= r.bank.meta.lastProcessedGlobalIdx <= |lines| && r.bank.data == s.bank.data
  {
  }

  /** Below the threshold only the pointer heal happens. */
  lemma CheckBelowThreshold(s: MemState, lines: seq<GameLine>, roleId: RoleId, interval: int, hasLoop: bool, now: string)
    requires !s.isUpdating
    requires var p := HealedPointer(s.bank.meta.lastProcessedGlobalIdx, |lines|);
             |Transcript(lines[p..], roleId)| < interval
    ensures Check(s, lines, roleId, interval, hasLoop, now)
            == s.(bank := WithPointer(s.bank, HealedPointer(s.bank.meta.lastProcessedGlobalIdx, |lines|)))
  {
  }

  /** A job is launched exactly when the state is idle, the unprocessed lines hold at least
      `interval` visible lines and at least one, and an event loop runs; it carries their chat text
      and the length of the log. */
  lemma CheckLaunchesExactly(s: MemState, lines: seq<GameLine>, roleId: RoleId, interval: int, hasLoop: bool, now: string)
    requires !s.isUpdating
    ensures var r := Check(s, lines, roleId, interval, hasLoop, now);
            var p := HealedPointer(s.bank.meta.lastProcessedGlobalIdx, |lines|);
            var count := |Transcript(lines[p..], roleId)|;
            (r.isUpdating <==> count >= interval && count > 0 && hasLoop)
            && (r.isUpdating ==> r.pending == Some(Job(ChatText(lines[p..], roleId), |lines|))
                                 && r.bank == WithPointer(s.bank, p))
  {
    var p := HealedPointer(s.bank.meta.lastProcessedGlobalIdx, |lines|);
    var count := |Transcript(lines[p..], roleId)|;
    if count > 0 {
      ChatTextNotBlank(lines[p..], roleId);
      StripBlankness(ChatText(lines[p..], roleId));
    }
  }

  /** `strip` gives "" exactly for blank text. */
  lemma StripBlankness(t: string)
    ensures Strip(t) == "" <==> AllSpace(t)
  {
  }

  /** The branch that moves the pointer over a blank stretch is taken only when the interval is not
      positive: a stretch that reaches a positive threshold renders a line, so its text is not blank. */
  lemma BlankStretchNeedsNonPositiveInterval(s: MemState, lines: seq<GameLine>, roleId: RoleId, interval: int)
    requires !s.isUpdating
    requires var p := HealedPointer(s.bank.meta.lastProcessedGlobalIdx, |lines|);
             |Transcript(lines[p..], roleId)| >= interval && Strip(ChatText(lines[p..], roleId)) == ""
    ensures interval <= 0
  {
    var p := HealedPointer(s.bank.meta.lastProcessedGlobalIdx, |lines|);
    if |Transcript(lines[p..], roleId)| > 0 {
      ChatTextNotBlank(lines[p..], roleId);
    }
  }

  /** A check on a state whose pointer is at the end of the log does nothing, for any positive
      interval: there is nothing new to count. */
  lemma CheckAtEndIsNoop(s: MemState, lines: seq<GameLine>, roleId: RoleId, interval: int, hasLoop: bool, now: string)
    requires interval > 0 && s.bank.meta.lastProcessedGlobalIdx == |lines|
    ensures Check(s, lines, roleId, interval, hasLoop, now) == s
  {
    assert lines[|lines|..] == [];
  }

  /** The check keeps the single-flight invariant. */
  lemma CheckKeepsSingleFlight(s: MemState, lines: seq<GameLine>, roleId: RoleId, interval: int, hasLoop: bool, now: string)
    requires SingleFlight(s)
    ensures SingleFlight(Check(s, lines, roleId, interval, hasLoop, now))
  {
  }

  /** The model's four answers, one per section (`None` for a `None` response). */
  datatype Responses = Responses(shortTerm: Option<string>, longTerm: Option<string>,
                                 userInfo: Option<string>, promises: Option<string>)

  /** How the model's calls end: all four answered, or some call raised. */
  datatype LlmOutcome = Answered(responses: Responses) | Failed

  /** `response or ""`. */
  function AnswerText(response: Option<string>): string
  {
    if response.Some? then response.value else ""
  }

  /** An answer that `update_section` discards: `None` or only whitespace. */
  predicate Blank(response: Option<string>)
  {
    AllSpace(AnswerText(response))
  }

  /** `update_section`'s result: the stripped response, or the old content when that is empty. */
  function MergeSection(oldContent: string, response: Option<string>): (r: string)
    ensures Blank(response) ==> r == oldContent
    ensures !Blank(response) ==> r == Strip(AnswerText(response))
  {
    var cleaned := Strip(AnswerText(response));
    if cleaned != "" then cleaned else oldContent
  }

  /** Merging the same answer twice is merging it once. */
  lemma MergeSectionIdempotent(oldContent: string, response: Option<string>)
    ensures MergeSection(MergeSection(oldContent, response), response) == MergeSection(oldContent, response)
  {
  }

  function MergeData(d: MemoryData, rs: Responses): MemoryData
  {
    MemoryData(MergeSection(d.shortTerm, rs.shortTerm), MergeSection(d.longTerm, rs.longTerm),
               MergeSection(d.userInfo, rs.userInfo), MergeSection(d.promises, rs.promises))
  }

  /** The commit of `_run_update_pipeline`: with all four answers the sections are merged and the
      pointer moves to the job's target (stamped `now`); when a call raised nothing of the bank
      changes. Either way the state is no longer busy. */
  function Pipeline(s: MemState, targetIdx: int, outcome: LlmOutcome, now: string): (r: MemState)
    ensures !r.isUpdating && r.pending.None?
    ensures outcome.Failed? ==> r.bank == s.bank
    ensures outcome.Answered? ==> r.bank.meta == MemoryMeta(targetIdx, now)
  {
    var bank := match outcome
      case Answered(rs) => MemoryBank(MemoryMeta(targetIdx, now), MergeData(s.bank.data, rs))
      case Failed => s.bank;
    MemState(bank, false, None)
  }

  /** The commit's promises: the busy flag is cleared in every case; a failure leaves the pointer and
      every section as they were; a success commits the target, keeps each section whose answer is
      blank and replaces every other section by its stripped answer. */
  lemma PipelineCommits(s: MemState, targetIdx: int, outcome: LlmOutcome, now: string)
    ensures var r := Pipeline(s, targetIdx, outcome, now);
            !r.isUpdating && SingleFlight(r)
            && (outcome.Failed? ==> r.bank == s.bank)
            && (outcome.Answered? ==>
                  var rs := outcome.responses;
                  var d := r.bank.data;
                  r.bank.meta.lastProcessedGlobalIdx == targetIdx
                  && (Blank(rs.shortTerm) ==> d.shortTerm == s.bank.data.shortTerm)
                  && (Blank(rs.longTerm) ==> d.longTerm == s.bank.data.longTerm)
                  && (Blank(rs.userInfo) ==> d.userInfo == s.bank.data.userInfo)
                  && (Blank(rs.promises) ==> d.promises == s.bank.data.promises)
                  && (!Blank(rs.shortTerm) ==> d.shortTerm == Strip(AnswerText(rs.shortTerm)))
                  && (!Blank(rs.longTerm) ==> d.longTerm == Strip(AnswerText(rs.longTerm)))
                  && (!Blank(rs.userInfo) ==> d.userInfo == Strip(AnswerText(rs.userInfo)))
                  && (!Blank(rs.promises) ==> d.promises == Strip(AnswerText(rs.promises))))
  {
  }

  /** A launch followed by a successful commit leaves a state on which the next check, over the same
      log and with a positive interval, does nothing. */
  lemma LaunchCommitRecheck(s: MemState, lines: seq<GameLine>, roleId: RoleId, interval: int, now: string,
                            rs: Responses, later: string)
    requires !s.isUpdating && interval > 0
    requires Check(s, lines, roleId, interval, true, now).isUpdating
    ensures var launched := Check(s, lines, roleId, interval, true, now);
            var committed := Pipeline(launched, launched.pending.value.targetIdx, Answered(rs), later);
            committed.bank.meta.lastProcessedGlobalIdx == |lines|
            && Check(committed, lines, roleId, interval, true, now) == committed
  {
    CheckLaunchesExactly(s, lines, roleId, interval, true, now);
    var launched := Check(s, lines, roleId, interval, true, now);
    var committed := Pipeline(launched, launched.pending.value.targetIdx, Answered(rs), later);
    CheckAtEndIsNoop(committed, lines, roleId, interval, true, now);
  }

  // ----- the system object -----

  /** `PersistentMemorySystem` for one role: its settings, its busy flag, and the job launched by the
      last trigger until that job completes. The bank it updates is the role's own. */
  class PersistentMemorySystem {
    const role: GameRole
    const roleId: RoleId
    const updateInterval: int
    const recentWindow: int
    var isUpdating: bool
    var pending: Option<Job>

    /** `__init__` for a role with an id: the two settings are read from `env`. */
    constructor (role: GameRole, env: map<string, string>)
      requires role.roleId.Some?
      ensures this.role == role && roleId == role.roleId.value
      ensures updateInterval == SafeReadInt(env, "MEMORY_UPDATE_INTERVAL", DefaultUpdateInterval)
      ensures recentWindow == SafeReadInt(env, "MEMORY_RECENT_WINDOW", DefaultRecentWindow)
      ensures !isUpdating && pending.None?
    {
      this.role := role;
      roleId := role.roleId.value;
      updateInterval := SafeReadInt(env, "MEMORY_UPDATE_INTERVAL", DefaultUpdateInterval);
      recentWindow := SafeReadInt(env, "MEMORY_RECENT_WINDOW", DefaultRecentWindow);
      isUpdating := false;
      pending := None;
    }

    ghost function State(): MemState
      reads this, role
    {
      MemState(role.memoryBank, isUpdating, pending)
    }

    /** `check_and_trigger_auto_update(all_lines)`; `hasLoop` says whether an event loop runs and
        `now` is the time stamp `time.strftime` would give. */
    method CheckAndTriggerAutoUpdate(allLines: seq<GameLine>, hasLoop: bool, now: string)
      modifies this, role`memoryBank
      ensures State() == Check(old(State()), allLines, roleId, updateInterval, hasLoop, now)
    {
      if isUpdating {
        return;
      }
      var currentTotal := |allLines|;
      var pointer := role.memoryBank.meta.lastProcessedGlobalIdx;
      if pointer < 0 || pointer > currentTotal {
        role.memoryBank := WithPointer(role.memoryBank, 0);
      }
      pointer := role.memoryBank.meta.lastProcessedGlobalIdx;
      var newLines := allLines[pointer..currentTotal];
      assert newLines == allLines[pointer..];
      var chatText, visibleCount := BuildChatTextAndCount(newLines);
      var targetIdx := currentTotal;
      if visibleCount < updateInterval {
        return;
      }
      if Strip(chatText) == "" {
        role.memoryBank := role.memoryBank.(meta := MemoryMeta(targetIdx, now));
        return;
      }
      if !hasLoop {
        return;
      }
      isUpdating := true;
      pending := Some(Job(chatText, targetIdx));
    }

    /** `_build_chat_text_and_count(lines)`: the chat text of the lines and the number of lines it
        renders. */
    method BuildChatTextAndCount(lines: seq<GameLine>) returns (chatText: string, visibleCount: nat)
      ensures chatText == ChatText(lines, roleId)
      ensures visibleCount == |Transcript(lines, roleId)|
    {
      var chunks: seq<string> := [];
      visibleCount := 0;
      for i := 0 to |lines|
        invariant chunks == Transcript(lines[..i], roleId)
        invariant visibleCount == |chunks|
      {
        TranscriptSnoc(lines, i, roleId);
        var line := lines[i];
        if line.attribute == System {
          continue;
        }
        var senderRoleId := line.senderRoleId;
        var perceivedIds := if line.perceivedRoleIds.Some? then line.perceivedRoleIds.value else [];
        var isVisible := senderRoleId == Some(roleId) || roleId in perceivedIds;
        if !isVisible {
          continue;
        }
        var content := Strip(ContentOf(line));
        if content == "" {
          continue;
        }
        var who := if senderRoleId == Some(roleId) then "AI" else "User";
        chunks := chunks + [who + ": " + content];
        visibleCount := visibleCount + 1;
      }
      assert lines[..|lines|] == lines;
      chatText := JoinLines(chunks) + (if chunks != [] then "\n" else "");
      JoinThenNewline(chunks);
    }

    /** `_run_update_pipeline(loop, chat_text, new_total_idx)` once the model's calls have ended
        with `outcome`; `now` is the commit's time stamp. */
    method RunUpdatePipeline(chatText: string, newTotalIdx: int, outcome: LlmOutcome, now: string)
      modifies this, role`memoryBank
      ensures State() == Pipeline(old(State()), newTotalIdx, outcome, now)
    {
      if outcome.Answered? {
        var rs := outcome.responses;
        var data := role.memoryBank.data;
        var shortTerm := MergeSection(data.shortTerm, rs.shortTerm);
        var longTerm := MergeSection(data.longTerm, rs.longTerm);
        var userInfo := MergeSection(data.userInfo, rs.userInfo);
        var promises := MergeSection(data.promises, rs.promises);
        role.memoryBank := role.memoryBank.(data := MemoryData(shortTerm, longTerm, userInfo, promises));
        role.memoryBank := role.memoryBank.(meta := MemoryMeta(newTotalIdx, now));
      }
      isUpdating := false;
      pending := None;
    }
  }
}
