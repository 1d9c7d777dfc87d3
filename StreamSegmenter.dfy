/** The stream segmenter (`StreamProducer.run`): cuts a chunked model reply into numbered sentence
    items at the fullwidth bracket tags `【…】`. The functions below specify the scan; the class
    `StreamProducer` runs it step by step and is proved to match them. */
module StreamSegmenter {
  import opened PyBuiltins

  /** U+3010 and U+3011, the markers around a tag. */
  const Open: char := '【'
  const Close: char := '】'

  /** One queued sentence: `(text, index, is_final)`. */
  datatype Item = Item(text: string, index: nat, isFinal: bool)

  /** The `asyncio.Event` created for an index; it starts unset. */
  datatype ReadyGate = ReadyGate(isSet: bool)

  /** The model's stream: the chunks it yields, then normal exhaustion or an exception. */
  datatype Source = Source(chunks: seq<string>, raises: bool)

  /** What `run` does at the end: return the whole response, or let the source's exception through. */
  datatype Outcome = Returned(response: string) | Raised

  /** The scanner's carried state: the partial `sentence` and the unscanned `buffer`. */
  datatype Scanner = Scanner(sentence: string, buffer: string)

  /** One turn of `while "【" in buffer`: a sentence is complete, or the loop stops to wait. */
  datatype StepResult = Emitted(text: string, next: Scanner) | Waiting(next: Scanner)

  /** Sentences completed by a stretch of scanning, and the state it leaves. */
  datatype Scanned = Scanned(texts: seq<string>, rest: Scanner)

  /** Everything `run` puts on the queue, and how it ends. */
  datatype Run = Run(items: seq<Item>, outcome: Outcome)

  function Prepend(ts: seq<string>, s: Scanned): Scanned
  {
    Scanned(ts + s.texts, s.rest)
  }

  /** `"".join(parts)`, built from the right as the response is accumulated. */
  function Concat(parts: seq<string>): string
  {
    if parts == [] then "" else Concat(parts[..|parts| - 1]) + parts[|parts| - 1]
  }

  lemma {:induction false} ConcatCons(t: string, ts: seq<string>)
    ensures Concat([t] + ts) == t + Concat(ts)
  {
    if ts != [] {
      assert ([t] + ts)[..|ts|] == [t] + ts[..|ts| - 1];
      ConcatCons(t, ts[..|ts| - 1]);
    }
  }

  /** The end of the prose that starts at `from`: the next `【` at or after it, or the end of the
      buffer. */
  function ProseEnd(b: string, from: nat): (e: nat)
    requires from <= |b|
    ensures from <= e <= |b|
    ensures e == |b| || b[e] == Open
  {
    var f := FindFrom(b, Open, from);
    if f == -1 then |b| else f
  }

  /** The prose holds no `【`. */
  lemma ProseHasNoOpen(b: string, from: nat)
    requires from <= |b|
    ensures forall j :: from <= j < ProseEnd(b, from) ==> b[j] != Open
  {
    FindFromIsFirst(b, Open, from);
  }

  /** The end of the run of digits that starts at `from`. */
  function DigitsEnd(b: string, isDigit: char -> bool, from: nat): (d: nat)
    requires from <= |b|
    ensures from <= d <= |b|
    ensures d < |b| ==> !isDigit(b[d])
    decreases |b| - from
  {
    if from == |b| || !isDigit(b[from]) then from else DigitsEnd(b, isDigit, from + 1)
  }

  /** Every character of the run is a digit. */
  lemma {:induction false} DigitsEndAreDigits(b: string, isDigit: char -> bool, from: nat)
    requires from <= |b|
    ensures forall j :: from <= j < DigitsEnd(b, isDigit, from) ==> isDigit(b[j])
    decreases |b| - from
  {
    if from < |b| && isDigit(b[from]) {
      DigitsEndAreDigits(b, isDigit, from + 1);
    }
  }

  /** An end that meets the three conditions of a digit run is that run's end. */
  lemma {:induction false} DigitsEndUnique(b: string, isDigit: char -> bool, from: nat, d: nat)
    requires from <= d <= |b|
    requires forall j :: from <= j < d ==> isDigit(b[j])
    requires d < |b| ==> !isDigit(b[d])
    ensures DigitsEnd(b, isDigit, from) == d
    decreases d - from
  {
    if from < d {
      DigitsEndUnique(b, isDigit, from + 1, d);
    }
  }

  /** The first `【` of `b` opens a numeric tag that is already closed: digits, then `】`. */
  predicate TagComplete(b: string, isDigit: char -> bool)
    requires Open in b
  {
    var st := Find(b, Open);
    var d := DigitsEnd(b, isDigit, st + 1);
    st + 1 < d < |b| && b[d] == Close
  }

  /** The branch for an open sentence and a buffered `】`: the sentence takes the buffer through its
      first `】` and the prose after it, up to the next `【`. */
  function CloseSentence(sc: Scanner): (r: StepResult)
    requires Close in sc.buffer
    ensures r.Emitted? && r.next.sentence == "" && |r.next.buffer| < |sc.buffer|
    ensures r.text + r.next.buffer == sc.sentence + sc.buffer
    ensures r.next.buffer == "" || r.next.buffer[0] == Open
  {
    var b := sc.buffer;
    var e := ProseEnd(b, Find(b, Close) + 1);
    assert b[..e] + b[e..] == b;
    Emitted(sc.sentence + b[..e], Scanner("", b[e..]))
  }

  /** The other branch: start the sentence at the first `【` (dropping any pending one); emit it with
      the prose after a closed numeric tag, otherwise wait. */
  function OpenSentence(b: string, isDigit: char -> bool): (r: StepResult)
    requires Open in b
    ensures r.Emitted? ==> r.next.sentence == "" && |r.next.buffer| < |b|
    ensures r.Emitted? ==> r.text + r.next.buffer == b
    ensures r.Emitted? ==> r.next.buffer == "" || r.next.buffer[0] == Open
    ensures r.Emitted? <==> TagComplete(b, isDigit)
  {
    var st := Find(b, Open);
    var d := DigitsEnd(b, isDigit, st + 1);
    if st + 1 < d < |b| && b[d] == Close then
      var e := ProseEnd(b, d + 1);
      assert b[..e] + b[e..] == b;
      Emitted(b[..e], Scanner("", b[e..]))
    else
      Waiting(Scanner(b[..st + 1], b[st + 1..]))
  }

  /** One turn of the scan loop. */
  function Step(sc: Scanner, isDigit: char -> bool): (r: StepResult)
    requires Open in sc.buffer
    ensures r.Emitted? ==> r.next.sentence == "" && |r.next.buffer| < |sc.buffer|
    ensures r.Emitted? ==> r.next.buffer == "" || r.next.buffer[0] == Open
  {
    if sc.sentence != "" && Close in sc.buffer then CloseSentence(sc) else OpenSentence(sc.buffer, isDigit)
  }

  /** The whole `while "【" in buffer` loop over one state. */
  function Scan(sc: Scanner, isDigit: char -> bool): (r: Scanned)
    decreases |sc.buffer|
  {
    if Open !in sc.buffer then Scanned([], sc)
    else
      match Step(sc, isDigit)
      case Waiting(next) => Scanned([], next)
      case Emitted(t, next) => Prepend([t], Scan(next, isDigit))
  }

  /** The `async for chunk` loop: each chunk is appended to the buffer and scanned. */
  function Feed(sc: Scanner, chunks: seq<string>, isDigit: char -> bool): Scanned
    decreases |chunks|
  {
    if chunks == [] then Scanned([], sc)
    else
      var r := Scan(Scanner(sc.sentence, sc.buffer + chunks[0]), isDigit);
      Prepend(r.texts, Feed(r.rest, chunks[1..], isDigit))
  }

  /** Non-final items for `texts`, numbered from `from`. */
  function Numbered(texts: seq<string>, from: nat): (items: seq<Item>)
  {
    seq(|texts|, k requires 0 <= k < |texts| => Item(texts[k], from + k, false))
  }

  /** One unset gate per index `from .. from + n - 1`. */
  function Gates(from: nat, n: nat): map<int, ReadyGate>
  {
    if n == 0 then map[] else Gates(from, n - 1)[from + n - 1 := ReadyGate(false)]
  }

  /** `Gates(from, n)` holds exactly the indices `from .. from + n - 1`, each with an unset event. */
  lemma {:induction false} GatesDomain(from: nat, n: nat)
    ensures forall k :: k in Gates(from, n) <==> from <= k < from + n
    ensures forall k :: k in Gates(from, n) ==> Gates(from, n)[k] == ReadyGate(false)
  {
    if n > 0 {
      GatesDomain(from, n - 1);
    }
  }

  /** What `run` queues and how it ends, for a given source. `isDigit` is Python's `str.isdigit`
      and `fix` is `Function.fix_ai_generated_text`, both taken as given. */
  function Segment(src: Source, isDigit: char -> bool, fix: string -> string): (r: Run)
    ensures src.raises <==> r.outcome.Raised?
    ensures var n := |Feed(Scanner("", ""), src.chunks, isDigit).texts|;
            n <= |r.items| <= n + 1
  {
    var fed := Feed(Scanner("", ""), src.chunks, isDigit);
    var items := Numbered(fed.texts, 0);
    if src.raises then Run(items, Raised)
    else
      var rest := fed.rest.sentence + fed.rest.buffer;
      if rest != "" then
        Run(items + [Item(fix(rest), |fed.texts|, true)], Returned(fix(Concat(src.chunks))))
      else
        Run(items, Returned(Concat(src.chunks)))
  }

  // ----- properties of the specification -----

  /** Indices are `0, 1, 2, …` in queue order: no gap and no repeat. */
  lemma IndicesAreContiguous(src: Source, isDigit: char -> bool, fix: string -> string)
    ensures var items := Segment(src, isDigit, fix).items;
            forall k :: 0 <= k < |items| ==> items[k].index == k
  {
  }

  /** At most one item is final, it is the last, and it exists exactly when the stream ended normally
      with a non-empty remainder, whose repaired text it carries. */
  lemma FinalItemIsLastAndConditional(src: Source, isDigit: char -> bool, fix: string -> string)
    ensures var run := Segment(src, isDigit, fix);
            var rest := Feed(Scanner("", ""), src.chunks, isDigit).rest;
            var hasFinal := !src.raises && rest.sentence + rest.buffer != "";
            (forall k :: 0 <= k < |run.items| ==> (run.items[k].isFinal <==> hasFinal && k == |run.items| - 1))
            && (hasFinal ==> run.items[|run.items| - 1].text == fix(rest.sentence + rest.buffer))
  {
  }

  /** The return value is the concatenation of the chunks, repaired exactly when the last queued item
      is a final one; an exception from the source returns nothing. */
  lemma ResponseIsConcatenation(src: Source, isDigit: char -> bool, fix: string -> string)
    ensures var run := Segment(src, isDigit, fix);
            var hasFinal := |run.items| > 0 && run.items[|run.items| - 1].isFinal;
            (src.raises <==> run.outcome.Raised?)
            && (run.outcome.Returned? ==>
                  run.outcome.response == if hasFinal then fix(Concat(src.chunks)) else Concat(src.chunks))
  {
  }

  /** A `【` that does not open a closed numeric tag stops the loop without emitting: the loop keeps
      the text through that `【` as the sentence and the rest as the buffer. The stop happens exactly
      when no sentence is open (or no `】` is buffered) and the tag is incomplete. */
  lemma WaitsExactlyOnIncompleteTag(sc: Scanner, isDigit: char -> bool)
    requires Open in sc.buffer
    ensures Step(sc, isDigit).Waiting? <==>
              (sc.sentence == "" || Close !in sc.buffer) && !TagComplete(sc.buffer, isDigit)
    ensures Step(sc, isDigit).Waiting? ==>
              var st := Find(sc.buffer, Open);
              Scan(sc, isDigit) == Scanned([], Scanner(sc.buffer[..st + 1], sc.buffer[st + 1..]))
  {
  }

  /** `t` is `pre【digits】prose`: no `【` in `pre` or `prose`, and at least one digit. */
  ghost predicate NumericTagged(t: string, isDigit: char -> bool)
  {
    Open in t && TagComplete(t, isDigit) &&
    var d := DigitsEnd(t, isDigit, Find(t, Open) + 1);
    forall j :: d < j < |t| ==> t[j] != Open
  }

  /** A prefix of `b` that keeps its first closed tag, and adds no `【` after it, is tagged. */
  lemma TaggedPrefix(b: string, e: nat, isDigit: char -> bool)
    requires Open in b && TagComplete(b, isDigit)
    requires var d := DigitsEnd(b, isDigit, Find(b, Open) + 1);
             d < e <= |b| && forall j :: d < j < e ==> b[j] != Open
    ensures NumericTagged(b[..e], isDigit)
  {
    var t := b[..e];
    var st := Find(b, Open);
    var d := DigitsEnd(b, isDigit, st + 1);
    FindFromIsFirst(b, Open, 0);
    FindFromAt(t, Open, 0, st);
    DigitsEndAreDigits(b, isDigit, st + 1);
    DigitsEndUnique(t, isDigit, st + 1, d);
  }

  /** A numeric-tag emission is a prefix of the buffer of the form `pre【digits】prose`, and what
      stays in the buffer is empty or starts with `【`. */
  lemma NumericEmissionShape(sc: Scanner, isDigit: char -> bool)
    requires Open in sc.buffer && TagComplete(sc.buffer, isDigit)
    requires sc.sentence == "" || Close !in sc.buffer
    ensures var r := Step(sc, isDigit);
            r.Emitted? && r.text + r.next.buffer == sc.buffer && NumericTagged(r.text, isDigit)
            && r.next.sentence == "" && (r.next.buffer == "" || r.next.buffer[0] == Open)
  {
    var b := sc.buffer;
    var st := Find(b, Open);
    var d := DigitsEnd(b, isDigit, st + 1);
    var e := ProseEnd(b, d + 1);
    assert Step(sc, isDigit) == OpenSentence(b, isDigit);
    OpenSentenceCases(b, isDigit, st, d);
    ProseHasNoOpen(b, d + 1);
    TaggedPrefix(b, e, isDigit);
    assert b[..e] + b[e..] == b;
  }

  /** Conversely, when the first `【` of the buffer (at `st`) is followed by digits up to a `】` (at
      `d`) and the next `【` after that is at `e` (or there is none, `e` being the length), the step
      emits the buffer up to `e` and keeps the rest. */
  lemma NumericTagEmits(sc: Scanner, isDigit: char -> bool, st: nat, d: nat, e: nat)
    requires st + 1 < d < e <= |sc.buffer|
    requires sc.sentence == "" || Close !in sc.buffer
    requires sc.buffer[st] == Open && forall j :: 0 <= j < st ==> sc.buffer[j] != Open
    requires (forall j :: st < j < d ==> isDigit(sc.buffer[j])) && sc.buffer[d] == Close && !isDigit(Close)
    requires (forall j :: d < j < e ==> sc.buffer[j] != Open) && (e == |sc.buffer| || sc.buffer[e] == Open)
    ensures Open in sc.buffer
    ensures Step(sc, isDigit) == Emitted(sc.buffer[..e], Scanner("", sc.buffer[e..]))
  {
    var b := sc.buffer;
    FindFromAt(b, Open, 0, st);
    assert Find(b, Open) == st;
    DigitsEndUnique(b, isDigit, st + 1, d);
    if e < |b| {
      FindFromAt(b, Open, d + 1, e);
    } else {
      FindFromNone(b, Open, d + 1);
    }
    assert ProseEnd(b, d + 1) == e;
    assert Step(sc, isDigit) == OpenSentence(b, isDigit);
    OpenSentenceCases(b, isDigit, st, d);
  }

  /** With a sentence open and a `】` buffered, the item is the sentence, the buffer through its first
      `】`, and the prose up to the next `【`; nothing of the text is lost. */
  lemma ClosingEmissionShape(sc: Scanner, isDigit: char -> bool)
    requires Open in sc.buffer && Close in sc.buffer && sc.sentence != ""
    ensures Step(sc, isDigit).Emitted?
    ensures var r := Step(sc, isDigit);
            var c := Find(sc.buffer, Close);
            r.text + r.next.buffer == sc.sentence + sc.buffer
            && r.text[..|sc.sentence| + c + 1] == sc.sentence + sc.buffer[..c + 1]
            && (forall j :: |sc.sentence| + c + 1 <= j < |r.text| ==> r.text[j] != Open)
            && r.next.sentence == "" && (r.next.buffer == "" || r.next.buffer[0] == Open)
  {
    var b := sc.buffer;
    var c := Find(b, Close);
    var e := ProseEnd(b, c + 1);
    var t := sc.sentence + b[..e];
    assert t[..|sc.sentence| + c + 1] == sc.sentence + b[..c + 1];
    ProseHasNoOpen(b, c + 1);
  }

  /** One step loses no text when no sentence is pending or a `】` is buffered to close it. */
  lemma StepConservesText(sc: Scanner, isDigit: char -> bool)
    requires Open in sc.buffer && (sc.sentence == "" || Close in sc.buffer)
    ensures match Step(sc, isDigit)
            case Emitted(t, next) => t + next.buffer == sc.sentence + sc.buffer
            case Waiting(next) => next.sentence + next.buffer == sc.sentence + sc.buffer && next.sentence != ""
  {
    if !(sc.sentence != "" && Close in sc.buffer) {
      var b := sc.buffer;
      var st := Find(b, Open);
      assert b[..st + 1] + b[st + 1..] == b;
    }
  }

  // Small facts about sequences, kept apart so that larger proofs can cite them cheaply: sequence
  // equality is extensional, and stating these inline makes the solver search for them in every
  // proof obligation of the caller.

  lemma EmptyLeft(s: string)
    ensures "" + s == s && s + "" == s
  {
  }

  lemma WholeSlices(s: string)
    ensures s[..|s|] == s && s[|s|..] == ""
  {
  }

  lemma SplitConcat(a: string, b: string)
    ensures (a + b)[..|a|] == a && (a + b)[|a|..] == b
  {
  }

  lemma ChunkTails(x: string, y: string)
    ensures [x, y][1..] == [y] && [y][1..] == []
  {
  }

  lemma Regroup(a: string, b: string, c: string, d: string)
    ensures (a + b) + c + d == a + (b + c + d)
  {
  }

  /** Scanning loses no text when no sentence is pending, or when a `】` is buffered to close it:
      the completed sentences followed by the carried state spell out the input. */
  lemma {:induction false} ScanConservesText(sc: Scanner, isDigit: char -> bool)
    requires sc.sentence == "" || Close in sc.buffer || Open !in sc.buffer
    ensures var r := Scan(sc, isDigit);
            Concat(r.texts) + r.rest.sentence + r.rest.buffer == sc.sentence + sc.buffer
    decreases |sc.buffer|, 1
  {
    if Open in sc.buffer {
      StepConservesText(sc, isDigit);
      if Step(sc, isDigit).Emitted? {
        EmissionConservesText(sc, isDigit);
      }
    }
  }

  /** The emitting case of `ScanConservesText`. */
  lemma {:induction false} EmissionConservesText(sc: Scanner, isDigit: char -> bool)
    requires Open in sc.buffer && (sc.sentence == "" || Close in sc.buffer)
    requires Step(sc, isDigit).Emitted?
    ensures var r := Scan(sc, isDigit);
            Concat(r.texts) + r.rest.sentence + r.rest.buffer == sc.sentence + sc.buffer
    decreases |sc.buffer|, 0
  {
    StepConservesText(sc, isDigit);
    var t := Step(sc, isDigit).text;
    var next := Step(sc, isDigit).next;
    ScanConservesText(next, isDigit);
    var r := Scan(next, isDigit);
    assert Scan(sc, isDigit) == Scanned([t] + r.texts, r.rest);
    calc {
      Concat([t] + r.texts) + r.rest.sentence + r.rest.buffer;
      { ConcatCons(t, r.texts); }
      (t + Concat(r.texts)) + r.rest.sentence + r.rest.buffer;
      { Regroup(t, Concat(r.texts), r.rest.sentence, r.rest.buffer); }
      t + (Concat(r.texts) + r.rest.sentence + r.rest.buffer);
      t + (next.sentence + next.buffer);
      { EmptyLeft(next.buffer); }
      t + next.buffer;
    }
  }

  // ----- particular inputs -----

  // The two list identities the concrete-input lemmas below need, named for the same reason.
  lemma TextsNil(ts: seq<string>)
    ensures ts + [] == ts && [] + ts == ts
  {
  }

  lemma TextsPair(x: string, y: string)
    ensures [x] + ([y] + []) == [x, y]
  {
  }

  /** One turn of the scan, as `Scan` takes it. */
  lemma ScanEmitted(sc: Scanner, isDigit: char -> bool)
    requires Open in sc.buffer && Step(sc, isDigit).Emitted?
    ensures Scan(sc, isDigit) == Prepend([Step(sc, isDigit).text], Scan(Step(sc, isDigit).next, isDigit))
  {
  }

  lemma ScanWaiting(sc: Scanner, isDigit: char -> bool)
    requires Open in sc.buffer && Step(sc, isDigit).Waiting?
    ensures Scan(sc, isDigit) == Scanned([], Step(sc, isDigit).next)
  {
  }

  lemma ScanIdle(sc: Scanner, isDigit: char -> bool)
    requires Open !in sc.buffer
    ensures Scan(sc, isDigit) == Scanned([], sc)
  {
  }

  /** Feeding one chunk is one scan of the buffer that chunk extends. */
  lemma FeedOne(sc: Scanner, chunk: string, isDigit: char -> bool)
    ensures Feed(sc, [chunk], isDigit) == Scan(Scanner(sc.sentence, sc.buffer + chunk), isDigit)
  {
    var r := Scan(Scanner(sc.sentence, sc.buffer + chunk), isDigit);
    ChunkTails(chunk, chunk);
    TextsNil(r.texts);
  }

  lemma FeedTwo(sc: Scanner, c1: string, c2: string, isDigit: char -> bool)
    ensures var r := Scan(Scanner(sc.sentence, sc.buffer + c1), isDigit);
            Feed(sc, [c1, c2], isDigit) == Prepend(r.texts, Feed(r.rest, [c2], isDigit))
  {
    ChunkTails(c1, c2);
  }

  /** A buffer that starts with a one-digit closed tag emits that tag and its prose, and keeps what
      follows from the next `【` on. */
  lemma TagHeadEmits(isDigit: char -> bool, d: char, p: string, rest: string)
    requires isDigit(d) && !isDigit(Close) && Open !in p && (rest == "" || rest[0] == Open)
    ensures var a := [Open, d, Close] + p;
            Open in a + rest && Step(Scanner("", a + rest), isDigit) == Emitted(a, Scanner("", rest))
  {
    var a := [Open, d, Close] + p;
    var s := a + rest;
    assert forall j :: 2 < j < |a| ==> s[j] == p[j - 3];
    NumericTagEmits(Scanner("", s), isDigit, 0, 2, |a|);
    SplitConcat(a, rest);
  }

  /** The scan of `【d1】p1【d2】p2`. */
  lemma TwoTagsScan(isDigit: char -> bool, d1: char, p1: string, d2: char, p2: string)
    requires isDigit(d1) && isDigit(d2) && !isDigit(Close) && Open !in p1 && Open !in p2
    ensures var a := [Open, d1, Close] + p1;
            var b := [Open, d2, Close] + p2;
            Scan(Scanner("", a + b), isDigit) == Scanned([a, b], Scanner("", ""))
  {
    var a := [Open, d1, Close] + p1;
    var b := [Open, d2, Close] + p2;
    TagHeadEmits(isDigit, d1, p1, b);
    ScanEmitted(Scanner("", a + b), isDigit);
    TagHeadEmits(isDigit, d2, p2, "");
    EmptyLeft(b);
    ScanEmitted(Scanner("", b), isDigit);
    ScanIdle(Scanner("", ""), isDigit);
    TextsPair(a, b);
  }

  /** `Segment` once the feed is known. */
  lemma SegmentOfFeed(src: Source, isDigit: char -> bool, fix: string -> string, fed: Scanned)
    requires Feed(Scanner("", ""), src.chunks, isDigit) == fed
    ensures var items := Numbered(fed.texts, 0);
            var rest := fed.rest.sentence + fed.rest.buffer;
            Segment(src, isDigit, fix)
            == if src.raises then Run(items, Raised)
               else if rest != "" then Run(items + [Item(fix(rest), |fed.texts|, true)], Returned(fix(Concat(src.chunks))))
               else Run(items, Returned(Concat(src.chunks)))
  {
  }

  lemma NumberedPair(x: string, y: string)
    ensures Numbered([x, y], 0) == [Item(x, 0, false), Item(y, 1, false)]
  {
  }

  lemma ConcatOne(x: string)
    ensures Concat([x]) == x
  {
    assert [x][..0] == [];
  }

  lemma OpenThenTag(d: char, p: string)
    ensures [Open] + ([d, Close] + p) == [Open, d, Close] + p
  {
  }

  /** Two closed numeric tags in one chunk, such as `"【1】Hi【2】Bye"`, give two numbered sentences
      and no final item. */
  lemma TwoTagsInOneChunk(isDigit: char -> bool, fix: string -> string, d1: char, p1: string, d2: char, p2: string)
    requires isDigit(d1) && isDigit(d2) && !isDigit(Close) && Open !in p1 && Open !in p2
    ensures var a := [Open, d1, Close] + p1;
            var b := [Open, d2, Close] + p2;
            Segment(Source([a + b], false), isDigit, fix)
            == Run([Item(a, 0, false), Item(b, 1, false)], Returned(a + b))
  {
    var a := [Open, d1, Close] + p1;
    var b := [Open, d2, Close] + p2;
    TwoTagsScan(isDigit, d1, p1, d2, p2);
    EmptyLeft(a + b);
    FeedOne(Scanner("", ""), a + b, isDigit);
    SegmentOfFeed(Source([a + b], false), isDigit, fix, Scanned([a, b], Scanner("", "")));
    NumberedPair(a, b);
    ConcatOne(a + b);
  }

  /** Chunks without `【` are never scanned: they only grow the buffer. */
  lemma {:induction false} FeedUntagged(buffer: string, chunks: seq<string>, isDigit: char -> bool)
    requires Open !in buffer
    requires forall c :: c in chunks ==> Open !in c
    ensures Feed(Scanner("", buffer), chunks, isDigit) == Scanned([], Scanner("", buffer + Concat(chunks)))
    decreases |chunks|
  {
    if chunks == [] {
      EmptyLeft(buffer);
    } else {
      var grown := buffer + chunks[0];
      assert chunks[0] in chunks;
      ScanIdle(Scanner("", grown), isDigit);
      FeedUntagged(grown, chunks[1..], isDigit);
      assert chunks == [chunks[0]] + chunks[1..];
      ConcatCons(chunks[0], chunks[1..]);
      StringAssoc(buffer, chunks[0], Concat(chunks[1..]));
      TextsNil([]);
    }
  }

  /** A stream without `【`, however it is chunked, is queued once, at the end, as the single final
      item `fix(text)` of its whole text; an empty text queues nothing. */
  lemma UntaggedText(chunks: seq<string>, isDigit: char -> bool, fix: string -> string)
    requires forall c :: c in chunks ==> Open !in c
    ensures var text := Concat(chunks);
            Segment(Source(chunks, false), isDigit, fix)
            == if text == "" then Run([], Returned(""))
               else Run([Item(fix(text), 0, true)], Returned(fix(text)))
  {
    FeedUntagged("", chunks, isDigit);
    EmptyLeft(Concat(chunks));
    assert Numbered([], 0) == [];
  }

  /** The scans behind `ChunkBoundaryChangesSegments`. */
  lemma SplitTagScans(isDigit: char -> bool, d: char, p: string)
    requires isDigit(d) && !isDigit(Close) && d != Open && Open !in p
    ensures var a := [Open, d, Close] + p;
            Scan(Scanner("", a), isDigit) == Scanned([a], Scanner("", ""))
            && Scan(Scanner("", [Open]), isDigit) == Scanned([], Scanner([Open], ""))
            && Scan(Scanner([Open], [d, Close] + p), isDigit) == Scanned([], Scanner([Open], [d, Close] + p))
  {
    var a := [Open, d, Close] + p;
    TagHeadEmits(isDigit, d, p, "");
    EmptyLeft(a);
    ScanEmitted(Scanner("", a), isDigit);
    ScanIdle(Scanner("", ""), isDigit);
    TextsNil([a]);
    var h := [Open];
    WholeSlices(h);
    assert Step(Scanner("", h), isDigit) == Waiting(Scanner(h, ""));
    ScanWaiting(Scanner("", h), isDigit);
    assert Open !in [d, Close] + p;
    ScanIdle(Scanner(h, [d, Close] + p), isDigit);
  }

  /** `"【1】Hi"` in one chunk: one non-final item. */
  lemma WholeTagItems(isDigit: char -> bool, fix: string -> string, d: char, p: string)
    requires isDigit(d) && !isDigit(Close) && d != Open && Open !in p
    ensures var a := [Open, d, Close] + p;
            Segment(Source([a], false), isDigit, fix).items == [Item(a, 0, false)]
  {
    var a := [Open, d, Close] + p;
    SplitTagScans(isDigit, d, p);
    EmptyLeft(a);
    FeedOne(Scanner("", ""), a, isDigit);
    SegmentOfFeed(Source([a], false), isDigit, fix, Scanned([a], Scanner("", "")));
  }

  /** `"【"` then `"1】Hi"`: one final item with the repaired whole text. */
  lemma SplitTagItems(isDigit: char -> bool, fix: string -> string, d: char, p: string)
    requires isDigit(d) && !isDigit(Close) && d != Open && Open !in p
    ensures Segment(Source([[Open], [d, Close] + p], false), isDigit, fix).items
            == [Item(fix([Open, d, Close] + p), 0, true)]
  {
    var h := [Open];
    var t := [d, Close] + p;
    SplitTagScans(isDigit, d, p);
    EmptyLeft(h);
    EmptyLeft(t);
    FeedTwo(Scanner("", ""), h, t, isDigit);
    FeedOne(Scanner(h, ""), t, isDigit);
    TextsNil([]);
    SegmentOfFeed(Source([h, t], false), isDigit, fix, Scanned([], Scanner(h, t)));
    OpenThenTag(d, p);
  }

  /** A tagged sentence such as `"【1】Hi"` gives a non-final item when it arrives whole, but a single
      final (repaired) item when it arrives as `"【"` then `"1】Hi"`: the second chunk holds no `【`,
      so it is never scanned. */
  lemma ChunkBoundaryChangesSegments(isDigit: char -> bool, fix: string -> string, d: char, p: string)
    requires isDigit(d) && !isDigit(Close) && d != Open && Open !in p
    ensures var a := [Open, d, Close] + p;
            Segment(Source([a], false), isDigit, fix).items == [Item(a, 0, false)]
            && Segment(Source([[Open], [d, Close] + p], false), isDigit, fix).items == [Item(fix(a), 0, true)]
  {
    WholeTagItems(isDigit, fix, d, p);
    SplitTagItems(isDigit, fix, d, p);
  }

  /** A pending `【` is overwritten when the next chunk brings another `【` but no `】`: the stream
      `"【"`, `"a【"` ends with the final item `fix("a【")`, not `fix("【a【")`. */
  lemma PendingSentenceOverwritten(isDigit: char -> bool, fix: string -> string, x: char)
    requires x != Open && x != Close
    ensures Segment(Source([[Open], [x, Open]], false), isDigit, fix).items == [Item(fix([x, Open]), 0, true)]
  {
    var h := [Open];
    var b := [x, Open];
    WholeSlices(h);
    EmptyLeft(h);
    EmptyLeft(b);
    assert Step(Scanner("", h), isDigit) == Waiting(Scanner(h, ""));
    ScanWaiting(Scanner("", h), isDigit);
    assert Close !in b;
    FindFromAt(b, Open, 0, 1);
    WholeSlices(b);
    assert Step(Scanner(h, b), isDigit) == Waiting(Scanner(b, ""));
    ScanWaiting(Scanner(h, b), isDigit);
    FeedTwo(Scanner("", ""), h, b, isDigit);
    FeedOne(Scanner(h, ""), b, isDigit);
    TextsNil([]);
  }

  // ----- bookkeeping of the queue and the events -----

  /** Queueing the items of `b` after those of `a`, numbered on from `idx` = `|a|`. */
  lemma QueueAppend(q: seq<Item>, a: seq<string>, b: seq<string>, idx: nat)
    requires idx == |a|
    ensures q + Numbered(a, 0) + Numbered(b, idx) == q + Numbered(a + b, 0)
  {
    assert Numbered(a, 0) + Numbered(b, idx) == Numbered(a + b, 0);
  }

  /** Queueing one more non-final item under the next index `idx`. */
  lemma QueueSnoc(q: seq<Item>, a: seq<string>, t: string, from: nat, idx: nat)
    requires idx == from + |a|
    ensures q + Numbered(a, from) + [Item(t, idx, false)] == q + Numbered(a + [t], from)
  {
    assert Numbered(a, from) + [Item(t, idx, false)] == Numbered(a + [t], from);
  }

  /** Queueing the final item under the next index `idx`. */
  lemma QueueFinal(q: seq<Item>, a: seq<string>, t: string, idx: nat)
    requires idx == |a|
    ensures q + Numbered(a, 0) + [Item(t, idx, true)] == q + (Numbered(a, 0) + [Item(t, |a|, true)])
  {
  }

  lemma GatesUnion(from: nat, n: nat, mid: nat, m: nat)
    requires mid == from + n
    ensures Gates(from, n) + Gates(mid, m) == Gates(from, n + m)
  {
    GatesDomain(from, n);
    GatesDomain(mid, m);
    GatesDomain(from, n + m);
    var lhs := Gates(from, n) + Gates(mid, m);
    var rhs := Gates(from, n + m);
    assert forall k :: k in lhs <==> k in rhs;
    assert forall k :: k in lhs ==> lhs[k] == ReadyGate(false) == rhs[k];
  }

  /** Map union regrouped; cited where the events of two scans are merged. */
  lemma MergeAssoc(e: map<int, ReadyGate>, f: map<int, ReadyGate>, g: map<int, ReadyGate>)
    ensures e + f + g == e + (f + g)
  {
  }

  lemma GatesAppend(e: map<int, ReadyGate>, a: seq<string>, b: seq<string>, idx: nat)
    requires idx == |a|
    ensures e + Gates(0, |a|) + Gates(idx, |b|) == e + Gates(0, |a + b|)
  {
    GatesUnion(0, |a|, idx, |b|);
    MergeAssoc(e, Gates(0, |a|), Gates(idx, |b|));
    GatesCount(e, a + b, |a| + |b|);
  }

  /** Turns `Gates(0, |a|)` into `Gates(0, n)`, so the terms of the caller match literally. */
  lemma GatesCount(e: map<int, ReadyGate>, a: seq<string>, n: nat)
    requires n == |a|
    ensures e + Gates(0, |a|) == e + Gates(0, n)
  {
  }

  lemma GatesSnoc(e: map<int, ReadyGate>, from: nat, a: seq<string>, t: string, idx: nat)
    requires idx == from + |a|
    ensures (e + Gates(from, |a|))[idx := ReadyGate(false)] == e + Gates(from, |a + [t]|)
  {
  }

  lemma PrependPrepend(a: seq<string>, b: seq<string>, s: Scanned)
    ensures Prepend(a, Prepend(b, s)) == Prepend(a + b, s)
  {
  }

  // ----- the source's slicing, related to the index form above -----

  /** String concatenation regrouped; cited where a cut is put back together. */
  lemma StringAssoc(a: string, b: string, c: string)
    ensures a + b + c == a + (b + c)
  {
  }

  /** Cutting `b` at `i` and then its suffix at `j - i` is cutting `b` at `j`. */
  lemma SliceOfSuffix(b: string, i: nat, j: nat)
    requires i <= j <= |b|
    ensures b[..i] + b[i..][..j - i] == b[..j] && b[i..][j - i..] == b[j..]
  {
  }

  /** The prose end of a suffix, shifted back. */
  lemma ProseEndOfSuffix(b: string, i: nat)
    requires i <= |b|
    ensures ProseEnd(b[i..], 0) + i == ProseEnd(b, i)
  {
    FindInSuffix(b, Open, i);
  }

  /** The digit run of a suffix, shifted back. */
  lemma DigitsEndOfSuffix(b: string, isDigit: char -> bool, i: nat)
    requires i <= |b|
    ensures DigitsEnd(b[i..], isDigit, 0) + i == DigitsEnd(b, isDigit, i)
  {
    var d := DigitsEnd(b, isDigit, i);
    DigitsEndAreDigits(b, isDigit, i);
    DigitsEndUnique(b[i..], isDigit, 0, d - i);
  }

  /** A prose end found in the suffix from `i`, shifted back. */
  lemma ProseEndShift(b: string, i: nat, j: nat)
    requires i + j <= |b|
    ensures ProseEnd(b[i..], j) + i == ProseEnd(b, i + j)
  {
    var t := b[i..];
    var f := FindFrom(b, Open, i + j);
    FindFromIsFirst(b, Open, i + j);
    if f == -1 {
      FindFromNone(t, Open, j);
    } else {
      FindFromAt(t, Open, j, f - i);
    }
  }

  /** The sentence that the open branch builds from the suffix after the `【` at `s - 1`, when the
      digit run there has length `n`, is the prefix of `b` up to the prose end after the tag. */
  lemma TagSplice(b: string, s: nat, n: nat, d: nat)
    requires d == s + n && d < |b|
    ensures var t := b[s..];
            var p := ProseEnd(t, n + 1);
            var e := ProseEnd(b, d + 1);
            b[..s] + t[..p] == b[..e] && t[p..] == b[e..]
  {
    ProseEndShift(b, s, n + 1);
    SliceOfSuffix(b, s, ProseEnd(b, d + 1));
  }

  /** `OpenSentence` spelled out on the three indices it computes. */
  lemma OpenSentenceCases(b: string, isDigit: char -> bool, st: nat, d: nat)
    requires Open in b && st == Find(b, Open) && d == DigitsEnd(b, isDigit, st + 1)
    ensures OpenSentence(b, isDigit)
            == if st + 1 < d < |b| && b[d] == Close
               then Emitted(b[..ProseEnd(b, d + 1)], Scanner("", b[ProseEnd(b, d + 1)..]))
               else Waiting(Scanner(b[..st + 1], b[st + 1..]))
  {
  }

  /** `Scan` after one emitting turn, with the completed texts collected so far. */
  lemma ScanAfterEmission(whole: Scanned, texts: seq<string>, cur: Scanner, isDigit: char -> bool)
    requires whole == Prepend(texts, Scan(cur, isDigit))
    requires Open in cur.buffer && Step(cur, isDigit).Emitted?
    ensures whole == Prepend(texts + [Step(cur, isDigit).text], Scan(Step(cur, isDigit).next, isDigit))
  {
    ScanEmitted(cur, isDigit);
    PrependPrepend(texts, [Step(cur, isDigit).text], Scan(Step(cur, isDigit).next, isDigit));
  }

  /** `Feed` over the chunks from `i`, one chunk taken off. */
  lemma FeedFrom(sc: Scanner, chunks: seq<string>, i: nat, isDigit: char -> bool)
    requires i < |chunks|
    ensures var r := Scan(Scanner(sc.sentence, sc.buffer + chunks[i]), isDigit);
            Feed(sc, chunks[i..], isDigit) == Prepend(r.texts, Feed(r.rest, chunks[i + 1..], isDigit))
  {
    assert chunks[i..][1..] == chunks[i + 1..];
  }

  lemma FeedDone(fed: Scanned, texts: seq<string>, sc: Scanner, chunks: seq<string>, i: nat, isDigit: char -> bool)
    requires i == |chunks| && fed == Prepend(texts, Feed(sc, chunks[i..], isDigit))
    ensures fed == Scanned(texts, sc)
  {
    assert chunks[i..] == [];
    TextsNil(texts);
  }

  lemma ConcatAll(chunks: seq<string>, i: nat)
    requires i == |chunks|
    ensures Concat(chunks[..i]) == Concat(chunks)
  {
    assert chunks[..i] == chunks;
  }

  lemma ConcatSnoc(chunks: seq<string>, i: nat)
    requires i < |chunks|
    ensures Concat(chunks[..i + 1]) == Concat(chunks[..i]) + chunks[i]
  {
    assert chunks[..i + 1][..i] == chunks[..i];
  }

  // ----- the producer -----

  /** `StreamProducer`: the stream it consumes, the sentence queue it fills and the shared map of
      per-index events it adds to. */
  class StreamProducer {
    const llmStream: Source
    var sentenceQueue: seq<Item>
    var publishEvents: map<int, ReadyGate>

    constructor (llmStream: Source, sentenceQueue: seq<Item>, publishEvents: map<int, ReadyGate>)
      ensures this.llmStream == llmStream
      ensures this.sentenceQueue == sentenceQueue && this.publishEvents == publishEvents
    {
      this.llmStream := llmStream;
      this.sentenceQueue := sentenceQueue;
      this.publishEvents := publishEvents;
    }

    /** `run`: queues the items of `Segment(llmStream)` after what the queue held, creates one event
        per queued index (replacing any event already stored under that index), and returns the
        response or passes the source's exception on. */
    method Run(isDigit: char -> bool, fix: string -> string) returns (outcome: Outcome)
      modifies this
      ensures var run := Segment(llmStream, isDigit, fix);
              sentenceQueue == old(sentenceQueue) + run.items
              && publishEvents == old(publishEvents) + Gates(0, |run.items|)
              && outcome == run.outcome
    {
      var chunks := llmStream.chunks;
      var accumulatedResponse := "";
      var sentenceIndex := 0;
      var buffer := "";
      var sentence := "";
      ghost var texts: seq<string> := [];
      ghost var fed := Feed(Scanner("", ""), chunks, isDigit);
      var i := 0;
      while i < |chunks|
        invariant 0 <= i <= |chunks|
        invariant accumulatedResponse == Concat(chunks[..i])
        invariant sentenceIndex == |texts|
        invariant fed == Prepend(texts, Feed(Scanner(sentence, buffer), chunks[i..], isDigit))
        invariant sentenceQueue == old(sentenceQueue) + Numbered(texts, 0)
        invariant publishEvents == old(publishEvents) + Gates(0, |texts|)
      {
        var chunk := chunks[i];
        FeedFrom(Scanner(sentence, buffer), chunks, i, isDigit);
        ConcatSnoc(chunks, i);
        buffer := buffer + chunk;
        accumulatedResponse := accumulatedResponse + chunk;
        ghost var more;
        ghost var from := sentenceIndex;
        sentence, buffer, sentenceIndex, more := ScanBuffer(sentence, buffer, sentenceIndex, isDigit);
        QueueAppend(old(sentenceQueue), texts, more, from);
        GatesAppend(old(publishEvents), texts, more, from);
        PrependPrepend(texts, more, Feed(Scanner(sentence, buffer), chunks[i + 1..], isDigit));
        texts := texts + more;
        i := i + 1;
      }
      FeedDone(fed, texts, Scanner(sentence, buffer), chunks, i, isDigit);
      ConcatAll(chunks, i);
      SegmentOfFeed(llmStream, isDigit, fix, fed);
      ghost var run := Segment(llmStream, isDigit, fix);
      if llmStream.raises {
        GatesCount(old(publishEvents), texts, |run.items|);
        outcome := Raised;
        return;
      }
      var finalContent := sentence + buffer;
      if finalContent != "" {
        finalContent := fix(finalContent);
        accumulatedResponse := fix(accumulatedResponse);
        var currentIndex := sentenceIndex;
        Publish(finalContent, currentIndex, true);
        sentenceIndex := sentenceIndex + 1;
        QueueFinal(old(sentenceQueue), texts, finalContent, currentIndex);
        GatesSnoc(old(publishEvents), 0, texts, finalContent, currentIndex);
        GatesCount(old(publishEvents), texts + [finalContent], |run.items|);
      } else {
        GatesCount(old(publishEvents), texts, |run.items|);
      }
      outcome := Returned(accumulatedResponse);
    }

    /** The `while "【" in buffer` loop for one chunk, starting from index `index0`: the sentences it
        completes are those of `Scan`, queued and given events under consecutive indices. */
    method ScanBuffer(sentence0: string, buffer0: string, index0: nat, isDigit: char -> bool)
      returns (sentence: string, buffer: string, sentenceIndex: nat, ghost texts: seq<string>)
      modifies this
      ensures Scan(Scanner(sentence0, buffer0), isDigit) == Scanned(texts, Scanner(sentence, buffer))
      ensures sentenceIndex == index0 + |texts|
      ensures sentenceQueue == old(sentenceQueue) + Numbered(texts, index0)
      ensures publishEvents == old(publishEvents) + Gates(index0, |texts|)
    {
      sentence, buffer, sentenceIndex, texts := sentence0, buffer0, index0, [];
      ghost var whole := Scan(Scanner(sentence0, buffer0), isDigit);
      TextsNil(whole.texts);
      while Open in buffer
        invariant whole == Prepend(texts, Scan(Scanner(sentence, buffer), isDigit))
        invariant sentenceIndex == index0 + |texts|
        invariant sentenceQueue == old(sentenceQueue) + Numbered(texts, index0)
        invariant publishEvents == old(publishEvents) + Gates(index0, |texts|)
        decreases |buffer|
      {
        ghost var cur := Scanner(sentence, buffer);
        var emitted;
        emitted, sentence, buffer := StepBuffer(sentence, buffer, isDigit);
        if !emitted {
          ScanWaiting(cur, isDigit);
          TextsNil(texts);
          return;
        }
        ScanAfterEmission(whole, texts, cur, isDigit);
        var currentIndex := sentenceIndex;
        Publish(sentence, currentIndex, false);
        sentenceIndex := sentenceIndex + 1;
        QueueSnoc(old(sentenceQueue), texts, sentence, index0, currentIndex);
        GatesSnoc(old(publishEvents), index0, texts, sentence, currentIndex);
        texts := texts + [sentence];
        sentence := "";
      }
      ScanIdle(Scanner(sentence, buffer), isDigit);
      TextsNil(texts);
    }

    /** One turn of the loop body. */
    method StepBuffer(sentence0: string, buffer0: string, isDigit: char -> bool)
      returns (emitted: bool, sentence: string, buffer: string)
      requires Open in buffer0
      ensures Step(Scanner(sentence0, buffer0), isDigit)
              == if emitted then Emitted(sentence, Scanner("", buffer)) else Waiting(Scanner(sentence, buffer))
    {
      if sentence0 != "" && Close in buffer0 {
        sentence, buffer := CloseBranch(sentence0, buffer0);
        emitted := true;
      } else {
        emitted, sentence, buffer := OpenBranch(buffer0, isDigit);
      }
    }

    /** The branch for an open sentence and a buffered `】`. */
    method CloseBranch(sentence0: string, buffer0: string) returns (sentence: string, buffer: string)
      requires Close in buffer0
      ensures CloseSentence(Scanner(sentence0, buffer0)) == Emitted(sentence, Scanner("", buffer))
    {
      var endIndex := Find(buffer0, Close);
      sentence, buffer := TakeThrough(sentence0, buffer0, endIndex);
    }

    /** The branch that starts a sentence at the first `【`: `complete` tells whether the tag after it
        is a closed numeric one (the sentence then is emitted) or not (the loop stops). */
    method OpenBranch(buffer0: string, isDigit: char -> bool) returns (complete: bool, sentence: string, buffer: string)
      requires Open in buffer0
      ensures OpenSentence(buffer0, isDigit)
              == if complete then Emitted(sentence, Scanner("", buffer)) else Waiting(Scanner(sentence, buffer))
    {
      var startIndex := Find(buffer0, Open);
      sentence := buffer0[..startIndex + 1];
      buffer := buffer0[startIndex + 1..];
      var numEnd := CountDigits(buffer, isDigit);
      ghost var d := startIndex + 1 + numEnd;
      DigitsEndOfSuffix(buffer0, isDigit, startIndex + 1);
      OpenSentenceCases(buffer0, isDigit, startIndex, d);
      complete := numEnd > 0 && numEnd < |buffer| && buffer[numEnd] == Close;
      assert complete <==> startIndex + 1 < d < |buffer0| && buffer0[d] == Close;
      if complete {
        TagSplice(buffer0, startIndex + 1, numEnd, d);
        sentence, buffer := TakeThrough(sentence, buffer, numEnd);
      } else {
        assert OpenSentence(buffer0, isDigit) == Waiting(Scanner(sentence, buffer));
      }
    }

    /** Lines `sentence += buffer[:k+1]; buffer = buffer[k+1:]` and then the `next_start` step: the
        sentence takes the buffer through index `k` and the prose after it. */
    method TakeThrough(sentence0: string, buffer0: string, k: nat) returns (sentence: string, buffer: string)
      requires k < |buffer0|
      ensures var e := ProseEnd(buffer0, k + 1);
              sentence == sentence0 + buffer0[..e] && buffer == buffer0[e..]
    {
      ghost var e := ProseEnd(buffer0, k + 1);
      sentence := sentence0 + buffer0[..k + 1];
      buffer := buffer0[k + 1..];
      ghost var head, tail := buffer0[..k + 1], buffer;
      sentence, buffer := TakeProse(sentence, buffer);
      ProseEndOfSuffix(buffer0, k + 1);
      SliceOfSuffix(buffer0, k + 1, e);
      StringAssoc(sentence0, head, tail[..e - (k + 1)]);
      assert sentence == sentence0 + buffer0[..e];
      assert buffer == buffer0[e..];
    }

    /** The `next_start` step: the sentence takes the buffer up to its next `【`, or all of it. */
    method TakeProse(sentence0: string, buffer0: string) returns (sentence: string, buffer: string)
      ensures var e := ProseEnd(buffer0, 0);
              sentence == sentence0 + buffer0[..e] && buffer == buffer0[e..]
    {
      var nextStart := Find(buffer0, Open);
      if nextStart != -1 {
        sentence := sentence0 + buffer0[..nextStart];
        buffer := buffer0[nextStart..];
      } else {
        sentence := sentence0 + buffer0;
        buffer := "";
        WholeSlices(buffer0);
      }
    }

    /** The `num_end` loop: the length of the digit run at the start of `buffer`. */
    method CountDigits(buffer: string, isDigit: char -> bool) returns (numEnd: nat)
      ensures numEnd == DigitsEnd(buffer, isDigit, 0)
    {
      numEnd := 0;
      while numEnd < |buffer| && isDigit(buffer[numEnd])
        invariant numEnd <= |buffer|
        invariant DigitsEnd(buffer, isDigit, numEnd) == DigitsEnd(buffer, isDigit, 0)
      {
        numEnd := numEnd + 1;
      }
    }

    /** Creates the event for `index`, then queues the item under it. */
    method Publish(text: string, index: nat, isFinal: bool)
      modifies this
      ensures sentenceQueue == old(sentenceQueue) + [Item(text, index, isFinal)]
      ensures publishEvents == old(publishEvents)[index := ReadyGate(false)]
    {
      publishEvents := publishEvents[index := ReadyGate(false)];
      sentenceQueue := sentenceQueue + [Item(text, index, isFinal)];
    }
  }
}
