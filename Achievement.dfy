/** The achievement pop-up store of the front end: achievements wait in a FIFO queue, one at a time
    becomes `current` and visible, a timer hides it, and a second, shorter timer clears it and shows
    the next one. Timers are explicit steps here: a step that starts a timer returns its delay. */
module Achievement {
  import opened PyBuiltins

  datatype AchievementKind = Common | Rare

  /** One queued or shown achievement. `None` stands for an optional field that is absent. */
  datatype Achievement = Achievement(
    id: string, title: string, message: string, kind: AchievementKind,
    imgUrl: Option<string>, audioUrl: Option<string>, duration: Option<int>)

  /** What a caller hands to `addAchievement`: an achievement without its id. */
  datatype AchievementInput = AchievementInput(
    title: string, message: string, kind: AchievementKind,
    imgUrl: Option<string>, audioUrl: Option<string>, duration: Option<int>)

  const DefaultDuration := 3500

  /** The delay between hiding an achievement and clearing it (the fade-out). */
  const FadeDelay := 500

  /** `{ id, duration: DEFAULT_DURATION, ...achievement }`: the caller's fields, the generated id, and
      the default duration unless the caller gave one (the spread overrides the default). */
  function Stamp(a: AchievementInput, id: string): (r: Achievement)
    ensures r.id == id && r.title == a.title && r.message == a.message && r.kind == a.kind
    ensures r.imgUrl == a.imgUrl && r.audioUrl == a.audioUrl
    ensures a.duration.Some? ==> r.duration == a.duration
    ensures a.duration.None? ==> r.duration == Some(DefaultDuration)
  {
    Achievement(id, a.title, a.message, a.kind, a.imgUrl, a.audioUrl,
                if a.duration.Some? then a.duration else Some(DefaultDuration))
  }

  /** `next.duration || DEFAULT_DURATION`: a missing or zero duration falls back to the default. */
  function HideDelay(a: Achievement): (d: int)
    ensures d != 0
    ensures a.duration.Some? && a.duration.value != 0 ==> d == a.duration.value
    ensures a.duration.None? || a.duration.value == 0 ==> d == DefaultDuration
  {
    if a.duration.Some? && a.duration.value != 0 then a.duration.value else DefaultDuration
  }

  /** The store's state. */
  datatype Store = Store(queue: seq<Achievement>, current: Option<Achievement>, isVisible: bool)

  const InitialStore := Store([], None, false)

  /** The outcome of a step: the new state and the achievement it put on screen, if any (whose
      hide timer the step started, with delay `HideDelay`). */
  datatype Step = Step(store: Store, started: Option<Achievement>)

  function Started(st: Step): seq<Achievement>
  {
    if st.started.Some? then [st.started.value] else []
  }

  /** `processQueue`: nothing while an achievement is visible or the queue is empty; otherwise the
      head leaves the queue and becomes the visible `current`. */
  function Process(s: Store): (r: Step)
    ensures r.started.Some? <==> !s.isVisible && s.queue != []
    ensures r.started.None? ==> r.store == s
    ensures r.started.Some? ==>
              r.started.value == s.queue[0] && r.store.current == r.started && r.store.isVisible
    ensures Started(r) + r.store.queue == s.queue
  {
    if s.isVisible || |s.queue| == 0 then Step(s, None)
    else
      var next := s.queue[0];
      Step(Store(s.queue[1..], Some(next), true), Some(next))
  }

  /** `addAchievement`: append the stamped achievement at the tail, then `processQueue`. */
  function Add(s: Store, a: AchievementInput, id: string): (r: Step)
    ensures Started(r) + r.store.queue == s.queue + [Stamp(a, id)]
    ensures s.isVisible ==> r == Step(s.(queue := s.queue + [Stamp(a, id)]), None)
    ensures !s.isVisible ==> r.started.Some? && r.store.isVisible
  {
    Process(s.(queue := s.queue + [Stamp(a, id)]))
  }

  /** `hideAchievement`: hide at once (the achievement stays `current` during the fade). */
  function Hide(s: Store): (r: Store)
    ensures !r.isVisible && r.queue == s.queue && r.current == s.current
  {
    s.(isVisible := false)
  }

  /** The fade timer of `hideAchievement`: clear `current`, then `processQueue`. */
  function Fade(s: Store): (r: Step)
    ensures Started(r) + r.store.queue == s.queue
    ensures s.isVisible ==> r == Step(s.(current := None), None)
    ensures !s.isVisible && s.queue == [] ==> r == Step(Store([], None, false), None)
    ensures !s.isVisible && s.queue != [] ==>
              r.started == Some(s.queue[0]) && r.store == Store(s.queue[1..], Some(s.queue[0]), true)
  {
    Process(s.(current := None))
  }

  /** The things that can happen to the store: a caller adds an achievement, a hide timer fires, a
      fade timer fires. */
  datatype Event = Added(input: AchievementInput, id: string) | HideTimer | FadeTimer

  function Apply(s: Store, e: Event): Step
  {
    match e
    case Added(a, id) => Add(s, a, id)
    case HideTimer => Step(Hide(s), None)
    case FadeTimer => Fade(s)
  }

  /** A run from the initial store: the final state and the achievements shown, in order. */
  datatype Replayed = Replayed(store: Store, shown: seq<Achievement>)

  function Replay(events: seq<Event>): Replayed
  {
    if events == [] then Replayed(InitialStore, [])
    else
      var before := Replay(events[..|events| - 1]);
      var st := Apply(before.store, events[|events| - 1]);
      Replayed(st.store, before.shown + Started(st))
  }

  /** The achievements the events add, stamped, in order. */
  function AddedItems(events: seq<Event>): seq<Achievement>
  {
    if events == [] then []
    else
      var e := events[|events| - 1];
      AddedItems(events[..|events| - 1]) + AddedBy(e)
  }

  /** The achievement an event adds, stamped, if any. */
  function AddedBy(e: Event): seq<Achievement>
  {
    if e.Added? then [Stamp(e.input, e.id)] else []
  }

  /** One step loses nothing and overtakes nothing: what it shows, followed by the new queue, is the
      old queue followed by what it adds. */
  lemma ApplyConserves(s: Store, e: Event)
    ensures Started(Apply(s, e)) + Apply(s, e).store.queue == s.queue + AddedBy(e)
  {
  }

  /** First in, first out, whatever the order of additions and timers: the achievements shown so
      far followed by those still queued are exactly the ones added, in the order they were added.
      None is lost, duplicated or overtaken. */
  lemma {:induction false} ShownInAdditionOrder(events: seq<Event>)
    ensures Replay(events).shown + Replay(events).store.queue == AddedItems(events)
  {
    if events != [] {
      var front := events[..|events| - 1];
      var e := events[|events| - 1];
      ShownInAdditionOrder(front);
      var before := Replay(front);
      var st := Apply(before.store, e);
      ApplyConserves(before.store, e);
      assert AddedItems(events) == AddedItems(front) + AddedBy(e);
      FifoStep(before.shown, before.store.queue, Started(st), st.store.queue, AddedItems(front), AddedBy(e));
    }
  }

  /** The sequence bookkeeping of one step of `ShownInAdditionOrder`. */
  lemma FifoStep(shown: seq<Achievement>, queue: seq<Achievement>, started: seq<Achievement>,
                 queue': seq<Achievement>, added: seq<Achievement>, adds: seq<Achievement>)
    requires shown + queue == added && started + queue' == queue + adds
    ensures (shown + started) + queue' == added + adds
  {
    calc {
      (shown + started) + queue';
      shown + (started + queue');
      shown + (queue + adds);
      (shown + queue) + adds;
    }
  }

  /** Each step puts at most one achievement on screen, and only when none was visible. */
  lemma AtMostOneShownPerStep(s: Store, e: Event)
    ensures |Started(Apply(s, e))| <= 1
    ensures Apply(s, e).started.Some? ==> !s.isVisible && Apply(s, e).store.isVisible
  {
  }

  /** The fade timer of one achievement clears `current` even when another achievement has been put
      on screen since its hide: an achievement added during the fade of the previous one is shown
      at once, and the pending fade then leaves the store visible with nothing `current`. */
  lemma FadeClearsTheNextAchievement(a: AchievementInput, b: AchievementInput, idA: string, idB: string)
    ensures var s := Replay([Added(a, idA), HideTimer, Added(b, idB), FadeTimer]).store;
            s.isVisible && s.current.None? && s.queue == []
  {
    var e := [Added(a, idA), HideTimer, Added(b, idB), FadeTimer];
    assert e[..3] == [Added(a, idA), HideTimer, Added(b, idB)];
    assert e[..3][..2] == [Added(a, idA), HideTimer];
    assert e[..3][..2][..1] == [Added(a, idA)];
    assert e[..3][..2][..1][..0] == [];
    assert Replay([Added(a, idA)]).store == Store([], Some(Stamp(a, idA)), true);
    assert Replay(e[..3]).store == Store([], Some(Stamp(b, idB)), true);
  }

  /** The pinia store `useAchievementStore`. */
  class AchievementStore {
    var queue: seq<Achievement>
    var current: Option<Achievement>
    var isVisible: bool

    function State(): Store
      reads this
    {
      Store(queue, current, isVisible)
    }

    constructor ()
      ensures State() == InitialStore
    {
      queue := [];
      current := None;
      isVisible := false;
    }

    /** `addAchievement(achievement)`, with the generated id passed in. `hideAfter` is the delay of
        the hide timer started, if the achievement (or an earlier one) went on screen. */
    method AddAchievement(a: AchievementInput, id: string) returns (hideAfter: Option<int>)
      modifies this
      ensures var st := Add(old(State()), a, id);
              State() == st.store && hideAfter == (if st.started.Some? then Some(HideDelay(st.started.value)) else None)
    {
      queue := queue + [Stamp(a, id)];
      hideAfter := ProcessQueue();
    }

    /** `processQueue()`. */
    method ProcessQueue() returns (hideAfter: Option<int>)
      modifies this
      ensures var st := Process(old(State()));
              State() == st.store && hideAfter == (if st.started.Some? then Some(HideDelay(st.started.value)) else None)
    {
      if isVisible || |queue| == 0 {
        return None;
      }
      var next := queue[0];
      queue := queue[1..];
      current := Some(next);
      isVisible := true;
      return Some(HideDelay(next));
    }

    /** `hideAchievement()`: returns the delay of the fade timer it starts. */
    method HideAchievement() returns (fadeAfter: int)
      modifies this`isVisible
      ensures State() == Hide(old(State())) && fadeAfter == FadeDelay
    {
      isVisible := false;
      return FadeDelay;
    }

    /** The callback of the fade timer started by `hideAchievement`. */
    method FadeOut() returns (hideAfter: Option<int>)
      modifies this
      ensures var st := Fade(old(State()));
              State() == st.store && hideAfter == (if st.started.Some? then Some(HideDelay(st.started.value)) else None)
    {
      current := None;
      hideAfter := ProcessQueue();
    }
  }
}
