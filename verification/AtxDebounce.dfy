/** Publishing the ATX front panel LEDs: the HDD LED's OFF is held back for a
    while so that disk activity does not flicker. Times are milliseconds. */
module AtxDebounce {
  import opened Wrappers

  datatype Atx = Atx(power: bool, hdd: bool)

  /** A timer's due time and the state its callback will publish. */
  datatype Pending = Pending(deadline: int, state: Atx)

  /** `timer` is the one the manager remembers. `running` are the timers that
      have not expired; `waiting` are those that have, whose callbacks still
      wait for the lock. Stopping a timer comes too late for the latter. */
  datatype State = State(
    last: Option<Atx>,
    timer: Option<nat>,
    running: map<nat, Pending>,
    waiting: map<nat, Pending>,
    nextId: nat,
    published: seq<Atx>)

  const INITIAL := State(None, None, map[], map[], 0, [])

  function Publish(s: State, a: Atx): State {
    s.(last := Some(a), published := s.published + [a])
  }

  function Cancelled(s: State): State {
    if s.timer.None? then s else s.(timer := None, running := s.running - {s.timer.value})
  }

  function Started(s: State, p: Pending): State {
    s.(timer := Some(s.nextId), running := s.running[s.nextId := p], nextId := s.nextId + 1)
  }

  /** An LED observation at `now`, with debouncing on. */
  function Observed(s: State, a: Atx, now: int, debounce: int): State {
    if s.last.None? then Publish(s, a)
    else if a.power != s.last.value.power then Publish(Cancelled(s), a)
    else if a.hdd then
      if s.last.value.hdd then Cancelled(s) else Publish(Cancelled(s), a)
    else if !s.last.value.hdd || s.timer.Some? then s
    else Started(s, Pending(now + debounce, a))
  }

  function Expired(s: State, id: nat): State
    requires id in s.running
  {
    s.(running := s.running - {id}, waiting := s.waiting[id := s.running[id]])
  }

  /** The callback forgets the remembered timer, whichever it is. */
  function Called(s: State, id: nat): State
    requires id in s.waiting
  {
    Publish(s.(timer := None, waiting := s.waiting - {id}), s.waiting[id].state)
  }

  class MqttManager {
    const debounceMs: int
    var atxLastPublished: Option<Atx>
    var atxDebounceTimer: Option<nat>
    var published: seq<Atx>
    // The timers of the runtime.
    var running: map<nat, Pending>
    var waiting: map<nat, Pending>
    var nextId: nat

    ghost function View(): State
      reads this
    {
      State(atxLastPublished, atxDebounceTimer, running, waiting, nextId, published)
    }

    constructor (debounceMs: int)
      ensures this.debounceMs == debounceMs && View() == INITIAL
    {
      this.debounceMs := debounceMs;
      atxLastPublished, atxDebounceTimer, published := None, None, [];
      running, waiting, nextId := map[], map[], 0;
    }

    method PublishLocked(state: Atx)
      modifies this`atxLastPublished, this`published
      ensures View() == Publish(old(View()), state)
    {
      atxLastPublished := Some(state);
      published := published + [state];
    }

    method CancelTimerLocked()
      modifies this`atxDebounceTimer, this`running
      ensures View() == Cancelled(old(View()))
    {
      if atxDebounceTimer.Some? {
        running := running - {atxDebounceTimer.value};
        atxDebounceTimer := None;
      }
    }

    /** Nothing while disconnected; straight through without debouncing. */
    method PublishAtxState(state: Atx, now: int, connected: bool)
      modifies this
      ensures View() ==
              if !connected then old(View())
              else if debounceMs <= 0 then old(View()).(published := old(published) + [state])
              else Observed(old(View()), state, now, debounceMs)
    {
      if !connected {
        return;
      }
      if debounceMs <= 0 {
        published := published + [state];
        return;
      }
      var lastState := atxLastPublished;
      if lastState.None? {
        PublishLocked(state);
        return;
      }
      if state.power != lastState.value.power {
        CancelTimerLocked();
        PublishLocked(state);
        return;
      }
      if state.hdd {
        if atxDebounceTimer.Some? {
          CancelTimerLocked();
        }
        if !lastState.value.hdd {
          PublishLocked(state);
        }
        return;
      }
      if !lastState.value.hdd {
        return;
      }
      if atxDebounceTimer.Some? {
        return;
      }
      running := running[nextId := Pending(now + debounceMs, state)];
      atxDebounceTimer, nextId := Some(nextId), nextId + 1;
    }

    /** The callback, once it has the lock. */
    method TimerCallback(id: nat)
      requires id in waiting
      modifies this
      ensures View() == Called(old(View()), id)
    {
      var debounceState := waiting[id].state;
      waiting := waiting - {id};
      atxDebounceTimer := None;
      PublishLocked(debounceState);
    }
  }

  // ---- Every run ----

  datatype Event =
    | Observe(state: Atx, time: int)
    | Expire(id: nat, time: int)
    | Callback(id: nat, time: int)

  predicate Enabled(s: State, e: Event) {
    match e
    case Observe(_, _) => true
    case Expire(id, now) => id in s.running && s.running[id].deadline <= now
    case Callback(id, _) => id in s.waiting
  }

  function After(s: State, e: Event, debounce: int): State
    requires Enabled(s, e)
  {
    match e
    case Observe(a, now) => Observed(s, a, now, debounce)
    case Expire(id, _) => Expired(s, id)
    case Callback(id, _) => Called(s, id)
  }

  /** Time does not run back, timers expire at or after their due time, and a
      callback may come any time after that. */
  predicate IsRun(es: seq<Event>, debounce: int)
    decreases |es|, 0
  {
    es == [] ||
    var init, e := es[..|es| - 1], es[|es| - 1];
    && IsRun(init, debounce)
    && (init != [] ==> init[|init| - 1].time <= e.time)
    && Enabled(Run(init, debounce), e)
  }

  function Run(es: seq<Event>, debounce: int): State
    requires IsRun(es, debounce)
    decreases |es|, 1
  {
    if es == [] then INITIAL else After(Run(es[..|es| - 1], debounce), es[|es| - 1], debounce)
  }

  function LastObserved(es: seq<Event>): Option<Atx> {
    if es == [] then None
    else if es[|es| - 1].Observe? then Some(es[|es| - 1].state)
    else LastObserved(es[..|es| - 1])
  }

  /** Since the last observation there was a callback, and the latest one
      published another state than the observed one. */
  predicate IsStale(es: seq<Event>, debounce: int)
    requires IsRun(es, debounce)
  {
    es != [] &&
    var init := es[..|es| - 1];
    match es[|es| - 1]
    case Observe(_, _) => false
    case Expire(_, _) => IsStale(init, debounce)
    case Callback(id, _) => Some(Run(init, debounce).waiting[id].state) != LastObserved(es)
  }

  /** No callback came after its timer had been cancelled. */
  predicate IsPrompt(es: seq<Event>, debounce: int)
    requires IsRun(es, debounce)
  {
    es == [] ||
    var init, e := es[..|es| - 1], es[|es| - 1];
    IsPrompt(init, debounce) && (e.Callback? ==> Run(init, debounce).timer == Some(e.id))
  }

  /** The timer that the manager remembers. */
  function Remembered(s: State): Option<Pending> {
    if s.timer.None? then None
    else if s.timer.value in s.running then Some(s.running[s.timer.value])
    else if s.timer.value in s.waiting then Some(s.waiting[s.timer.value])
    else None
  }

  /** The timer was started by observation `k`, which turned the HDD LED off. */
  ghost predicate StartedAt(es: seq<Event>, k: int, p: Pending, debounce: int) {
    0 <= k < |es| && es[k] == Observe(p.state, p.deadline - debounce) && !p.state.hdd
  }

  /** Everything observed since was the same, and no callback came. */
  ghost predicate QuietSince(es: seq<Event>, k: int, p: Pending, debounce: int) {
    && StartedAt(es, k, p, debounce)
    && forall j :: k <= j < |es| ==> !es[j].Callback? && (es[j].Observe? ==> es[j].state == p.state)
  }

  ghost predicate HasStarted(es: seq<Event>, p: Pending, debounce: int) {
    exists k :: StartedAt(es, k, p, debounce)
  }

  ghost predicate TimersAreSound(es: seq<Event>, s: State, debounce: int) {
    && IdsAreSound(s)
    && (forall id :: id in s.running ==> HasStarted(es, s.running[id], debounce))
    && (forall id :: id in s.waiting ==>
          HasStarted(es, s.waiting[id], debounce) && es != [] && s.waiting[id].deadline <= es[|es| - 1].time)
  }

  ghost predicate LastIsSound(es: seq<Event>, s: State, debounce: int)
    requires IsRun(es, debounce)
  {
    && (s.published == [] <==> s.last.None?)
    && (s.last.Some? ==> s.last.value == s.published[|s.published| - 1])
    && (s.last.None? <==> LastObserved(es).None?)
    && (s.timer.None? ==> (s.last == LastObserved(es) <==> !IsStale(es, debounce)))
    && (s.timer.Some? ==> Remembered(s).Some? && IsHeldBack(es, s, Remembered(s).value, debounce))
  }

  /** An HDD OFF was observed last and is not published yet. */
  ghost predicate IsHeldBack(es: seq<Event>, s: State, p: Pending, debounce: int) {
    && s.last == Some(Atx(p.state.power, true))
    && LastObserved(es) == Some(p.state)
    && exists k :: QuietSince(es, k, p, debounce)
  }

  lemma StartedBefore(es: seq<Event>, e: Event, p: Pending, debounce: int)
    requires HasStarted(es, p, debounce)
    ensures HasStarted(es + [e], p, debounce)
  {
    var k :| StartedAt(es, k, p, debounce);
    assert StartedAt(es + [e], k, p, debounce);
  }

  lemma QuietContinues(es: seq<Event>, e: Event, k: int, p: Pending, debounce: int)
    requires QuietSince(es, k, p, debounce) && !e.Callback? && (e.Observe? ==> e.state == p.state)
    ensures QuietSince(es + [e], k, p, debounce)
  {
  }

  ghost predicate IdsAreSound(s: State) {
    && s.running.Keys !! s.waiting.Keys
    && (forall id :: id in s.running ==> id < s.nextId)
    && (forall id :: id in s.waiting ==> id < s.nextId)
    && (s.timer.Some? ==> s.timer.value in s.running || s.timer.value in s.waiting)
  }

  lemma CancelKeepsIds(s: State)
    requires IdsAreSound(s)
    ensures IdsAreSound(Cancelled(s))
    ensures forall id :: id in Cancelled(s).running ==> id in s.running && Cancelled(s).running[id] == s.running[id]
  {
  }

  lemma StepKeepsIds(s: State, e: Event, debounce: int)
    requires IdsAreSound(s) && Enabled(s, e)
    ensures IdsAreSound(After(s, e, debounce))
  {
    CancelKeepsIds(s);
    hide Cancelled;
  }

  /** Where the timers of the next state come from. */
  lemma RunningAfter(s: State, e: Event, debounce: int, id: nat)
    requires Enabled(s, e) && id in After(s, e, debounce).running
    ensures var p := After(s, e, debounce).running[id];
            || (id in s.running && p == s.running[id])
            || (e.Observe? && p == Pending(e.time + debounce, e.state) && !e.state.hdd)
  {
  }

  lemma WaitingAfter(s: State, e: Event, debounce: int, id: nat)
    requires Enabled(s, e) && id in After(s, e, debounce).waiting
    ensures var p := After(s, e, debounce).waiting[id];
            || (id in s.waiting && p == s.waiting[id])
            || (e.Expire? && id == e.id && p == s.running[id] && p.deadline <= e.time)
  {
  }

  lemma StepKeepsTimers(es: seq<Event>, s: State, e: Event, debounce: int)
    requires TimersAreSound(es, s, debounce) && Enabled(s, e) && (es != [] ==> es[|es| - 1].time <= e.time)
    ensures TimersAreSound(es + [e], After(s, e, debounce), debounce)
  {
    StepKeepsIds(s, e, debounce);
    hide IdsAreSound, After, Enabled;
    var longer, s' := es + [e], After(s, e, debounce);
    forall id | id in s'.running
      ensures HasStarted(longer, s'.running[id], debounce)
    {
      RunningAfter(s, e, debounce, id);
      if id in s.running && s'.running[id] == s.running[id] {
        StartedBefore(es, e, s.running[id], debounce);
      } else {
        assert StartedAt(longer, |es|, s'.running[id], debounce);
      }
    }
    forall id | id in s'.waiting
      ensures HasStarted(longer, s'.waiting[id], debounce) && s'.waiting[id].deadline <= e.time
    {
      WaitingAfter(s, e, debounce, id);
      StartedBefore(es, e, s'.waiting[id], debounce);
    }
  }

  lemma {:induction false} RunKeepsTimers(es: seq<Event>, debounce: int)
    requires IsRun(es, debounce)
    ensures TimersAreSound(es, Run(es, debounce), debounce)
  {
    if es != [] {
      var init, e := es[..|es| - 1], es[|es| - 1];
      RunKeepsTimers(init, debounce);
      StepKeepsTimers(init, Run(init, debounce), e, debounce);
      assert init + [e] == es;
    }
  }

  lemma NotStaleAfterObserve(es: seq<Event>, e: Event, debounce: int)
    requires IsRun(es + [e], debounce) && e.Observe?
    ensures !IsStale(es + [e], debounce) && LastObserved(es + [e]) == Some(e.state)
  {
  }

  /** An OFF that was held back and is observed again stays held back. */
  lemma StillHeldBack(es: seq<Event>, s: State, p: Pending, e: Event, debounce: int)
    requires IsHeldBack(es, s, p, debounce) && e.Observe? && e.state == p.state
    ensures IsHeldBack(es + [e], s, p, debounce)
  {
    LastObservedAppend(es, e);
    var k :| QuietSince(es, k, p, debounce);
    QuietContinues(es, e, k, p, debounce);
  }

  lemma NewlyHeldBack(es: seq<Event>, s: State, e: Event, debounce: int)
    requires e.Observe? && !e.state.hdd && s.last == Some(Atx(e.state.power, true))
    ensures var s' := Started(s, Pending(e.time + debounce, e.state));
            Remembered(s').Some? && IsHeldBack(es + [e], s', Remembered(s').value, debounce)
  {
    LastObservedAppend(es, e);
    assert QuietSince(es + [e], |es|, Pending(e.time + debounce, e.state), debounce);
  }

  /** A stale state is the doing of a callback alone: right after any
      observation what is published, or held back, is the observed state. */
  lemma ObserveKeepsLast(es: seq<Event>, s: State, e: Event, debounce: int)
    requires IsRun(es + [e], debounce) && IsRun(es, debounce)
    requires e.Observe? && LastIsSound(es, s, debounce)
    ensures LastIsSound(es + [e], Observed(s, e.state, e.time, debounce), debounce)
  {
    var s' := Observed(s, e.state, e.time, debounce);
    NotStaleAfterObserve(es, e, debounce);
    hide IsRun, IsStale, LastObserved, QuietSince;
    if s'.timer.Some? {
      if s.timer.Some? {
        var p := Remembered(s).value;
        assert s' == s && p.state == e.state by {
          HeldBackIsOff(es, s, p, debounce);
        }
        StillHeldBack(es, s, p, e, debounce);
      } else {
        NewlyHeldBack(es, s, e, debounce);
      }
    }
  }

  lemma HeldBackIsOff(es: seq<Event>, s: State, p: Pending, debounce: int)
    requires IsHeldBack(es, s, p, debounce)
    ensures !p.state.hdd
  {
    var k :| QuietSince(es, k, p, debounce);
  }

  lemma ExpireKeepsLast(es: seq<Event>, s: State, e: Event, debounce: int)
    requires IsRun(es + [e], debounce) && IsRun(es, debounce) && s == Run(es, debounce)
    requires e.Expire? && Enabled(s, e) && IdsAreSound(s) && LastIsSound(es, s, debounce)
    ensures LastIsSound(es + [e], Expired(s, e.id), debounce)
  {
    var longer, s' := es + [e], Expired(s, e.id);
    assert longer[..|es|] == es;
    assert Remembered(s') == Remembered(s);
    if s'.timer.Some? {
      var k :| QuietSince(es, k, Remembered(s).value, debounce);
      QuietContinues(es, e, k, Remembered(s).value, debounce);
    }
  }

  lemma CallbackKeepsLast(es: seq<Event>, s: State, e: Event, debounce: int)
    requires IsRun(es + [e], debounce) && IsRun(es, debounce) && s == Run(es, debounce)
    requires e.Callback? && Enabled(s, e) && TimersAreSound(es, s, debounce) && LastIsSound(es, s, debounce)
    ensures LastIsSound(es + [e], Called(s, e.id), debounce)
  {
    var longer := es + [e];
    assert longer[..|es|] == es;
    var k :| StartedAt(es, k, s.waiting[e.id], debounce);
    WasObserved(es, k);
  }

  lemma {:induction false} WasObserved(es: seq<Event>, k: nat)
    requires k < |es| && es[k].Observe?
    ensures LastObserved(es).Some?
  {
    if !es[|es| - 1].Observe? {
      WasObserved(es[..|es| - 1], k);
    }
  }

  lemma {:induction false} RunKeepsLast(es: seq<Event>, debounce: int)
    requires IsRun(es, debounce)
    ensures LastIsSound(es, Run(es, debounce), debounce)
  {
    if es != [] {
      var init, e := es[..|es| - 1], es[|es| - 1];
      assert init + [e] == es;
      var s := Run(init, debounce);
      RunKeepsLast(init, debounce);
      RunKeepsTimers(init, debounce);
      match e
      case Observe(_, _) => ObserveKeepsLast(init, s, e, debounce);
      case Expire(_, _) => ExpireKeepsLast(init, s, e, debounce);
      case Callback(_, _) => CallbackKeepsLast(init, s, e, debounce);
    }
  }

  /** In every run, with no timer remembered, the published state is the last
      observed one exactly when no callback has published another since. */
  lemma PublishedIsTrueExactlyWhen(es: seq<Event>, debounce: int)
    requires IsRun(es, debounce) && LastObserved(es).Some? && Run(es, debounce).timer.None?
    ensures var s := Run(es, debounce);
            && s.published != []
            && (s.published[|s.published| - 1] == LastObserved(es).value <==> !IsStale(es, debounce))
  {
    RunKeepsLast(es, debounce);
  }

  /** While a timer is remembered an HDD OFF is held back: the power LED is
      published as observed, and the HDD LED still as ON. */
  lemma HeldBackState(es: seq<Event>, debounce: int)
    requires IsRun(es, debounce) && Run(es, debounce).timer.Some?
    ensures var s := Run(es, debounce);
            && s.published != [] && LastObserved(es).Some? && !LastObserved(es).value.hdd
            && s.published[|s.published| - 1] == Atx(LastObserved(es).value.power, true)
  {
    RunKeepsLast(es, debounce);
    var s := Run(es, debounce);
    var k :| QuietSince(es, k, Remembered(s).value, debounce);
  }

  /** Only a callback whose timer is no longer the remembered one can publish
      another state than the observed one. */
  lemma StaleIsLate(es: seq<Event>, debounce: int)
    requires IsRun(es, debounce) && es != [] && es[|es| - 1].Callback? && IsStale(es, debounce)
    ensures Run(es[..|es| - 1], debounce).timer != Some(es[|es| - 1].id)
  {
    RunKeepsLast(es[..|es| - 1], debounce);
    RunKeepsTimers(es[..|es| - 1], debounce);
  }

  lemma {:induction false} PromptIsNotStale(es: seq<Event>, debounce: int)
    requires IsRun(es, debounce) && IsPrompt(es, debounce)
    ensures !IsStale(es, debounce)
  {
    if es != [] {
      PromptIsNotStale(es[..|es| - 1], debounce);
      if es[|es| - 1].Callback? && IsStale(es, debounce) {
        StaleIsLate(es, debounce);
      }
    }
  }

  ghost predicate NoRepeats(published: seq<Atx>) {
    forall i :: 0 <= i < |published| - 1 ==> published[i] != published[i + 1]
  }

  lemma PublishKeepsNoRepeats(s: State, a: Atx)
    requires NoRepeats(s.published) && (s.published != [] ==> s.published[|s.published| - 1] != a)
    ensures NoRepeats(Publish(s, a).published)
  {
  }

  /** No callback brought the state that was published last. */
  predicate NoCallbackRepeats(es: seq<Event>, debounce: int)
    requires IsRun(es, debounce)
  {
    es == [] ||
    var init, e := es[..|es| - 1], es[|es| - 1];
    && NoCallbackRepeats(init, debounce)
    && (e.Callback? ==> Run(init, debounce).last != Some(Run(init, debounce).waiting[e.id].state))
  }

  lemma PublishRepeats(s: State, a: Atx)
    requires s.published != [] && (s.published[|s.published| - 1] == a || !NoRepeats(s.published))
    ensures !NoRepeats(Publish(s, a).published)
  {
    var longer, n := s.published + [a], |s.published|;
    if s.published[n - 1] == a {
      assert longer[n - 1] == longer[n];
    } else {
      var i :| 0 <= i < n - 1 && s.published[i] == s.published[i + 1];
      assert longer[i] == longer[i + 1];
    }
  }

  lemma PublishAppends(s: State, e: Event, debounce: int)
    requires Enabled(s, e) && (s.published == [] <==> s.last.None?)
    requires s.last.Some? ==> s.last.value == s.published[|s.published| - 1]
    ensures var s' := After(s, e, debounce);
            || s'.published == s.published
            || (e.Observe? && s'.published == s.published + [e.state] && s.last != Some(e.state))
            || (e.Callback? && s'.published == s.published + [s.waiting[e.id].state])
    ensures e.Callback? ==> After(s, e, debounce).published == s.published + [s.waiting[e.id].state]
  {
  }

  /** In every run consecutive published states differ exactly when no callback
      brought the state that was published last. */
  lemma {:induction false} NoRepeatsExactlyWhen(es: seq<Event>, debounce: int)
    requires IsRun(es, debounce)
    ensures NoRepeats(Run(es, debounce).published) <==> NoCallbackRepeats(es, debounce)
  {
    if es != [] {
      var init, e := es[..|es| - 1], es[|es| - 1];
      var s, s' := Run(init, debounce), Run(es, debounce);
      NoRepeatsExactlyWhen(init, debounce);
      RunKeepsLast(init, debounce);
      PublishAppends(s, e, debounce);
      if e.Callback? {
        CallbackFollowsPublished(init, e, debounce);
      }
      if s'.published != s.published {
        var a := if e.Observe? then e.state else s.waiting[e.id].state;
        hide Run, IsRun, After, LastIsSound;
        if s.published != [] && (s.published[|s.published| - 1] == a || !NoRepeats(s.published)) {
          PublishRepeats(s, a);
        } else {
          PublishKeepsNoRepeats(s, a);
        }
      }
    }
  }

  lemma CallbackFollowsPublished(es: seq<Event>, e: Event, debounce: int)
    requires IsRun(es, debounce) && e.Callback? && Enabled(Run(es, debounce), e)
    ensures Run(es, debounce).last.Some? && LastObserved(es).Some?
  {
    RunKeepsTimers(es, debounce);
    RunKeepsLast(es, debounce);
    var k :| StartedAt(es, k, Run(es, debounce).waiting[e.id], debounce);
    WasObserved(es, k);
  }

  lemma {:induction false} PromptHasNoRepeats(es: seq<Event>, debounce: int)
    requires IsRun(es, debounce) && IsPrompt(es, debounce)
    ensures NoCallbackRepeats(es, debounce)
  {
    if es != [] {
      var init, e := es[..|es| - 1], es[|es| - 1];
      PromptHasNoRepeats(init, debounce);
      if e.Callback? {
        RunKeepsLast(init, debounce);
        RunKeepsTimers(init, debounce);
        HeldBackState(init, debounce);
      }
    }
  }

  /** Since the last observation there was a callback, and the latest one
      published another power LED than the observed one. */
  predicate IsPowerStale(es: seq<Event>, debounce: int)
    requires IsRun(es, debounce)
  {
    es != [] &&
    var init := es[..|es| - 1];
    match es[|es| - 1]
    case Observe(_, _) => false
    case Expire(_, _) => IsPowerStale(init, debounce)
    case Callback(id, _) =>
      LastObserved(es).None? || Run(init, debounce).waiting[id].state.power != LastObserved(es).value.power
  }

  /** In every run the published power LED is the observed one exactly when no
      callback has published another since. */
  lemma {:induction false} PowerIsTrueExactlyWhen(es: seq<Event>, debounce: int)
    requires IsRun(es, debounce) && LastObserved(es).Some?
    ensures var s := Run(es, debounce);
            && s.published != []
            && (s.published[|s.published| - 1].power == LastObserved(es).value.power <==> !IsPowerStale(es, debounce))
  {
    RunKeepsLast(es, debounce);
    if !es[|es| - 1].Observe? {
      PowerIsTrueExactlyWhen(es[..|es| - 1], debounce);
    }
  }

  /** In every prompt run consecutive published states differ, the published
      power LED is the last observed one, and with no timer remembered the
      whole published state is. */
  lemma PublishedFollowsObserved(es: seq<Event>, debounce: int)
    requires IsRun(es, debounce) && IsPrompt(es, debounce)
    ensures var s := Run(es, debounce);
            && NoRepeats(s.published)
            && (LastObserved(es).Some? ==>
                  && s.published != []
                  && s.published[|s.published| - 1].power == LastObserved(es).value.power
                  && (s.timer.None? ==> s.published[|s.published| - 1] == LastObserved(es).value))
  {
    PromptHasNoRepeats(es, debounce);
    NoRepeatsExactlyWhen(es, debounce);
    PromptIsNotStale(es, debounce);
    RunKeepsLast(es, debounce);
  }

  /** A callback always publishes an HDD OFF that was observed at least the
      debounce time ago; if its timer is still the remembered one, nothing but
      that state was observed in between. */
  lemma TimerWaits(es: seq<Event>, debounce: int) returns (k: int)
    requires IsRun(es, debounce) && es != [] && es[|es| - 1].Callback?
    ensures 0 <= k < |es| - 1
    ensures var off := Run(es, debounce).published[|Run(es, debounce).published| - 1];
            && !off.hdd
            && es[k].Observe? && es[k].state == off && es[k].time + debounce <= es[|es| - 1].time
            && (Run(es[..|es| - 1], debounce).timer == Some(es[|es| - 1].id) ==>
                  forall j :: k <= j < |es| - 1 && es[j].Observe? ==> es[j].state == off)
  {
    var init, id := es[..|es| - 1], es[|es| - 1].id;
    var s := Run(init, debounce);
    RunKeepsTimers(init, debounce);
    RunKeepsLast(init, debounce);
    var p := s.waiting[id];
    if s.timer == Some(id) {
      k :| QuietSince(init, k, p, debounce);
    } else {
      k :| StartedAt(init, k, p, debounce);
    }
    assert forall j :: k <= j < |init| ==> es[j] == init[j];
  }

  /** A callback that was on its way when `a` was observed leaves a wrong state
      published exactly when `a` is not the state it brings; no timer is left
      then to correct it. */
  lemma LateCallbackIsStale(es: seq<Event>, id: nat, a: Atx, now: int, debounce: int)
    requires IsRun(es, debounce) && id in Run(es, debounce).waiting && (es != [] ==> es[|es| - 1].time <= now)
    ensures var late := es + [Observe(a, now)] + [Callback(id, now)];
            && IsRun(late, debounce)
            && Run(late, debounce).timer.None?
            && (Run(late, debounce).last == Some(a) <==> a == Run(es, debounce).waiting[id].state)
            && (IsStale(late, debounce) <==> a != Run(es, debounce).waiting[id].state)
  {
    var observed := es + [Observe(a, now)];
    var late := observed + [Callback(id, now)];
    ExtendRun(es, Observe(a, now), debounce);
    ObserveKeepsWaiting(Run(es, debounce), a, now, debounce);
    ExtendRun(observed, Callback(id, now), debounce);
    LastObservedAppend(es, Observe(a, now));
    LastObservedAppend(observed, Callback(id, now));
    StaleAppend(observed, id, now, debounce);
    hide Run, IsRun, Observed, IsStale, LastObserved;
  }

  lemma ExtendRun(es: seq<Event>, e: Event, debounce: int)
    requires IsRun(es, debounce) && (es != [] ==> es[|es| - 1].time <= e.time) && Enabled(Run(es, debounce), e)
    ensures IsRun(es + [e], debounce) && Run(es + [e], debounce) == After(Run(es, debounce), e, debounce)
  {
    assert (es + [e])[..|es|] == es;
  }

  lemma ObserveKeepsWaiting(s: State, a: Atx, now: int, debounce: int)
    ensures Observed(s, a, now, debounce).waiting == s.waiting
  {
  }

  lemma LastObservedAppend(es: seq<Event>, e: Event)
    ensures LastObserved(es + [e]) == if e.Observe? then Some(e.state) else LastObserved(es)
  {
    assert (es + [e])[..|es|] == es;
  }

  lemma StaleAppend(es: seq<Event>, id: nat, now: int, debounce: int)
    requires IsRun(es, debounce) && IsRun(es + [Callback(id, now)], debounce) && id in Run(es, debounce).waiting
    ensures IsStale(es + [Callback(id, now)], debounce) <==>
            Some(Run(es, debounce).waiting[id].state) != LastObserved(es + [Callback(id, now)])
  {
    assert (es + [Callback(id, now)])[..|es|] == es;
  }

  const ON := Atx(true, true)
  const OFF := Atx(true, false)

  /** On, off, and on again just as the timer expires: its callback publishes
      OFF while the LED is on. */
  lemma StaleRun(d: int) returns (es: seq<Event>)
    requires 0 < d
    ensures es == [Observe(ON, 0), Observe(OFF, 0), Expire(0, d), Observe(ON, d), Callback(0, d)]
    ensures IsRun(es, d) && IsStale(es, d) && Run(es, d).last == Some(OFF)
  {
    var start := ExpiredRun(d);
    LateCallbackIsStale(start, 0, ON, d, d);
    hide IsRun, Run, IsStale;
    es := start + [Observe(ON, d)] + [Callback(0, d)];
    ExtendRun(start, Observe(ON, d), d);
    ExtendRun(start + [Observe(ON, d)], Callback(0, d), d);
  }

  lemma ExpiredRun(d: int) returns (es: seq<Event>)
    requires 0 < d
    ensures es == [Observe(ON, 0), Observe(OFF, 0), Expire(0, d)] && IsRun(es, d)
    ensures Run(es, d) == State(Some(ON), Some(0), map[], map[0 := Pending(d, OFF)], 1, [ON])
  {
    es := [];
    assert Run(es, d) == INITIAL;
    hide IsRun, Run;
    ExtendRun(es, Observe(ON, 0), d);
    es := es + [Observe(ON, 0)];
    ExtendRun(es, Observe(OFF, 0), d);
    es := es + [Observe(OFF, 0)];
    assert Run(es, d) == State(Some(ON), Some(0), map[0 := Pending(d, OFF)], map[], 1, [ON]);
    ExtendRun(es, Expire(0, d), d);
    es := es + [Expire(0, d)];
  }

  /** Off once more, and a second timer expires before either callback has got
      the lock. */
  lemma TwiceExpiredRun(d: int) returns (es: seq<Event>)
    requires 0 < d
    ensures es == [Observe(ON, 0), Observe(OFF, 0), Expire(0, d), Observe(ON, d), Observe(OFF, d), Expire(1, 2 * d)]
    ensures IsRun(es, d)
    ensures Run(es, d) == State(Some(ON), Some(1), map[], map[0 := Pending(d, OFF), 1 := Pending(2 * d, OFF)], 2, [ON])
  {
    hide IsRun, Run;
    es := ExpiredRun(d);
    ExtendRun(es, Observe(ON, d), d);
    es := es + [Observe(ON, d)];
    assert Run(es, d) == State(Some(ON), None, map[], map[0 := Pending(d, OFF)], 1, [ON]);
    ExtendRun(es, Observe(OFF, d), d);
    es := es + [Observe(OFF, d)];
    assert Run(es, d) == State(Some(ON), Some(1), map[1 := Pending(2 * d, OFF)], map[0 := Pending(d, OFF)], 2, [ON]);
    ExtendRun(es, Expire(1, 2 * d), d);
    es := es + [Expire(1, 2 * d)];
  }

  /** Then both callbacks come: OFF is published twice in a row. */
  lemma RepeatingRun(d: int) returns (es: seq<Event>)
    requires 0 < d
    ensures es == [Observe(ON, 0), Observe(OFF, 0), Expire(0, d), Observe(ON, d), Observe(OFF, d), Expire(1, 2 * d),
                   Callback(0, 2 * d), Callback(1, 2 * d)]
    ensures IsRun(es, d) && Run(es, d).published == [ON, OFF, OFF]
  {
    hide IsRun, Run;
    es := TwiceExpiredRun(d);
    ExtendRun(es, Callback(0, 2 * d), d);
    es := es + [Callback(0, 2 * d)];
    assert Run(es, d) == State(Some(OFF), None, map[], map[1 := Pending(2 * d, OFF)], 2, [ON, OFF]);
    ExtendRun(es, Callback(1, 2 * d), d);
    es := es + [Callback(1, 2 * d)];
  }
}
