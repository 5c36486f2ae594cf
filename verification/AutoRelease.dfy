/** Auto-release timers against keypress threads and session clears, as a
    state machine whose steps are the locked sections of the source: any
    interleaving of them is a run. Time is in milliseconds. */
module AutoRelease {
  import opened Wrappers
  import opened HidKeys
  import UsbKeyboard

  const RELEASE_AFTER: nat := 100

  /** A timer in the map: still to fire at `deadline`, or fired with its
      callback not yet past the timer lock. */
  datatype Timer = Armed(deadline: int) | Fired

  /** What an input thread still has to do for its current keypress. */
  datatype InputPc = Idle | ToSchedule(key: Byte) | ToCancel(key: Byte)

  /** `looking` and `releasing` are callbacks that have removed their timer:
      the first still have to look for their key in the buffer, the second have
      found it and are about to release it. `clears` counts sessions that have
      cancelled all timers and not yet sent the empty report. */
  datatype State = State(
    keys: seq<Byte>,
    timers: map<Byte, Timer>,
    fired: multiset<Byte>,
    looking: multiset<Byte>,
    releasing: multiset<Byte>,
    input: seq<InputPc>,
    clears: nat,
    now: int)

  /** One locked section (or, for `Fire` and `Tick`, the runtime clock). */
  datatype Step =
    | Press(thread: nat, key: Byte)
    | Release(thread: nat, key: Byte)
    | Schedule(thread: nat)
    | Cancel(thread: nat)
    | Fire(key: Byte)
    | TakeTimer(key: Byte)
    | Look(key: Byte)
    | AutoReleaseKey(key: Byte)
    | Delay(duration: int)
    | CancelAll
    | ClearReport
    | SafetyClear
    | Tick(time: int)

  function Start(threads: nat): State {
    State(NO_KEYS, map[], multiset{}, multiset{}, multiset{}, seq(threads, _ => Idle), 0, 0)
  }

  function Scheduled(timers: map<Byte, Timer>, key: Byte, now: int): map<Byte, Timer> {
    timers[key := Armed(now + RELEASE_AFTER)]
  }

  /** Every timer in the map is set anew, one that has just fired included. */
  function Delayed(timers: map<Byte, Timer>, deadline: int): map<Byte, Timer> {
    map k | k in timers :: Armed(deadline)
  }

  /** The timer map of the gadget. Each method is one locked section: the timer
      parts of the steps `Schedule`, `Cancel`, `CancelAll`, `Delay` and
      `TakeTimer`, in this order. */
  class AutoReleaseTimers {
    var timers: map<Byte, Timer>

    constructor ()
      ensures timers == map[]
    {
      timers := map[];
    }

    method ScheduleAutoRelease(key: Byte, now: int)
      modifies this
      ensures timers == Scheduled(old(timers), key, now) == old(timers)[key := Armed(now + 100)]
    {
      timers := timers[key := Armed(now + RELEASE_AFTER)];
    }

    method CancelAutoRelease(key: Byte)
      modifies this
      ensures timers == old(timers) - {key}
    {
      if key in timers {
        timers := timers - {key};
      }
    }

    method CancelAllAutoReleaseTimers()
      modifies this
      ensures timers == map[]
    {
      while timers != map[]
        decreases |timers|
      {
        var key :| key in timers;
        timers := timers - {key};
      }
    }

    method DelayAutoReleaseWithDuration(duration: int, now: int)
      modifies this
      ensures timers == Delayed(old(timers), now + duration)
      ensures timers.Keys == old(timers).Keys && forall k :: k in timers ==> timers[k] == Armed(now + duration)
    {
      var todo := timers.Keys;
      while todo != {}
        invariant todo <= timers.Keys == old(timers).Keys
        invariant forall k :: k in timers ==> timers[k] == if k in todo then old(timers)[k] else Armed(now + duration)
        decreases |todo|
      {
        var key :| key in todo;
        timers := timers[key := Armed(now + duration)];
        todo := todo - {key};
      }
    }

    /** The first part of a callback: without a timer in the map it goes no
        further, otherwise the timer is taken out. */
    method TakeTimer(key: Byte) returns (found: bool)
      modifies this
      ensures found == (key in old(timers)) && timers == old(timers) - {key}
    {
      found := key in timers;
      if found {
        timers := timers - {key};
      }
    }
  }

  /** The buffer after a keypress: media keys and modifiers leave it alone. */
  function BufferAfter(ks: seq<Byte>, key: Byte, press: bool): (r: seq<Byte>)
    requires |ks| == BUFFER_SIZE
    ensures |r| == BUFFER_SIZE
  {
    if IsMedia(key) || IsModifier(key) then ks
    else Settled(if press then Pressed(ks, key) else Released(ks, key))
  }

  /** The buffer step is the one the gadget object takes, delivered or not. */
  lemma BufferStepIsKeypress(s: UsbKeyboard.KeyState, key: Byte, press: bool, ok: bool)
    requires ValidBuffer(s.keys)
    ensures UsbKeyboard.AfterKeypress(s, key, press, ok).keys == BufferAfter(s.keys, key, press)
  {
  }

  predicate IsIdle(s: State, thread: nat) {
    thread < |s.input| && s.input[thread].Idle?
  }

  predicate Enabled(s: State, a: Step) {
    match a
    case Press(t, _) => IsIdle(s, t)
    case Release(t, _) => IsIdle(s, t)
    case Schedule(t) => t < |s.input| && s.input[t].ToSchedule?
    case Cancel(t) => t < |s.input| && s.input[t].ToCancel?
    case Fire(k) => k in s.timers && s.timers[k].Armed? && s.timers[k].deadline <= s.now
    case TakeTimer(k) => k in s.fired
    case Look(k) => k in s.looking
    case AutoReleaseKey(k) => k in s.releasing
    case Delay(d) => 0 < d <= RELEASE_AFTER
    case ClearReport => s.clears > 0
    // The clock does not run past a timer that is due.
    case Tick(t) => s.now <= t && forall k :: k in s.timers && s.timers[k].Armed? ==> t <= s.timers[k].deadline
    case _ => true
  }

  function Next(s: State, a: Step): (s': State)
    requires |s.keys| == BUFFER_SIZE && Enabled(s, a)
    ensures |s'.keys| == BUFFER_SIZE && |s'.input| == |s.input|
  {
    match a
    case Press(t, k) =>
      s.(keys := BufferAfter(s.keys, k, true),
      input := s.input[t := if IsModifier(k) then Idle else ToSchedule(k)])
    case Release(t, k) =>
      s.(keys := BufferAfter(s.keys, k, false),
      input := s.input[t := if IsModifier(k) then Idle else ToCancel(k)])
    case Schedule(t) =>
      s.(timers := Scheduled(s.timers, s.input[t].key, s.now), input := s.input[t := Idle])
    case Cancel(t) =>
      s.(timers := s.timers - {s.input[t].key}, input := s.input[t := Idle])
    case Fire(k) =>
      s.(timers := s.timers[k := Fired], fired := s.fired + multiset{k})
    case TakeTimer(k) =>
      var s1 := s.(fired := s.fired - multiset{k});
      if k in s.timers then s1.(timers := s.timers - {k}, looking := s.looking + multiset{k}) else s1
    case Look(k) =>
      var s1 := s.(looking := s.looking - multiset{k});
      if k in s.keys then s1.(releasing := s.releasing + multiset{k}) else s1
    case AutoReleaseKey(k) =>
      s.(keys := BufferAfter(s.keys, k, false), releasing := s.releasing - multiset{k})
    case Delay(d) =>
      s.(timers := Delayed(s.timers, s.now + d))
    case CancelAll => s.(timers := map[], clears := s.clears + 1)
    case ClearReport => s.(keys := NO_KEYS, clears := s.clears - 1)
    case SafetyClear => s.(keys := NO_KEYS)
    case Tick(t) => s.(now := t)
  }

  ghost predicate IsRun(s: State, steps: seq<Step>)
    requires |s.keys| == BUFFER_SIZE
    decreases steps
  {
    steps == [] || (Enabled(s, steps[0]) && IsRun(Next(s, steps[0]), steps[1..]))
  }

  ghost function End(s: State, steps: seq<Step>): (r: State)
    requires |s.keys| == BUFFER_SIZE && IsRun(s, steps)
    ensures |r.keys| == BUFFER_SIZE && |r.input| == |s.input|
    decreases steps
  {
    if steps == [] then s else End(Next(s, steps[0]), steps[1..])
  }

  // ---- Nothing is left without a release ----

  /** Something will still take `k` out of the buffer or put a timer on it. */
  ghost predicate Covered(s: State, k: Byte) {
    || k in s.timers
    || k in s.looking
    || k in s.releasing
    || ToSchedule(k) in s.input
    || s.clears > 0
  }

  ghost predicate KeysCovered(s: State) {
    forall k :: k in s.keys && k != 0 ==> Covered(s, k)
  }

  /** A timer that has fired has its callback on the way; a live one is due
      within the release time. */
  ghost predicate TimersLive(s: State) {
    forall k :: k in s.timers ==>
      match s.timers[k]
      case Armed(d) => s.now <= d <= s.now + RELEASE_AFTER
      case Fired => k in s.fired
  }

  /** A key about to lose its timer is already out of the buffer. */
  ghost predicate CancelsAreSafe(s: State) {
    forall t :: 0 <= t < |s.input| && s.input[t].ToCancel? && s.input[t].key != 0 ==> s.input[t].key !in s.keys
  }

  ghost predicate NoKeyTwice(ks: seq<Byte>) {
    forall i, j :: 0 <= i < j < |ks| && ks[i] != 0 ==> ks[i] != ks[j]
  }

  ghost predicate Inv(s: State) {
    && ValidBuffer(s.keys)
    && NoKeyTwice(s.keys)
    && (forall k :: k in s.keys ==> !IsModifier(k))
    && KeysCovered(s)
    && TimersLive(s)
    && CancelsAreSafe(s)
  }

  lemma PressBuffer(ks: seq<Byte>, k: Byte)
    requires ValidBuffer(ks) && NoKeyTwice(ks)
    ensures var r := BufferAfter(ks, k, true);
            ValidBuffer(r) && NoKeyTwice(r) && forall x :: x in r && x != 0 ==> x in ks || (x == k && !IsModifier(k))
  {
    if !IsMedia(k) && !IsModifier(k) {
      PressKeepsValid(ks, k);
      var s := Slot(ks, k);
    }
  }

  lemma ReleaseBuffer(ks: seq<Byte>, k: Byte)
    requires ValidBuffer(ks) && NoKeyTwice(ks)
    ensures var r := BufferAfter(ks, k, false);
            ValidBuffer(r) && NoKeyTwice(r) && forall x :: x in r && x != 0 ==> x in ks
    ensures !IsModifier(k) && k != 0 ==> k !in BufferAfter(ks, k, false)
  {
    if !IsMedia(k) && !IsModifier(k) {
      ReleaseKeepsValid(ks, k);
      ReleasedKeys(ks, k);
    }
  }

  lemma ReleasedKeys(ks: seq<Byte>, k: Byte)
    requires ValidBuffer(ks) && NoKeyTwice(ks)
    ensures var r := Released(ks, k);
            NoKeyTwice(r) && forall x :: x in r && x != 0 ==> x in ks && x != k
  {
    ReleasedShape(ks, k);
    hide Released, IsMedia;
    var s, r := Slot(ks, k), Released(ks, k);
    if s < BUFFER_SIZE && ks[s] != 0 {
      forall x | x in r && x != 0
        ensures x in ks && x != k
      {
        var j :| 0 <= j < BUFFER_SIZE && r[j] == x;
        assert r[j] == ks[if j < s then j else j + 1];
      }
      forall i, j | 0 <= i < j < BUFFER_SIZE && r[i] != 0
        ensures r[i] != r[j]
      {
        if j < 5 {
          assert r[i] == ks[if i < s then i else i + 1] && r[j] == ks[if j < s then j else j + 1];
        }
      }
    } else if k in ks {
      assert k == 0;
    }
  }

  /** Which keys a change of the pending inputs leaves waiting for a timer. */
  lemma InputUpdate(input: seq<InputPc>, t: nat, pc: InputPc)
    requires t < |input|
    ensures forall q :: q in input && q != input[t] ==> q in input[t := pc]
    ensures pc in input[t := pc]
  {
    assert input[t := pc][t] == pc;
    forall q | q in input && q != input[t]
      ensures q in input[t := pc]
    {
      var i :| 0 <= i < |input| && input[i] == q;
      assert input[t := pc][i] == q;
    }
  }

  lemma PressKeepsInv(s: State, t: nat, k: Byte)
    requires Inv(s) && |s.input| <= 1 && Enabled(s, Press(t, k))
    ensures Inv(Next(s, Press(t, k)))
  {
    PressBuffer(s.keys, k);
    InputUpdate(s.input, t, if IsModifier(k) then Idle else ToSchedule(k));
  }

  lemma ReleaseKeepsInv(s: State, t: nat, k: Byte)
    requires Inv(s) && |s.input| <= 1 && Enabled(s, Release(t, k))
    ensures Inv(Next(s, Release(t, k)))
  {
    ReleaseBuffer(s.keys, k);
    InputUpdate(s.input, t, if IsModifier(k) then Idle else ToCancel(k));
  }

  lemma ScheduleKeepsInv(s: State, t: nat)
    requires Inv(s) && Enabled(s, Schedule(t))
    ensures Inv(Next(s, Schedule(t)))
  {
    InputUpdate(s.input, t, Idle);
  }

  lemma CancelKeepsInv(s: State, t: nat)
    requires Inv(s) && Enabled(s, Cancel(t))
    ensures Inv(Next(s, Cancel(t)))
  {
    InputUpdate(s.input, t, Idle);
  }

  lemma FireKeepsInv(s: State, k: Byte)
    requires Inv(s) && Enabled(s, Fire(k))
    ensures Inv(Next(s, Fire(k)))
  {
    hide ValidBuffer, NoKeyTwice;
  }

  lemma TakeTimerKeepsInv(s: State, k: Byte)
    requires Inv(s) && Enabled(s, TakeTimer(k))
    ensures Inv(Next(s, TakeTimer(k)))
  {
    hide ValidBuffer, NoKeyTwice;
  }

  lemma LookKeepsInv(s: State, k: Byte)
    requires Inv(s) && Enabled(s, Look(k))
    ensures Inv(Next(s, Look(k)))
  {
    hide ValidBuffer, NoKeyTwice;
  }

  lemma AutoReleaseKeepsInv(s: State, k: Byte)
    requires Inv(s) && Enabled(s, AutoReleaseKey(k))
    ensures Inv(Next(s, AutoReleaseKey(k)))
  {
    ReleaseBuffer(s.keys, k);
  }

  lemma OtherKeepsInv(s: State, a: Step)
    requires Inv(s) && Enabled(s, a) && (a.Delay? || a.CancelAll? || a.ClearReport? || a.SafetyClear? || a.Tick?)
    ensures Inv(Next(s, a))
  {
  }

  lemma StepKeepsInv(s: State, a: Step)
    requires Inv(s) && |s.input| <= 1 && Enabled(s, a)
    ensures Inv(Next(s, a))
  {
    match a
    case Press(t, k) => PressKeepsInv(s, t, k);
    case Release(t, k) => ReleaseKeepsInv(s, t, k);
    case Schedule(t) => ScheduleKeepsInv(s, t);
    case Cancel(t) => CancelKeepsInv(s, t);
    case AutoReleaseKey(k) => AutoReleaseKeepsInv(s, k);
    case Fire(k) => FireKeepsInv(s, k);
    case TakeTimer(k) => TakeTimerKeepsInv(s, k);
    case Look(k) => LookKeepsInv(s, k);
    case _ => OtherKeepsInv(s, a);
  }

  lemma {:induction false} RunKeepsInv(s: State, steps: seq<Step>)
    requires Inv(s) && |s.input| <= 1 && IsRun(s, steps)
    ensures Inv(End(s, steps))
    decreases steps
  {
    if steps != [] {
      StepKeepsInv(s, steps[0]);
      RunKeepsInv(Next(s, steps[0]), steps[1..]);
    }
  }

  /** With one input thread, in every interleaving, each key in the buffer has
      a live timer due within 100 ms, a release on the way, a timer about to be
      scheduled, or a clear about to run. */
  lemma NoKeyIsStranded(steps: seq<Step>, k: Byte)
    requires IsRun(Start(1), steps)
    requires k in End(Start(1), steps).keys && k != 0
    ensures var s := End(Start(1), steps);
            || (k in s.timers && s.timers[k].Armed? && s.now <= s.timers[k].deadline <= s.now + RELEASE_AFTER)
            || (k in s.timers && k in s.fired)
            || k in s.looking || k in s.releasing
            || ToSchedule(k) in s.input
            || s.clears > 0
  {
    RunKeepsInv(Start(1), steps);
    assert Covered(End(Start(1), steps), k);
  }

  /** Once nothing is going on any more, nothing is pressed. A callback whose
      timer was cancelled may still be on its way; it will find no timer. */
  lemma QuietMeansReleased(steps: seq<Step>)
    requires IsRun(Start(1), steps)
    requires var e := End(Start(1), steps);
             e.timers == map[] && e.looking == e.releasing == multiset{} && e.input == [Idle] && e.clears == 0
    ensures End(Start(1), steps).keys == NO_KEYS
  {
    RunKeepsInv(Start(1), steps);
    var e := End(Start(1), steps);
    forall i | 0 <= i < BUFFER_SIZE
      ensures e.keys[i] == 0
    {
      assert e.keys[i] in e.keys && !Covered(e, e.keys[i]);
    }
  }

  // ---- Silence releases ----

  predicate IsSilent(a: Step) {
    !a.Press? && !a.Schedule? && !a.Delay?
  }

  ghost predicate DueBy(s: State, d: int) {
    forall k :: k in s.timers && s.timers[k].Armed? ==> s.timers[k].deadline <= d
  }

  lemma {:induction false} SilenceKeepsDeadlines(s: State, steps: seq<Step>, d: int)
    requires |s.keys| == BUFFER_SIZE && IsRun(s, steps)
    requires forall i :: 0 <= i < |steps| ==> IsSilent(steps[i])
    requires DueBy(s, d)
    ensures DueBy(End(s, steps), d)
    decreases steps
  {
    if steps != [] {
      assert IsSilent(steps[0]);
      SilenceKeepsDeadlines(Next(s, steps[0]), steps[1..], d);
    }
  }

  /** Once more than 100 ms pass without a press or a keepalive no timer is
      left running: whatever is still in the buffer is already being released. */
  lemma SilenceReleases(s: State, steps: seq<Step>, k: Byte)
    requires Inv(s) && |s.input| <= 1 && IsRun(s, steps)
    requires forall i :: 0 <= i < |steps| ==> IsSilent(steps[i])
    requires End(s, steps).now > s.now + RELEASE_AFTER
    requires k in End(s, steps).keys && k != 0
    ensures var e := End(s, steps);
            || (k in e.timers && k in e.fired)
            || k in e.looking || k in e.releasing
            || ToSchedule(k) in e.input
            || e.clears > 0
  {
    RunKeepsInv(s, steps);
    SilenceKeepsDeadlines(s, steps, s.now + RELEASE_AFTER);
    assert Covered(End(s, steps), k);
  }

  // ---- Not before the deadline ----

  /** `k` is down, its timer is due at `d`, and no release is on its way. */
  ghost predicate IsHeld(s: State, k: Byte, d: int) {
    && ValidBuffer(s.keys) && NoKeyTwice(s.keys) && ROLLOVER !in s.keys
    && k in s.keys && k != 0
    && k in s.timers && s.timers[k] == Armed(d)
    && k !in s.fired && k !in s.looking && k !in s.releasing
  }

  /** A step that is neither about `k` nor about all keys, nor moves timers. */
  predicate LeavesAlone(s: State, a: Step, k: Byte) {
    match a
    case Press(_, _) => false
    case Schedule(_) => false
    case Release(_, j) => j != k
    case Cancel(t) => t < |s.input| && s.input[t].ToCancel? && s.input[t].key != k
    case Delay(_) => false
    case CancelAll => false
    case ClearReport => false
    case SafetyClear => false
    case _ => true
  }

  lemma ReleaseKeepsOthers(ks: seq<Byte>, j: Byte, k: Byte)
    requires ValidBuffer(ks) && NoKeyTwice(ks) && ROLLOVER !in ks && k in ks && k != 0 && j != k
    ensures k in BufferAfter(ks, j, false) && ROLLOVER !in BufferAfter(ks, j, false)
  {
    if !IsMedia(j) && !IsModifier(j) {
      ReleasedShape(ks, j);
      hide Released, IsMedia, IsModifier;
      var s, r := Slot(ks, j), Released(ks, j);
      if s < BUFFER_SIZE && ks[s] != 0 {
        var i :| 0 <= i < BUFFER_SIZE && ks[i] == k;
        assert i != s;
        assert r[if i < s then i else i - 1] == k;
        forall x | x in r
          ensures x != ROLLOVER
        {
          var n :| 0 <= n < BUFFER_SIZE && r[n] == x;
          assert n < 5 ==> r[n] == ks[if n < s then n else n + 1];
        }
      }
    }
  }

  lemma HeldStep(s: State, a: Step, k: Byte, d: int)
    requires IsHeld(s, k, d) && Enabled(s, a) && LeavesAlone(s, a, k) && s.now < d
    ensures IsHeld(Next(s, a), k, d)
  {
    hide ValidBuffer, NoKeyTwice, BufferAfter;
    match a
    case Release(t, j) =>
      ReleaseBuffer(s.keys, j);
      ReleaseKeepsOthers(s.keys, j, k);
    case AutoReleaseKey(j) =>
      ReleaseBuffer(s.keys, j);
      ReleaseKeepsOthers(s.keys, j, k);
    case _ =>
      OtherHeldStep(s, a, k, d);
  }

  lemma OtherHeldStep(s: State, a: Step, k: Byte, d: int)
    requires IsHeld(s, k, d) && Enabled(s, a) && LeavesAlone(s, a, k) && s.now < d && !a.Release? && !a.AutoReleaseKey?
    ensures IsHeld(Next(s, a), k, d)
  {
    hide ValidBuffer, NoKeyTwice, BufferAfter;
  }

  lemma {:induction false} TimeGoesOn(s: State, steps: seq<Step>)
    requires |s.keys| == BUFFER_SIZE && IsRun(s, steps)
    ensures s.now <= End(s, steps).now
    decreases steps
  {
    if steps != [] {
      TimeGoesOn(Next(s, steps[0]), steps[1..]);
    }
  }

  ghost predicate AllLeaveAlone(s: State, steps: seq<Step>, k: Byte)
    requires |s.keys| == BUFFER_SIZE && IsRun(s, steps)
    decreases steps
  {
    steps == [] || (LeavesAlone(s, steps[0], k) && AllLeaveAlone(Next(s, steps[0]), steps[1..], k))
  }

  /** A key is not released before its deadline, whatever happens to others. */
  lemma {:induction false} HeldUntilDeadline(s: State, steps: seq<Step>, k: Byte, d: int)
    requires |s.keys| == BUFFER_SIZE && IsRun(s, steps)
    requires IsHeld(s, k, d) && AllLeaveAlone(s, steps, k) && End(s, steps).now < d
    ensures IsHeld(End(s, steps), k, d)
    decreases steps
  {
    TimeGoesOn(s, steps);
    if steps != [] {
      hide IsHeld;
      HeldStep(s, steps[0], k, d);
      HeldUntilDeadline(Next(s, steps[0]), steps[1..], k, d);
    }
  }

  /** The deadline is 100 ms after the timer is scheduled, and a keepalive puts
      it off to the time it asks for. */
  lemma DeadlinesAre(s: State, k: Byte, t: nat, d: int, duration: int)
    requires ValidBuffer(s.keys) && NoKeyTwice(s.keys) && ROLLOVER !in s.keys && k in s.keys && k != 0
    requires k !in s.fired && k !in s.looking && k !in s.releasing
    ensures Enabled(s, Schedule(t)) && s.input[t].key == k ==> IsHeld(Next(s, Schedule(t)), k, s.now + 100)
    ensures Enabled(s, Delay(duration)) && IsHeld(s, k, d) ==> IsHeld(Next(s, Delay(duration)), k, s.now + duration)
  {
    hide ValidBuffer, NoKeyTwice;
  }

  // ---- Why one input thread ----

  lemma {:induction false} ExtendRun(s: State, steps: seq<Step>, a: Step)
    requires |s.keys| == BUFFER_SIZE && IsRun(s, steps) && Enabled(End(s, steps), a)
    ensures IsRun(s, steps + [a]) && End(s, steps + [a]) == Next(End(s, steps), a)
    decreases steps
  {
    if steps != [] {
      ExtendRun(Next(s, steps[0]), steps[1..], a);
      assert (steps + [a])[1..] == steps[1..] + [a];
    }
  }

  const ONE_KEY: seq<Byte> := [4, 0, 0, 0, 0, 0]

  lemma OneKeyBuffer()
    ensures BufferAfter(NO_KEYS, 4, true) == ONE_KEY
    ensures BufferAfter(ONE_KEY, 4, false) == NO_KEYS
  {
  }

  lemma EmptyRun(threads: nat)
    ensures IsRun(Start(threads), []) && End(Start(threads), []) == Start(threads)
  {
  }

  /** Some input threads and a timer map, and nothing else going on. */
  function Plain(keys: seq<Byte>, timers: map<Byte, Timer>, input: seq<InputPc>): State {
    State(keys, timers, multiset{}, multiset{}, multiset{}, input, 0, 0)
  }

  ghost predicate Steps(s: State, a: Step, s': State) {
    |s.keys| == BUFFER_SIZE && Enabled(s, a) && Next(s, a) == s'
  }

  lemma ReleaseStep(input: seq<InputPc>)
    requires |input| > 0 && input[0].Idle?
    ensures Steps(Plain(NO_KEYS, map[], input), Release(0, 4), Plain(NO_KEYS, map[], input[0 := ToCancel(4)]))
  {
    NothingToRelease();
    hide BufferAfter;
  }

  lemma NothingToRelease()
    ensures BufferAfter(NO_KEYS, 4, false) == NO_KEYS
  {
  }

  lemma PressStep(input: seq<InputPc>, t: nat)
    requires t < |input| && input[t].Idle?
    ensures Steps(Plain(NO_KEYS, map[], input), Press(t, 4), Plain(ONE_KEY, map[], input[t := ToSchedule(4)]))
  {
    OneKeyBuffer();
    hide BufferAfter;
  }

  lemma ScheduleStep(input: seq<InputPc>, t: nat)
    requires t < |input| && input[t] == ToSchedule(4)
    ensures Steps(Plain(ONE_KEY, map[], input), Schedule(t), Plain(ONE_KEY, map[4 := Armed(100)], input[t := Idle]))
  {
  }

  lemma CancelStep(input: seq<InputPc>)
    requires |input| > 0 && input[0] == ToCancel(4)
    ensures Steps(Plain(ONE_KEY, map[4 := Armed(100)], input), Cancel(0), Plain(ONE_KEY, map[], input[0 := Idle]))
  {
  }

  lemma StartIsPlain(threads: nat)
    ensures Start(threads) == Plain(NO_KEYS, map[], seq(threads, _ => Idle))
  {
  }

  /** With two or more input threads a release's cancel can hit the timer of a
      later press: key 4 stays in the buffer with nothing to release it. */
  lemma TwoThreadsStrand(threads: nat) returns (steps: seq<Step>)
    requires threads >= 2
    ensures IsRun(Start(threads), steps)
    ensures 4 in End(Start(threads), steps).keys && !Covered(End(Start(threads), steps), 4)
  {
    var idle: seq<InputPc> := seq(threads, _ => Idle);
    EmptyRun(threads);
    StartIsPlain(threads);
    ReleaseStep(idle);
    PressStep(idle[0 := ToCancel(4)], 1);
    ScheduleStep(idle[0 := ToCancel(4)][1 := ToSchedule(4)], 1);
    CancelStep(idle[0 := ToCancel(4)][1 := ToSchedule(4)][1 := Idle]);
    hide IsRun, End, Next, Enabled, Plain, Start;
    steps := [];
    ExtendRun(Start(threads), steps, Release(0, 4));
    steps := steps + [Release(0, 4)];
    ExtendRun(Start(threads), steps, Press(1, 4));
    steps := steps + [Press(1, 4)];
    ExtendRun(Start(threads), steps, Schedule(1));
    steps := steps + [Schedule(1)];
    ExtendRun(Start(threads), steps, Cancel(0));
    steps := steps + [Cancel(0)];
    var end := idle[0 := ToCancel(4)][1 := ToSchedule(4)][1 := Idle][0 := Idle];
    assert end == idle;
    KeyFourIsStranded(idle);
  }

  lemma KeyFourIsStranded(input: seq<InputPc>)
    requires forall i :: 0 <= i < |input| ==> input[i].Idle?
    ensures var e := Plain(ONE_KEY, map[], input); 4 in e.keys && !Covered(e, 4)
  {
    assert ONE_KEY[0] == 4;
  }

  /** Every key is covered in every run with this many input threads. */
  ghost predicate AlwaysCovered(threads: nat) {
    forall steps :: IsRun(Start(threads), steps) ==> KeysCovered(End(Start(threads), steps))
  }

  /** Coverage holds for one input thread (or none), and for no more. */
  lemma CoveredExactlyWhen(threads: nat)
    ensures AlwaysCovered(threads) <==> threads <= 1
  {
    if threads <= 1 {
      assert Inv(Start(threads));
      forall steps | IsRun(Start(threads), steps)
        ensures KeysCovered(End(Start(threads), steps))
      {
        RunKeepsInv(Start(threads), steps);
      }
    } else {
      var steps := TwoThreadsStrand(threads);
      assert !KeysCovered(End(Start(threads), steps));
    }
  }

  /** A clear whose report is skipped because the USB port is not ready leaves
      a key with nothing to release it exactly when the key was down and only
      its timer would have released it. */
  lemma SkippedClearStrands(s: State, k: Byte)
    requires |s.keys| == BUFFER_SIZE && k != 0
    ensures var cancelled := Next(s, CancelAll);
            var skipped := cancelled.(clears := cancelled.clears - 1);
            k in skipped.keys && !Covered(skipped, k) <==>
            && k in s.keys
            && k !in s.looking && k !in s.releasing && ToSchedule(k) !in s.input && s.clears == 0
  {
  }

  /** Such a state is reached by pressing one key. */
  lemma SkippedClearIsReached() returns (steps: seq<Step>)
    ensures steps == [Press(0, 4), Schedule(0)] && IsRun(Start(1), steps)
    ensures var cancelled := Next(End(Start(1), steps), CancelAll);
            var skipped := cancelled.(clears := cancelled.clears - 1);
            4 in skipped.keys && !Covered(skipped, 4)
  {
    EmptyRun(1);
    StartIsPlain(1);
    assert seq(1, _ => Idle) == [Idle];
    PressStep([Idle], 0);
    ScheduleStep([ToSchedule(4)], 0);
    hide IsRun, End;
    steps := [];
    ExtendRun(Start(1), steps, Press(0, 4));
    steps := steps + [Press(0, 4)];
    ExtendRun(Start(1), steps, Schedule(0));
    steps := steps + [Schedule(0)];
    var e := End(Start(1), steps);
    assert e == Plain(ONE_KEY, map[4 := Armed(100)], [Idle]) && ONE_KEY[0] == 4;
    SkippedClearStrands(e, 4);
  }
}
