/** The keyboard part of the USB gadget: the stored key state, the consumer
    bits, and what the USB host has been told about both. */
module UsbKeyboard {
  import opened Wrappers
  import opened HidKeys

  /** The last keyboard and consumer reports that reached the USB host. */
  datatype HostView = HostView(modifier: bv8, keys: seq<Byte>, consumer: bv8)

  datatype KeyState = KeyState(modifier: bv8, keys: seq<Byte>, consumer: bv8, host: HostView)

  datatype KeyReport = KeyReport(modifier: bv8, keys: seq<Byte>)

  /** What happens to the auto-release timer of a key after a keypress. */
  datatype TimerStep = LeaveTimer | ScheduleTimer | CancelTimer

  const INITIAL := KeyState(0, NO_KEYS, 0, HostView(0, NO_KEYS, 0))

  // ---- One event ----

  /** Every event says whether its HID writes reached the host; a failed write
      is reported as an error and changes nothing on the host. */
  datatype Event =
    | Keypress(key: Byte, press: bool, ok: bool)
    | Report(modifier: bv8, keys: seq<Byte>, consumerOk: bool, ok: bool)

  function MediaRequest(consumer: bv8, key: Byte, press: bool): bv8 {
    if press then consumer | MediaBit(key) else consumer & !MediaBit(key)
  }

  function ModifierAfter(modifier: bv8, key: Byte, press: bool): bv8 {
    if !IsModifier(key) then modifier
    else if press then modifier | ModifierMask(key)
    else modifier & !ModifierMask(key)
  }

  /** The six slots sent to the host for a keypress on the keyboard page. */
  function Wire(keys: seq<Byte>, key: Byte, press: bool): (r: seq<Byte>)
    requires |keys| == BUFFER_SIZE
    ensures |r| == BUFFER_SIZE
  {
    if IsModifier(key) then keys
    else if press then Pressed(keys, key)
    else Released(keys, key)
  }

  function SendConsumer(s: KeyState, bits: bv8, ok: bool): KeyState {
    if ok then s.(consumer := bits, host := s.host.(consumer := bits)) else s
  }

  function SendKeys(s: KeyState, modifier: bv8, wire: seq<Byte>, ok: bool): KeyState
    requires |wire| == BUFFER_SIZE
  {
    s.(modifier := modifier, keys := Settled(wire),
    host := if ok then s.host.(modifier := modifier, keys := wire) else s.host)
  }

  function ConsumerUpdated(s: KeyState, bits: bv8, ok: bool): KeyState {
    if bits != 0 || s.consumer != 0 then SendConsumer(s, bits, ok) else s
  }

  function AfterKeypress(s: KeyState, key: Byte, press: bool, ok: bool): KeyState
    requires |s.keys| == BUFFER_SIZE
  {
    if IsMedia(key) then SendConsumer(s, MediaRequest(s.consumer, key, press), ok)
    else SendKeys(s, ModifierAfter(s.modifier, key, press), Wire(s.keys, key, press), ok)
  }

  function AfterReport(s: KeyState, modifier: bv8, keys: seq<Byte>, consumerOk: bool, ok: bool): KeyState {
    SendKeys(ConsumerUpdated(s, ConsumerBits(SixSlots(keys)), consumerOk), modifier, Padded(Kept(SixSlots(keys)), BUFFER_SIZE), ok)
  }

  /** The six slots sent to the host for a whole report. */
  function Cleaned(report: seq<Byte>): (r: seq<Byte>)
    ensures |r| == BUFFER_SIZE
  {
    Padded(Kept(SixSlots(report)), BUFFER_SIZE)
  }

  function After(s: KeyState, e: Event): (s': KeyState)
    requires |s.keys| == BUFFER_SIZE
    ensures |s'.keys| == BUFFER_SIZE
  {
    match e
    case Keypress(key, press, ok) => AfterKeypress(s, key, press, ok)
    case Report(modifier, keys, consumerOk, ok) => AfterReport(s, modifier, keys, consumerOk, ok)
  }

  /** The state after a run of events from the initial state. */
  function Run(es: seq<Event>): (s: KeyState)
    ensures |s.keys| == BUFFER_SIZE
  {
    if es == [] then INITIAL else After(Run(es[..|es| - 1]), es[|es| - 1])
  }

  // ---- The gadget object ----

  class Keyboard {
    var modifier: bv8
    /** The stored slice. It may be the very buffer a caller passed in. */
    var keys: array<Byte>
    var consumer: bv8
    var host: HostView
    /** All keyboard reports that reached the host, in order. */
    var sent: seq<KeyReport>

    ghost predicate Valid()
      reads this, keys
    {
      keys.Length == BUFFER_SIZE && keys[0] != ROLLOVER && host.consumer == consumer
    }

    ghost function View(): KeyState
      reads this, keys
    {
      KeyState(modifier, keys[..], consumer, host)
    }

    constructor ()
      ensures Valid() && fresh(keys) && View() == INITIAL && sent == []
    {
      modifier, consumer, host, sent := 0, 0, HostView(0, NO_KEYS, 0), [];
      keys := new Byte[6](_ => 0);
    }

    method ConsumerControlReport(bits: bv8, delivered: bool) returns (err: bool)
      modifies this`consumer, this`host
      ensures View() == SendConsumer(old(View()), bits, delivered)
      ensures err == !delivered
    {
      err := !delivered;
      if delivered {
        host := host.(consumer := bits);
        consumer := bits;
      }
    }

    method WriteKeyboard(modifier: bv8, ks: array<Byte>, delivered: bool) returns (err: bool)
      modifies this`host, this`sent
      ensures host == if delivered then old(host).(modifier := modifier, keys := ks[..]) else old(host)
      ensures sent == if delivered then old(sent) + [KeyReport(modifier, ks[..])] else old(sent)
      ensures err == !delivered
    {
      err := !delivered;
      if delivered {
        host := host.(modifier := modifier, keys := ks[..]);
        sent := sent + [KeyReport(modifier, ks[..])];
      }
    }

    /** Zeroes a rollover report in place, then stores the slice itself (not a
        copy) unless the stored state is already equal. The returned keys never
        start with the rollover code. */
    method UpdateKeysDown(m: bv8, ks: array<Byte>) returns (state: KeyState)
      requires Valid() && ks.Length == BUFFER_SIZE
      modifies this`modifier, this`keys, ks
      ensures Valid()
      ensures ks[..] == Settled(old(ks[..]))
      ensures View() == old(View()).(modifier := m, keys := Settled(old(ks[..])))
      ensures keys == ks || keys == old(keys)
      ensures state.modifier == m && state.keys == Settled(old(ks[..]))
    {
      if ks[0] == ROLLOVER {
        for i := 0 to ks.Length
          modifies ks
          invariant forall j :: 0 <= j < i ==> ks[j] == 0
          invariant forall j :: i <= j < ks.Length ==> ks[j] == old(ks[j])
        {
          ks[i] := 0;
        }
      }
      assert ks[..] == Settled(old(ks[..]));
      if !(modifier == m && keys[..] == ks[..]) {
        modifier, keys := m, ks;
      }
      state := KeyState(m, ks[..], consumer, host);
    }

    /** The locked part of a keypress. Only a private copy of the stored slice
        is edited, so no caller's buffer changes. */
    method ReportKeypress(key: Byte, press: bool, delivered: bool) returns (state: KeyState, err: bool)
      requires Valid()
      modifies this
      ensures Valid()
      ensures View() == AfterKeypress(old(View()), key, press, delivered)
      ensures IsMedia(key) ==> keys == old(keys)
      ensures keys == old(keys) || fresh(keys)
      ensures state.keys == View().keys
      ensures sent == old(sent) + if IsMedia(key) || !delivered then [] else
                        [KeyReport(ModifierAfter(old(modifier), key, press), Wire(old(keys[..]), key, press))]
      ensures err == !delivered
    {
      hide IsMedia, Wire, ModifierAfter, Settled, MediaRequest;
      if IsMedia(key) {
        err := ConsumerControlReport(MediaRequest(consumer, key, press), delivered);
        state := KeyState(modifier, keys[..], consumer, host);
        return;
      }
      state, err := ReportOnKeyboard(key, press, delivered);
    }

    /** A keypress on the keyboard page. */
    method ReportOnKeyboard(key: Byte, press: bool, delivered: bool) returns (state: KeyState, err: bool)
      requires Valid() && !IsMedia(key)
      modifies this`modifier, this`keys, this`host, this`sent
      ensures Valid() && (keys == old(keys) || fresh(keys)) && err == !delivered && state.keys == keys[..]
      ensures var m, wire := ModifierAfter(old(modifier), key, press), Wire(old(keys[..]), key, press);
              && View() == SendKeys(old(View()), m, wire, delivered)
              && sent == old(sent) + if delivered then [KeyReport(m, wire)] else []
    {
      hide IsMedia, Pressed, Released, ModifierAfter, Settled;
      ghost var before := keys[..];
      var ks := new Byte[6];
      forall i | 0 <= i < 6 {
        ks[i] := keys[i];
      }
      assert ks[..] == before;
      var m := ModifierAfter(modifier, key, press);
      if !IsModifier(key) {
        PlaceKey(ks, key, press);
      }
      assert ks[..] == Wire(before, key, press);
      hide Wire;
      err := WriteKeyboard(m, ks, delivered);
      state := UpdateKeysDown(m, ks);
    }

    /** Puts `key` into the buffer or takes it out. */
    static method PlaceKey(ks: array<Byte>, key: Byte, press: bool)
      requires ks.Length == BUFFER_SIZE
      modifies ks
      ensures ks[..] == if press then Pressed(old(ks[..]), key) else Released(old(ks[..]), key)
    {
      ghost var before := ks[..];
      var i := 0;
      while i < 6
        invariant 0 <= i <= 6
        invariant ks[..] == before && Slot(before, key) == Slot(before, key, i)
      {
        if ks[i] == key || ks[i] == 0 {
          assert Slot(before, key) == i;
          if press {
            ks[i] := key;
            assert ks[..] == before[i := key];
          } else if ks[i] != 0 {
            forall j | i <= j < 5 {
              ks[j] := ks[j + 1];
            }
            ks[5] := 0;
            assert forall j :: 0 <= j < i ==> ks[j] == before[j];
            assert forall j :: i <= j < 5 ==> ks[j] == before[j + 1];
            assert ks[..] == before[..i] + before[i + 1..] + [0];
          }
          return;
        }
        i := i + 1;
      }
      if press {
        forall j | 0 <= j < 6 {
          ks[j] := ROLLOVER;
        }
        assert ks[..] == seq(BUFFER_SIZE, _ => ROLLOVER);
      }
    }

    /** A keypress with its timer decision: since the returned state never
        starts with the rollover code, the rollover test below never succeeds
        and a pressed non-modifier key always gets a timer. */
    method KeypressReport(key: Byte, press: bool, delivered: bool) returns (err: bool, timer: TimerStep)
      requires Valid()
      modifies this
      ensures Valid()
      ensures View() == AfterKeypress(old(View()), key, press, delivered)
      ensures keys == old(keys) || fresh(keys)
      ensures timer == if IsModifier(key) then LeaveTimer else if press then ScheduleTimer else CancelTimer
      ensures sent == old(sent) + if IsMedia(key) || !delivered then [] else
                        [KeyReport(ModifierAfter(old(modifier), key, press), Wire(old(keys[..]), key, press))]
      ensures err == !delivered
    {
      var state;
      state, err := ReportKeypress(key, press, delivered);
      var isRolledOver := state.keys[0] == ROLLOVER;
      timer := LeaveTimer;
      if !IsModifier(key) {
        if isRolledOver || !press {
          timer := CancelTimer;
        } else {
          timer := ScheduleTimer;
        }
      }
    }

    /** A whole keyboard report. The stored slice is always a new one. */
    method KeyboardReport(m: bv8, report: seq<Byte>, consumerDelivered: bool, keysDelivered: bool) returns (err: bool)
      requires Valid()
      modifies this
      ensures Valid()
      ensures View() == AfterReport(old(View()), m, report, consumerDelivered, keysDelivered)
      ensures keys == old(keys) || fresh(keys)
      ensures sent == old(sent) + if keysDelivered then [KeyReport(m, Cleaned(report))] else []
      ensures err <==>
              || !keysDelivered
              || ((ConsumerBits(SixSlots(report)) != 0 || old(consumer) != 0) && !consumerDelivered)
    {
      hide Kept, ConsumerBits, Padded, SixSlots, Settled, ConsumerUpdated;
      var cleaned, bits := StripMediaKeys(SixSlots(report));
      ghost var wire := cleaned[..];
      var consumerErr := UpdateConsumer(bits, consumerDelivered);
      assert cleaned[..] == wire;
      var keysErr := WriteKeyboard(m, cleaned, keysDelivered);
      err := consumerErr || keysErr;
      var _ := UpdateKeysDown(m, cleaned);
    }

    /** The consumer byte is only written when there is something to change. */
    method UpdateConsumer(bits: bv8, delivered: bool) returns (err: bool)
      requires Valid()
      modifies this`consumer, this`host
      ensures Valid()
      ensures View() == ConsumerUpdated(old(View()), bits, delivered)
      ensures err <==> (bits != 0 || old(consumer) != 0) && !delivered
    {
      err := false;
      if bits != 0 || consumer != 0 {
        err := ConsumerControlReport(bits, delivered);
      }
    }
  }

  lemma StripStep(ks: seq<Byte>, i: nat)
    requires i < |ks|
    ensures var kept := Kept(ks[..i]);
            Kept(ks[..i + 1]) == if ks[i] == 0 || IsMedia(ks[i]) then kept else kept + [ks[i]]
    ensures ConsumerBits(ks[..i + 1]) == ConsumerBits(ks[..i]) | MediaBit(ks[i])
  {
    hide MediaBit, IsMedia;
    assert ks[..i + 1][..i] == ks[..i] && ks[..i + 1][i] == ks[i];
  }

  /** Compacts the keyboard-page keys to the left and collects the consumer bits. */
  method StripMediaKeys(ks: seq<Byte>) returns (cleaned: array<Byte>, bits: bv8)
    ensures fresh(cleaned) && cleaned.Length == |ks|
    ensures cleaned[..] == Padded(Kept(ks), |ks|)
    ensures bits == ConsumerBits(ks)
  {
    assert !IsMedia(0);
    assert Kept([]) == [] && ConsumerBits([]) == 0;
    hide MediaBit, IsMedia, Kept, ConsumerBits;
    var kept: seq<Byte> := [];
    bits := 0;
    assert ks[..0] == [];
    for i := 0 to |ks|
      invariant kept == Kept(ks[..i]) && |kept| <= i
      invariant bits == ConsumerBits(ks[..i])
    {
      var k := ks[i];
      StripStep(ks, i);
      if k == 0 {
        continue;
      }
      if IsMedia(k) {
        bits := bits | MediaBit(k);
        continue;
      }
      kept := kept + [k];
    }
    assert ks[..|ks|] == ks;
    cleaned := new Byte[|ks|](i requires 0 <= i < |ks| => if i < |kept| then kept[i] else 0);
    assert cleaned[..] == Padded(kept, |ks|);
  }

  // ---- Every run ----

  lemma {:induction false} StepKeepsValid(s: KeyState, e: Event)
    requires ValidBuffer(s.keys)
    ensures ValidBuffer(After(s, e).keys)
  {
    match e
    case Keypress(key, press, ok) =>
      if !IsMedia(key) && !IsModifier(key) {
        if press {
          PressKeepsValid(s.keys, key);
        } else {
          ReleaseKeepsValid(s.keys, key);
        }
      }
    case Report(m, keys, consumerOk, ok) =>
      ReportIsValid(keys);
  }

  /** Whatever the events and their delivery: six slots, free slots last, no
      media key, and never a stored rollover. */
  lemma {:induction false} RunKeepsValid(es: seq<Event>)
    ensures ValidBuffer(Run(es).keys)
  {
    if es != [] {
      RunKeepsValid(es[..|es| - 1]);
      StepKeepsValid(Run(es[..|es| - 1]), es[|es| - 1]);
    }
  }

  predicate IsOrdinaryKeypress(e: Event) {
    e.Keypress? && IsOrdinary(e.key)
  }

  function HeldAfter(es: seq<Event>): seq<Byte>
    requires forall i :: 0 <= i < |es| ==> IsOrdinaryKeypress(es[i])
  {
    if es == [] then []
    else
      var e := es[|es| - 1];
      assert IsOrdinaryKeypress(e);
      Hold(HeldAfter(es[..|es| - 1]), e.key, e.press)
  }

  /** On keypress runs over ordinary keys the buffer is the insertion-ordered
      set of held keys, emptied by a seventh press. */
  lemma {:induction false} RunTracksHeld(es: seq<Event>)
    requires forall i :: 0 <= i < |es| ==> IsOrdinaryKeypress(es[i])
    ensures IsHeldSet(HeldAfter(es))
    ensures Run(es).keys == Padded(HeldAfter(es), BUFFER_SIZE)
  {
    if es == [] {
      assert Padded([], BUFFER_SIZE) == NO_KEYS;
    } else {
      var e := es[|es| - 1];
      RunTracksHeld(es[..|es| - 1]);
      KeypressTracksHeld(HeldAfter(es[..|es| - 1]), e.key, e.press);
    }
  }

  /** A modifier is held when its last keypress was a press and no whole report
      has overwritten the modifier byte since. */
  predicate ModifierHeld(es: seq<Event>, k: Byte)
    requires IsModifier(k)
  {
    if es == [] then false
    else
      match es[|es| - 1]
      case Keypress(key, press, _) => if key == k then press else ModifierHeld(es[..|es| - 1], k)
      case Report(m, _, _, _) => HasBit(m, k)
  }

  predicate HasBit(m: bv8, k: Byte)
    requires IsModifier(k)
  {
    m & ModifierMask(k) != 0
  }

  lemma MasksAreSeparateBits(m: bv8, j: Byte, k: Byte, press: bool)
    requires IsModifier(k)
    ensures HasBit(ModifierAfter(m, j, press), k) <==> if j == k then press else HasBit(m, k)
  {
  }

  lemma ModifierByteAfter(s: KeyState, e: Event)
    requires |s.keys| == BUFFER_SIZE
    ensures After(s, e).modifier == if e.Report? then e.modifier else ModifierAfter(s.modifier, e.key, e.press)
  {
  }

  /** Each modifier bit is set exactly while its modifier is held. */
  lemma {:induction false} RunTracksModifiers(es: seq<Event>, k: Byte)
    requires IsModifier(k)
    ensures HasBit(Run(es).modifier, k) <==> ModifierHeld(es, k)
  {
    if es != [] {
      RunTracksModifiers(es[..|es| - 1], k);
      var s, e := Run(es[..|es| - 1]), es[|es| - 1];
      ModifierByteAfter(s, e);
      if e.Keypress? {
        MasksAreSeparateBits(s.modifier, e.key, k, e.press);
      }
    }
  }

  // ---- The host's view ----

  ghost predicate HostHasKeys(s: KeyState) {
    && s.host.modifier == s.modifier
    && |s.host.keys| == BUFFER_SIZE
    && (s.host.keys == s.keys || (s.host.keys[0] == ROLLOVER && s.keys == NO_KEYS))
  }

  predicate WritesKeys(e: Event) {
    e.Report? || !IsMedia(e.key)
  }

  predicate Delivered(e: Event) {
    e.ok && (e.Report? ==> e.consumerOk)
  }

  /** The consumer bits the events asked for, whether or not a write was made. */
  function Requested(es: seq<Event>): bv8 {
    if es == [] then 0 as bv8
    else
      var before := Requested(es[..|es| - 1]);
      match es[|es| - 1]
      case Keypress(key, press, _) => if IsMedia(key) then MediaRequest(before, key, press) else before
      case Report(_, keys, _, _) => ConsumerBits(SixSlots(keys))
  }

  lemma StepKeepsConsumer(s: KeyState, e: Event)
    requires |s.keys| == BUFFER_SIZE && s.host.consumer == s.consumer
    ensures After(s, e).host.consumer == After(s, e).consumer
  {
    hide ConsumerBits, Kept, SixSlots, Padded, Settled, Wire, MediaRequest, ModifierAfter;
  }

  /** The stored consumer byte is the host's, even across failed writes. */
  lemma {:induction false} HostHasConsumer(es: seq<Event>)
    ensures Run(es).host.consumer == Run(es).consumer
  {
    hide After;
    if es != [] {
      HostHasConsumer(es[..|es| - 1]);
      StepKeepsConsumer(Run(es[..|es| - 1]), es[|es| - 1]);
    }
  }

  /** One delivered keyboard write brings the host up to date, whatever was
      lost before it. */
  lemma DeliveredWriteHeals(es: seq<Event>)
    requires es != [] && WritesKeys(es[|es| - 1]) && es[|es| - 1].ok
    ensures HostHasKeys(Run(es))
  {
  }

  /** When every write is delivered the host always agrees with the stored
      state, and its consumer byte is what was last requested although reports
      without media keys skip the consumer write. */
  lemma {:induction false} HostFollowsRun(es: seq<Event>)
    requires forall i :: 0 <= i < |es| ==> Delivered(es[i])
    ensures HostHasKeys(Run(es))
    ensures Run(es).host.consumer == Requested(es)
  {
    if es != [] {
      HostFollowsRun(es[..|es| - 1]);
      HostHasConsumer(es[..|es| - 1]);
      if WritesKeys(es[|es| - 1]) {
        DeliveredWriteHeals(es);
      }
    }
  }

  /** Media keys live in the consumer byte only: the timer that is scheduled
      for a pressed media key never finds the key in the buffer. */
  lemma MediaKeyIsNeverStored(es: seq<Event>, k: Byte)
    requires IsMedia(k)
    ensures k !in Run(es).keys
  {
    RunKeepsValid(es);
  }

  // ---- Media keys ----

  /** Which bit each media key has, and each modifier. */
  lemma BitsAre(k: Byte)
    ensures IsMedia(k) <==> k in {0x7f, 0x80, 0x81, 0xf1, 0xf2, 0xf3, 0xf4}
    ensures IsModifier(k) <==> k in {0xE0, 0xE1, 0xE2, 0xE3, 0xE4, 0xE5, 0xE6, 0xE7}
    ensures IsMedia(k) ==> MediaBit(k) == (1 as bv8) << MediaIndex(k)
    ensures IsModifier(k) ==> ModifierMask(k) == (1 as bv8) << (k - 0xE0)
  {
  }

  /** Volume up, volume down and mute, then the four transport keys. */
  function MediaIndex(k: Byte): (i: nat)
    requires IsMedia(k)
    ensures i < 7
  {
    if k == 0x7f then 2 else if k < 0xf1 then k - 0x80 else k - 0xf1 + 3
  }

  predicate HasMediaBit(bits: bv8, k: Byte)
    requires IsMedia(k)
  {
    bits & MediaBit(k) != 0
  }

  /** The key is among the first six of a raw report. */
  predicate IsReported(keys: seq<Byte>, k: Byte) {
    exists i :: 0 <= i < |keys| && i < BUFFER_SIZE && keys[i] == k
  }

  /** A media key is held when its last keypress was a press, unless a whole
      report came since; a report holds exactly the media keys in it. */
  predicate MediaHeld(es: seq<Event>, k: Byte) {
    if es == [] then false
    else
      match es[|es| - 1]
      case Keypress(key, press, _) => if key == k then press else MediaHeld(es[..|es| - 1], k)
      case Report(_, keys, _, _) => IsReported(keys, k)
  }

  lemma MediaBitsAreSeparate(bits: bv8, j: Byte, k: Byte, press: bool)
    requires IsMedia(j) && IsMedia(k)
    ensures HasMediaBit(MediaRequest(bits, j, press), k) <==> if j == k then press else HasMediaBit(bits, k)
  {
  }

  lemma OneMoreBit(bits: bv8, j: Byte, k: Byte)
    requires IsMedia(k)
    ensures HasMediaBit(bits | MediaBit(j), k) <==> HasMediaBit(bits, k) || j == k
  {
  }

  lemma {:induction false} ConsumerBitsAre(ks: seq<Byte>, k: Byte)
    requires IsMedia(k)
    ensures HasMediaBit(ConsumerBits(ks), k) <==> k in ks
  {
    hide MediaBit;
    if ks != [] {
      var init, last := ks[..|ks| - 1], ks[|ks| - 1];
      ConsumerBitsAre(init, k);
      OneMoreBit(ConsumerBits(init), last, k);
      assert ks == init + [last];
    }
  }

  /** A raw report is cut to six slots or filled up with zeros. */
  lemma SixSlotsAre(ks: seq<Byte>)
    ensures forall i :: 0 <= i < BUFFER_SIZE ==> SixSlots(ks)[i] == if i < |ks| then ks[i] else 0
    ensures forall k :: k != 0 ==> (k in SixSlots(ks) <==> IsReported(ks, k))
  {
    var six := SixSlots(ks);
    forall k | k in six && k != 0
      ensures IsReported(ks, k)
    {
      var i :| 0 <= i < BUFFER_SIZE && six[i] == k;
      assert i < |ks| && ks[i] == k;
    }
    forall k | IsReported(ks, k)
      ensures k in six
    {
      var i :| 0 <= i < |ks| && i < BUFFER_SIZE && ks[i] == k;
      assert six[i] == k;
    }
  }

  lemma ConsumerAfter(s: KeyState, e: Event)
    requires |s.keys| == BUFFER_SIZE && Delivered(e)
    ensures After(s, e).consumer ==
            match e
            case Keypress(key, press, _) => if IsMedia(key) then MediaRequest(s.consumer, key, press) else s.consumer
            case Report(_, keys, _, _) => ConsumerBits(SixSlots(keys))
  {
    hide MediaRequest, ConsumerBits, SixSlots, Kept, Padded, Settled;
  }

  /** When writes are delivered, the host's bit of a media key is set exactly
      while the key is held. */
  lemma {:induction false} RunTracksMedia(es: seq<Event>, k: Byte)
    requires IsMedia(k) && forall i :: 0 <= i < |es| ==> Delivered(es[i])
    ensures HasMediaBit(Run(es).host.consumer, k) <==> MediaHeld(es, k)
  {
    HostHasConsumer(es);
    if es != [] {
      var init, e := es[..|es| - 1], es[|es| - 1];
      RunTracksMedia(init, k);
      HostHasConsumer(init);
      ConsumerAfter(Run(init), e);
      hide HasMediaBit, MediaRequest, ConsumerBits, Run, SixSlots;
      match e
      case Keypress(key, press, _) =>
        if IsMedia(key) {
          MediaBitsAreSeparate(Run(init).consumer, key, k, press);
        }
      case Report(_, keys, _, _) =>
        ConsumerBitsAre(SixSlots(keys), k);
        SixSlotsAre(keys);
    }
  }

  // ---- What a report leaves on the keyboard page ----

  lemma KeptOne(k: Byte)
    ensures Kept([k]) == if k == 0 || IsMedia(k) then [] else [k]
  {
    assert [k][..0] == [] && Kept([]) == [];
  }

  lemma KeptMore(ks: seq<Byte>, k: Byte)
    ensures Kept(ks + [k]) == Kept(ks) + Kept([k])
  {
    KeptOne(k);
    hide IsMedia;
    assert (ks + [k])[..|ks|] == ks && (ks + [k])[|ks|] == k;
  }

  /** Keys are kept or dropped one by one, and their order stays. */
  lemma {:induction false} KeptSplits(a: seq<Byte>, b: seq<Byte>)
    ensures Kept(a + b) == Kept(a) + Kept(b)
  {
    assert Kept([]) == [];
    hide Kept, IsMedia;
    if b == [] {
      assert a + b == a;
    } else {
      var init, last := b[..|b| - 1], b[|b| - 1];
      KeptSplits(a, init);
      KeptMore(a + init, last);
      KeptMore(init, last);
      AppendLast(a, b);
      Regroup(Kept(a), Kept(init), Kept([last]));
    }
  }

  lemma AppendLast(a: seq<Byte>, b: seq<Byte>)
    requires b != []
    ensures a + b == a + b[..|b| - 1] + [b[|b| - 1]] && b == b[..|b| - 1] + [b[|b| - 1]]
  {
  }

  lemma Regroup(x: seq<Byte>, y: seq<Byte>, z: seq<Byte>)
    ensures x + y + z == x + (y + z)
  {
  }

  /** A report stores the keys in it that are no media keys, unless the first of
      them is the rollover code. */
  lemma ReportStoresKeys(s: KeyState, m: bv8, keys: seq<Byte>, consumerOk: bool, ok: bool, k: Byte)
    requires k != 0
    ensures var stored, kept := AfterReport(s, m, keys, consumerOk, ok).keys, Kept(SixSlots(keys));
            if kept != [] && kept[0] == ROLLOVER then stored == NO_KEYS
            else k in stored <==> IsReported(keys, k) && !IsMedia(k)
  {
    var six := SixSlots(keys);
    SixSlotsAre(keys);
    KeptKeys(six, k);
    hide IsMedia, Kept, SixSlots, IsReported;
    var kept := Kept(six);
    var padded := Padded(kept, BUFFER_SIZE);
    assert k in padded <==> k in kept;
    assert padded[0] == if kept != [] then kept[0] else 0;
  }

  lemma {:induction false} KeptKeys(ks: seq<Byte>, k: Byte)
    ensures k in Kept(ks) <==> k in ks && k != 0 && !IsMedia(k)
  {
    hide IsMedia;
    if ks != [] {
      KeptKeys(ks[..|ks| - 1], k);
      assert ks == ks[..|ks| - 1] + [ks[|ks| - 1]];
    }
  }
}
