/** Configured keyboard macros: turning them into HID steps and playing them on
    the gadget's keyboard, with a cancellation possible after every step. */
module KeyboardMacro {
  import opened Wrappers
  import opened HidKeys
  import opened UsbKeyboard

  const PRESS_DELAY: nat := 20
  const RELEASE_DELAY: nat := 100

  datatype ConfigStep = ConfigStep(keys: seq<string>, modifiers: seq<string>, delay: int)

  datatype Step = Step(modifier: bv8, keys: seq<Byte>, delay: nat)

  datatype Error = TooManyKeys | UnknownKey(name: string) | UnknownModifier(name: string) | NoSteps

  datatype Result<T> = Ok(value: T) | Err(error: Error)

  /** The key and modifier names the device knows. */
  datatype Layout = Layout(keys: map<string, Byte>, modifiers: map<string, bv8>)

  // ---- Converting ----

  function Codes(names: seq<string>, layout: Layout): Result<seq<Byte>> {
    if names == [] then Ok([])
    else
      match Codes(names[..|names| - 1], layout)
      case Err(e) => Err(e)
      case Ok(codes) =>
        var name := names[|names| - 1];
        if name in layout.keys then Ok(codes + [layout.keys[name]]) else Err(UnknownKey(name))
  }

  function Mask(names: seq<string>, layout: Layout): Result<bv8> {
    if names == [] then Ok(0)
    else
      match Mask(names[..|names| - 1], layout)
      case Err(e) => Err(e)
      case Ok(mask) =>
        var name := names[|names| - 1];
        if name in layout.modifiers then Ok(mask | layout.modifiers[name]) else Err(UnknownModifier(name))
  }

  function KeyBytes(names: seq<string>, layout: Layout): Result<seq<Byte>> {
    if |names| > BUFFER_SIZE then Err(TooManyKeys)
    else
      match Codes(names, layout)
      case Err(e) => Err(e)
      case Ok(codes) => Ok(Padded(codes, BUFFER_SIZE))
  }

  /** The delay is cut to 16 bits. */
  function ReleaseDelay(delay: int): nat {
    if delay > 0 then delay % 0x1_0000 else RELEASE_DELAY
  }

  /** A step becomes a press and a release; an empty one becomes nothing. */
  function Expanded(step: ConfigStep, layout: Layout): Result<seq<Step>> {
    if step.keys == [] && step.modifiers == [] then Ok([])
    else
      match KeyBytes(step.keys, layout)
      case Err(e) => Err(e)
      case Ok(keys) =>
        match Mask(step.modifiers, layout)
        case Err(e) => Err(e)
        case Ok(modifier) =>
          Ok([Step(modifier, keys, PRESS_DELAY), Step(0, NO_KEYS, ReleaseDelay(step.delay))])
  }

  function AllExpanded(steps: seq<ConfigStep>, layout: Layout): Result<seq<Step>> {
    if steps == [] then Ok([])
    else
      match AllExpanded(steps[..|steps| - 1], layout)
      case Err(e) => Err(e)
      case Ok(before) =>
        match Expanded(steps[|steps| - 1], layout)
        case Err(e) => Err(e)
        case Ok(last) => Ok(before + last)
  }

  method ConfigKeysToHid(names: seq<string>, layout: Layout) returns (r: Result<seq<Byte>>)
    ensures r == KeyBytes(names, layout)
    ensures r.Ok? ==> |r.value| == BUFFER_SIZE
  {
    if |names| > BUFFER_SIZE {
      return Err(TooManyKeys);
    }
    var keys: seq<Byte> := [];
    for i := 0 to |names|
      invariant |keys| == i && Codes(names[..i], layout) == Ok(keys)
    {
      var name := names[i];
      assert names[..i + 1][..i] == names[..i];
      if name !in layout.keys {
        CodesFail(names, i + 1, layout);
        return Err(UnknownKey(name));
      }
      keys := keys + [layout.keys[name]];
    }
    assert names[..|names|] == names;
    ghost var codes := keys;
    while |keys| < BUFFER_SIZE
      invariant |codes| <= |keys| <= BUFFER_SIZE && keys == codes + Zeros(|keys| - |codes|)
    {
      keys := keys + [0];
    }
    r := Ok(keys);
  }

  lemma {:induction false} CodesFail(names: seq<string>, n: nat, layout: Layout)
    requires n <= |names| && Codes(names[..n], layout).Err?
    ensures Codes(names, layout) == Codes(names[..n], layout)
    decreases |names| - n
  {
    if n < |names| {
      assert names[..n + 1][..n] == names[..n];
      CodesFail(names, n + 1, layout);
    } else {
      assert names[..n] == names;
    }
  }

  method ConfigModifiersToHid(names: seq<string>, layout: Layout) returns (r: Result<bv8>)
    ensures r == Mask(names, layout)
  {
    var modifier: bv8 := 0;
    for i := 0 to |names|
      invariant Mask(names[..i], layout) == Ok(modifier)
    {
      var name := names[i];
      assert names[..i + 1][..i] == names[..i];
      if name !in layout.modifiers {
        MaskFail(names, i + 1, layout);
        return Err(UnknownModifier(name));
      }
      modifier := modifier | layout.modifiers[name];
    }
    assert names[..|names|] == names;
    r := Ok(modifier);
  }

  lemma {:induction false} MaskFail(names: seq<string>, n: nat, layout: Layout)
    requires n <= |names| && Mask(names[..n], layout).Err?
    ensures Mask(names, layout) == Mask(names[..n], layout)
    decreases |names| - n
  {
    if n < |names| {
      assert names[..n + 1][..n] == names[..n];
      MaskFail(names, n + 1, layout);
    } else {
      assert names[..n] == names;
    }
  }

  /** The source also skips a step that converts to no keys and no modifier;
      that never happens, since a converted step always has six key bytes. */
  method ConvertConfigMacro(macro: seq<ConfigStep>, layout: Layout) returns (r: Result<seq<Step>>)
    ensures r == match AllExpanded(macro, layout)
                 case Err(e) => Err(e)
                 case Ok(steps) => if steps == [] then Err(NoSteps) else Ok(steps)
  {
    hide KeyBytes, Mask;
    var steps: seq<Step> := [];
    for i := 0 to |macro|
      invariant AllExpanded(macro[..i], layout) == Ok(steps)
    {
      var step := macro[i];
      assert macro[..i + 1][..i] == macro[..i];
      if step.keys == [] && step.modifiers == [] {
        assert steps + [] == steps;
        continue;
      }
      var keyBytes := ConfigKeysToHid(step.keys, layout);
      if keyBytes.Err? {
        ExpansionFails(macro, i + 1, layout);
        return Err(keyBytes.error);
      }
      var modifier := ConfigModifiersToHid(step.modifiers, layout);
      if modifier.Err? {
        ExpansionFails(macro, i + 1, layout);
        return Err(modifier.error);
      }
      assert |keyBytes.value| == BUFFER_SIZE;
      steps := steps + [Step(modifier.value, keyBytes.value, PRESS_DELAY),
                        Step(0, NO_KEYS, ReleaseDelay(step.delay))];
    }
    assert macro[..|macro|] == macro;
    r := if |steps| == 0 then Err(NoSteps) else Ok(steps);
  }

  lemma {:induction false} ExpansionFails(macro: seq<ConfigStep>, n: nat, layout: Layout)
    requires n <= |macro| && AllExpanded(macro[..n], layout).Err?
    ensures AllExpanded(macro, layout) == AllExpanded(macro[..n], layout)
    decreases |macro| - n
  {
    if n < |macro| {
      assert macro[..n + 1][..n] == macro[..n];
      ExpansionFails(macro, n + 1, layout);
    } else {
      assert macro[..n] == macro;
    }
  }

  predicate IsClearStep(step: Step) {
    step.modifier == 0 && step.keys == NO_KEYS
  }

  /** Every converted macro ends by letting go of everything. */
  lemma {:induction false} ConvertedEndsClear(macro: seq<ConfigStep>, layout: Layout)
    requires AllExpanded(macro, layout).Ok? && AllExpanded(macro, layout).value != []
    ensures var steps := AllExpanded(macro, layout).value; IsClearStep(steps[|steps| - 1])
  {
    hide KeyBytes, Mask;
    var init, last := macro[..|macro| - 1], macro[|macro| - 1];
    if Expanded(last, layout).value == [] {
      assert AllExpanded(init, layout).value + [] == AllExpanded(init, layout).value;
      ConvertedEndsClear(init, layout);
    }
  }

  // ---- What a converted macro holds ----

  predicate IsEmptyStep(step: ConfigStep) {
    step.keys == [] && step.modifiers == []
  }

  function NonEmpty(macro: seq<ConfigStep>): seq<ConfigStep> {
    if macro == [] then []
    else
      var before, last := NonEmpty(macro[..|macro| - 1]), macro[|macro| - 1];
      if IsEmptyStep(last) then before else before + [last]
  }

  predicate IsKnown(step: ConfigStep, layout: Layout) {
    && |step.keys| <= BUFFER_SIZE
    && (forall name :: name in step.keys ==> name in layout.keys)
    && (forall name :: name in step.modifiers ==> name in layout.modifiers)
  }

  /** `press` holds down the keys of the step in order, and its modifiers. */
  ghost predicate IsPressOf(press: Step, step: ConfigStep, layout: Layout) {
    && IsKnown(step, layout)
    && |press.keys| == BUFFER_SIZE
    && (forall i :: 0 <= i < BUFFER_SIZE ==>
          press.keys[i] == if i < |step.keys| then layout.keys[step.keys[i]] else 0)
    && (forall b: bv8 :: Hits(press.modifier, b) <==> HasMask(step.modifiers, layout, b))
    && press.delay == 20
  }

  /** The mask has one of the bits `b`. */
  predicate Hits(mask: bv8, b: bv8) {
    mask & b != 0
  }

  /** Some of the named modifiers has one of the bits `b`. */
  ghost predicate HasMask(names: seq<string>, layout: Layout, b: bv8) {
    exists name :: name in names && name in layout.modifiers && Hits(layout.modifiers[name], b)
  }

  predicate IsReleaseOf(release: Step, step: ConfigStep) {
    && release.modifier == 0 && release.keys == [0, 0, 0, 0, 0, 0]
    && release.delay == if step.delay > 0 then step.delay % 65536 else 100
  }

  lemma {:induction false} CodesAre(names: seq<string>, layout: Layout)
    ensures Codes(names, layout).Ok? <==> forall name :: name in names ==> name in layout.keys
    ensures Codes(names, layout).Ok? ==>
      var codes := Codes(names, layout).value;
      |codes| == |names| && forall i :: 0 <= i < |names| ==> names[i] in layout.keys && codes[i] == layout.keys[names[i]]
  {
    if names != [] {
      var init, last := names[..|names| - 1], names[|names| - 1];
      CodesAre(init, layout);
      assert names == init + [last];
    }
  }

  lemma OrBits(x: bv8, y: bv8, b: bv8)
    ensures Hits(x | y, b) <==> Hits(x, b) || Hits(y, b)
    ensures !Hits(0, b)
  {
  }

  lemma {:induction false} MaskIs(names: seq<string>, layout: Layout, b: bv8)
    ensures Mask(names, layout).Ok? <==> forall name :: name in names ==> name in layout.modifiers
    ensures Mask(names, layout).Ok? ==> (Hits(Mask(names, layout).value, b) <==> HasMask(names, layout, b))
  {
    hide Hits;
    OrBits(0, 0, b);
    if names != [] {
      var init, last := names[..|names| - 1], names[|names| - 1];
      MaskIs(init, layout, b);
      assert names == init + [last];
      if Mask(names, layout).Ok? {
        OrBits(Mask(init, layout).value, layout.modifiers[last], b);
        assert Hits(layout.modifiers[last], b) ==> HasMask(names, layout, b);
        if HasMask(init, layout, b) {
          var name :| name in init && name in layout.modifiers && Hits(layout.modifiers[name], b);
          assert name in names;
        }
      }
    }
  }

  lemma StepIsPair(step: ConfigStep, layout: Layout)
    requires !IsEmptyStep(step)
    ensures Expanded(step, layout).Ok? <==> IsKnown(step, layout)
    ensures Expanded(step, layout).Ok? ==>
      var steps := Expanded(step, layout).value;
      |steps| == 2 && IsPressOf(steps[0], step, layout) && IsReleaseOf(steps[1], step)
  {
    CodesAre(step.keys, layout);
    MaskIs(step.modifiers, layout, 0);
    hide Codes, Mask, HasMask;
    if Expanded(step, layout).Ok? {
      forall b: bv8
        ensures Hits(Mask(step.modifiers, layout).value, b) <==> HasMask(step.modifiers, layout, b)
      {
        MaskIs(step.modifiers, layout, b);
      }
    }
  }

  /** Converting fails exactly when some step that is not empty has too many
      keys or an unknown name. Otherwise there is a press and a release for
      each such step, in order, and nothing else. */
  lemma {:induction false} ConvertedStepsAre(macro: seq<ConfigStep>, layout: Layout)
    ensures AllExpanded(macro, layout).Ok? <==> forall step :: step in NonEmpty(macro) ==> IsKnown(step, layout)
    ensures AllExpanded(macro, layout).Ok? ==>
      var steps, wanted := AllExpanded(macro, layout).value, NonEmpty(macro);
      && |steps| == 2 * |wanted|
      && (forall j :: 0 <= j < |wanted| ==>
            IsPressOf(steps[2 * j], wanted[j], layout) && IsReleaseOf(steps[2 * j + 1], wanted[j]))
  {
    hide Expanded, IsKnown, IsPressOf, IsReleaseOf;
    if macro != [] {
      var init, last := macro[..|macro| - 1], macro[|macro| - 1];
      ConvertedStepsAre(init, layout);
      if IsEmptyStep(last) {
        EmptyStepIsNothing(last, layout);
      } else {
        StepIsPair(last, layout);
        assert last in NonEmpty(macro);
      }
    }
  }

  lemma EmptyStepIsNothing(step: ConfigStep, layout: Layout)
    requires IsEmptyStep(step)
    ensures Expanded(step, layout) == Ok([])
  {
  }

  // ---- Playing ----

  /** The reports of some steps, in order. */
  function Wires(steps: seq<Step>): (r: seq<KeyReport>)
    ensures |r| == |steps| && forall i :: 0 <= i < |steps| ==> r[i] == KeyReport(steps[i].modifier, Cleaned(steps[i].keys))
  {
    seq(|steps|, i requires 0 <= i < |steps| => KeyReport(steps[i].modifier, Cleaned(steps[i].keys)))
  }

  datatype Ending = Completed | Cancelled | Aborted

  /** Nothing pressed, on the device and on the host. */
  ghost predicate IsReleased(s: KeyState) {
    && s.modifier == 0 && s.keys == NO_KEYS && s.consumer == 0
    && s.host == HostView(0, NO_KEYS, 0)
  }

  lemma EmptyReport()
    ensures ConsumerBits(NO_KEYS) == 0 && Kept(NO_KEYS) == [] && SixSlots(NO_KEYS) == NO_KEYS
    ensures Padded([], BUFFER_SIZE) == NO_KEYS && Settled(NO_KEYS) == NO_KEYS && Cleaned(NO_KEYS) == NO_KEYS
  {
    AllZero(NO_KEYS);
  }

  lemma {:induction false} AllZero(ks: seq<Byte>)
    requires forall i :: 0 <= i < |ks| ==> ks[i] == 0
    ensures ConsumerBits(ks) == 0 && Kept(ks) == []
  {
    if ks != [] {
      AllZero(ks[..|ks| - 1]);
      assert MediaBit(0) == 0;
    }
  }

  /** A delivered empty report lets go of everything, media keys included. */
  lemma EmptyReportReleases(s: KeyState)
    requires s.host.consumer == s.consumer
    ensures IsReleased(AfterReport(s, 0, NO_KEYS, true, true))
  {
    EmptyReport();
    hide ConsumerBits, Kept, SixSlots, Padded, Settled;
  }

  /** Sends the report of one step. A clear step is also noted in the stored
      state, with the shared buffer itself. */
  method PlayStep(kb: Keyboard, step: Step, clearKeys: array<Byte>, delivered: bool) returns (err: bool)
    requires kb.Valid() && clearKeys.Length == BUFFER_SIZE && clearKeys[..] == NO_KEYS
    modifies kb, clearKeys
    ensures kb.Valid() && clearKeys[..] == NO_KEYS && err == !delivered
    ensures kb.sent == old(kb.sent) + if delivered then [KeyReport(step.modifier, Cleaned(step.keys))] else []
    ensures !err && IsClearStep(step) ==> IsReleased(kb.View())
  {
    EmptyReport();
    hide AfterReport, Settled, Cleaned, SixSlots, ConsumerBits, Kept, Padded;
    EmptyReportReleases(kb.View());
    err := kb.KeyboardReport(step.modifier, step.keys, delivered, delivered);
    if err {
      return;
    }
    if step.modifier == 0 && step.keys == clearKeys[..] {
      var _ := kb.UpdateKeysDown(0, clearKeys);
    }
  }

  /** Plays the steps. `clearKeys` is the shared all-zero buffer, which the
      stored key state may come to be (and may already be); it is never
      written. `delivered` says which reports get through (all, beyond its
      end), `cancelAt` after which step the macro is cancelled, if any. */
  method ExecuteKeyboardMacro(kb: Keyboard, steps: seq<Step>, clearKeys: array<Byte>,
                              delivered: seq<bool>, cancelAt: int) returns (ending: Ending)
    requires kb.Valid() && clearKeys.Length == BUFFER_SIZE && clearKeys[..] == NO_KEYS
    modifies kb, clearKeys
    ensures kb.Valid() && clearKeys[..] == NO_KEYS
    ensures ending.Aborted? ==> exists i :: 0 <= i < |steps| && i < |delivered| && !delivered[i]
                                            && kb.sent == old(kb.sent) + Wires(steps[..i])
    ensures ending.Cancelled? <==> 0 <= cancelAt < |steps| && !ending.Aborted?
    ensures ending.Cancelled? ==>
      && kb.sent == old(kb.sent) + Wires(steps[..cancelAt + 1]) + [KeyReport(0, NO_KEYS)]
      && IsReleased(kb.View())
    ensures ending.Completed? ==> kb.sent == old(kb.sent) + Wires(steps)
    ensures ending.Completed? && steps != [] && IsClearStep(steps[|steps| - 1]) ==> IsReleased(kb.View())
  {
    EmptyReport();
    hide AfterReport, Settled, Cleaned, IsReleased, SixSlots, ConsumerBits, Kept, Padded;
    for i := 0 to |steps|
      invariant kb.Valid() && clearKeys[..] == NO_KEYS && !(0 <= cancelAt < i)
      invariant kb.sent == old(kb.sent) + Wires(steps[..i])
      invariant i > 0 && IsClearStep(steps[i - 1]) ==> IsReleased(kb.View())
    {
      var step := steps[i];
      var err := PlayStep(kb, step, clearKeys, i >= |delivered| || delivered[i]);
      if err {
        return Aborted;
      }
      assert Wires(steps[..i + 1]) == Wires(steps[..i]) + [KeyReport(step.modifier, Cleaned(step.keys))];
      if i == cancelAt {
        EmptyReportReleases(kb.View());
        var _ := kb.KeyboardReport(0, clearKeys[..], true, true);
        return Cancelled;
      }
    }
    assert steps[..|steps|] == steps;
    ending := Completed;
  }

  /** Any configured macro, played to its end or cancelled after any step,
      leaves nothing pressed and the shared buffer as it was. */
  method PlayConfigMacro(kb: Keyboard, macro: seq<ConfigStep>, layout: Layout, clearKeys: array<Byte>, cancelAt: int)
    returns (r: Result<Ending>)
    requires kb.Valid() && clearKeys.Length == BUFFER_SIZE && clearKeys[..] == NO_KEYS
    modifies kb, clearKeys
    ensures kb.Valid() && clearKeys[..] == NO_KEYS
    ensures r.Ok? ==> !r.value.Aborted? && IsReleased(kb.View()) && AllExpanded(macro, layout).Ok?
    ensures r.Ok? && r.value.Completed? ==> kb.sent == old(kb.sent) + Wires(AllExpanded(macro, layout).value)
    ensures r.Err? ==> kb.View() == old(kb.View())
  {
    var steps := ConvertConfigMacro(macro, layout);
    if steps.Err? {
      return Err(steps.error);
    }
    ConvertedEndsClear(macro, layout);
    var ending := ExecuteKeyboardMacro(kb, steps.value, clearKeys, [], cancelAt);
    r := Ok(ending);
  }
}
