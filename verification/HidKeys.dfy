/** Key codes, masks and the six-slot key buffer of the emulated HID keyboard
    (Appendix C of the USB HID 1.11 definition). */
module HidKeys {
  import opened Wrappers

  const BUFFER_SIZE: nat := 6
  const ROLLOVER: Byte := 0x01
  const NO_KEYS: seq<Byte> := [0, 0, 0, 0, 0, 0]

  predicate IsModifier(k: Byte) {
    0xE0 <= k <= 0xE7
  }

  /** Left and right Control, Shift, Alt and Super, in usage order. */
  function ModifierMask(k: Byte): bv8
    requires IsModifier(k)
  {
    match k
    case 0xE0 => 0x01
    case 0xE1 => 0x02
    case 0xE2 => 0x04
    case 0xE3 => 0x08
    case 0xE4 => 0x10
    case 0xE5 => 0x20
    case 0xE6 => 0x40
    case _ => 0x80
  }

  predicate IsMedia(k: Byte) {
    0x7f <= k <= 0x81 || 0xf1 <= k <= 0xf4
  }

  /** The Consumer Control bit of a media key, 0 for any other key. */
  function MediaBit(k: Byte): (b: bv8)
    ensures !IsMedia(k) ==> b == 0
  {
    match k
    case 0x80 => 0x01
    case 0x81 => 0x02
    case 0x7f => 0x04
    case 0xf1 => 0x08
    case 0xf2 => 0x10
    case 0xf3 => 0x20
    case 0xf4 => 0x40
    case _ => 0x00
  }

  /** A key that is neither "no event", nor the rollover code, nor routed elsewhere. */
  predicate IsOrdinary(k: Byte) {
    k != 0 && k != ROLLOVER && !IsModifier(k) && !IsMedia(k)
  }

  /** What every stored buffer looks like. */
  predicate ValidBuffer(ks: seq<Byte>) {
    && |ks| == BUFFER_SIZE
    && (forall i, j :: 0 <= i < j < |ks| && ks[i] == 0 ==> ks[j] == 0)
    && ks[0] != ROLLOVER
    && (forall i :: 0 <= i < |ks| ==> !IsMedia(ks[i]))
  }

  /** The first slot from `i` on that holds `k` or is free; `|ks|` if there is none. */
  function Slot(ks: seq<Byte>, k: Byte, i: nat := 0): (s: nat)
    requires i <= |ks|
    ensures i <= s <= |ks|
    ensures forall j :: i <= j < s ==> ks[j] != k && ks[j] != 0
    ensures s < |ks| ==> ks[s] == k || ks[s] == 0
    decreases |ks| - i
  {
    if i == |ks| || ks[i] == k || ks[i] == 0 then i else Slot(ks, k, i + 1)
  }

  /** The buffer reported to the host when `k` goes down. */
  function Pressed(ks: seq<Byte>, k: Byte): (r: seq<Byte>)
    requires |ks| == BUFFER_SIZE
    ensures |r| == BUFFER_SIZE
  {
    var s := Slot(ks, k);
    if s < BUFFER_SIZE then ks[s := k] else seq(BUFFER_SIZE, _ => ROLLOVER)
  }

  /** The buffer reported to the host when `k` goes up. */
  function Released(ks: seq<Byte>, k: Byte): (r: seq<Byte>)
    requires |ks| == BUFFER_SIZE
    ensures |r| == BUFFER_SIZE
  {
    var s := Slot(ks, k);
    if s < BUFFER_SIZE && ks[s] != 0 then ks[..s] + ks[s + 1..] + [0] else ks
  }

  /** The buffer kept after it was reported: a rollover report leaves nothing. */
  function Settled(ks: seq<Byte>): (r: seq<Byte>)
    requires |ks| == BUFFER_SIZE
    ensures |r| == BUFFER_SIZE
    ensures r[0] != ROLLOVER
  {
    if ks[0] == ROLLOVER then NO_KEYS else ks
  }

  /** The keys a raw report leaves on the keyboard page, in order. */
  function Kept(ks: seq<Byte>): (r: seq<Byte>)
    ensures |r| <= |ks|
    ensures forall k :: k in r ==> k in ks && k != 0 && !IsMedia(k)
  {
    if ks == [] then []
    else
      var r := Kept(ks[..|ks| - 1]);
      var k := ks[|ks| - 1];
      if k == 0 || IsMedia(k) then r else r + [k]
  }

  /** The consumer bits a raw report asks for. */
  function ConsumerBits(ks: seq<Byte>): bv8 {
    if ks == [] then 0 else ConsumerBits(ks[..|ks| - 1]) | MediaBit(ks[|ks| - 1])
  }

  function Zeros(n: nat): (r: seq<Byte>)
    ensures |r| == n && forall i :: 0 <= i < n ==> r[i] == 0
  {
    seq(n, _ => 0)
  }

  function Padded(ks: seq<Byte>, n: nat): (r: seq<Byte>)
    ensures |r| == if |ks| < n then n else |ks|
  {
    if |ks| < n then ks + Zeros(n - |ks|) else ks
  }

  /** A raw report cut or padded to six slots. */
  function SixSlots(ks: seq<Byte>): (r: seq<Byte>)
    ensures |r| == BUFFER_SIZE
  {
    if |ks| > BUFFER_SIZE then ks[..BUFFER_SIZE] else Padded(ks, BUFFER_SIZE)
  }

  // ---- The reference: the keys being held, in the order they went down ----

  function Without(held: seq<Byte>, k: Byte): (r: seq<Byte>)
    ensures forall x :: x in r <==> x in held && x != k
    ensures |r| <= |held|
  {
    if held == [] then []
    else if held[0] == k then Without(held[1..], k)
    else [held[0]] + Without(held[1..], k)
  }

  /** A key that is already held keeps its place; a seventh key empties the set. */
  function Hold(held: seq<Byte>, k: Byte, press: bool): seq<Byte> {
    if !press then Without(held, k)
    else if k in held then held
    else if |held| < BUFFER_SIZE then held + [k]
    else []
  }

  /** Some non-zero, non-rollover keys, all different, that fit the buffer. */
  ghost predicate IsHeldSet(held: seq<Byte>) {
    && |held| <= BUFFER_SIZE
    && Distinct(held)
    && forall k :: k in held ==> IsOrdinary(k)
  }

  lemma {:induction false} WithoutAt(held: seq<Byte>, i: nat)
    requires i < |held| && Distinct(held)
    ensures Without(held, held[i]) == held[..i] + held[i + 1..]
  {
    if i == 0 {
      WithoutAbsent(held[1..], held[0]);
    } else {
      WithoutAt(held[1..], i - 1);
      assert held[..i] == [held[0]] + held[1..][..i - 1];
      assert held[1..][i..] == held[i + 1..];
    }
  }

  lemma {:induction false} WithoutAbsent(held: seq<Byte>, k: Byte)
    requires k !in held
    ensures Without(held, k) == held
  {
    if held != [] {
      WithoutAbsent(held[1..], k);
    }
  }

  /** A held key is found at its own place, any other key at the end. */
  lemma SlotOfHeld(held: seq<Byte>, k: Byte)
    requires IsHeldSet(held) && IsOrdinary(k)
    ensures var s := Slot(Padded(held, BUFFER_SIZE), k);
            if k in held then s < |held| && held[s] == k else s == |held|
  {
    var ks := Padded(held, BUFFER_SIZE);
    var s := Slot(ks, k);
    assert forall j :: 0 <= j < |held| ==> ks[j] == held[j] && held[j] in held;
    assert |held| < BUFFER_SIZE ==> ks[|held|] == 0;
  }

  lemma HoldKeepsHeldSet(held: seq<Byte>, k: Byte, press: bool)
    requires IsHeldSet(held) && IsOrdinary(k)
    ensures IsHeldSet(Hold(held, k, press))
  {
    if !press {
      if k in held {
        var i :| 0 <= i < |held| && held[i] == k;
        WithoutAt(held, i);
      } else {
        WithoutAbsent(held, k);
      }
    }
  }

  lemma PressTracksHeld(held: seq<Byte>, k: Byte)
    requires IsHeldSet(held) && IsOrdinary(k)
    ensures Settled(Pressed(Padded(held, BUFFER_SIZE), k)) == Padded(Hold(held, k, true), BUFFER_SIZE)
  {
    SlotOfHeld(held, k);
    var ks := Padded(held, BUFFER_SIZE);
    if k in held {
      assert Pressed(ks, k) == ks;
      assert held[0] in held;
    } else if |held| < BUFFER_SIZE {
      assert Pressed(ks, k) == Padded(held + [k], BUFFER_SIZE);
      assert |held| > 0 ==> held[0] in held;
    }
  }

  lemma ReleaseTracksHeld(held: seq<Byte>, k: Byte)
    requires IsHeldSet(held) && IsOrdinary(k)
    ensures Settled(Released(Padded(held, BUFFER_SIZE), k)) == Padded(Hold(held, k, false), BUFFER_SIZE)
  {
    SlotOfHeld(held, k);
    var ks := Padded(held, BUFFER_SIZE);
    var s := Slot(ks, k);
    if k in held {
      WithoutAt(held, s);
      assert Released(ks, k) == Padded(held[..s] + held[s + 1..], BUFFER_SIZE);
    } else {
      WithoutAbsent(held, k);
      assert Released(ks, k) == ks;
    }
    HoldKeepsHeldSet(held, k, false);
    var left := Hold(held, k, false);
    assert |left| > 0 ==> left[0] in left;
  }

  /** One keypress on an ordinary key changes the buffer as it changes the held set. */
  lemma KeypressTracksHeld(held: seq<Byte>, k: Byte, press: bool)
    requires IsHeldSet(held) && IsOrdinary(k)
    ensures IsHeldSet(Hold(held, k, press))
    ensures var ks := Padded(held, BUFFER_SIZE);
            Settled(if press then Pressed(ks, k) else Released(ks, k))
              == Padded(Hold(held, k, press), BUFFER_SIZE)
  {
    HoldKeepsHeldSet(held, k, press);
    if press {
      PressTracksHeld(held, k);
    } else {
      ReleaseTracksHeld(held, k);
    }
  }

  lemma PressKeepsValid(ks: seq<Byte>, k: Byte)
    requires ValidBuffer(ks) && !IsMedia(k)
    ensures ValidBuffer(Settled(Pressed(ks, k)))
  {
    var s := Slot(ks, k);
    assert forall j :: s < j < BUFFER_SIZE && s < BUFFER_SIZE && ks[s] == 0 ==> ks[j] == 0;
  }

  /** Releasing a key moves the later ones down by one. */
  lemma ReleasedShape(ks: seq<Byte>, k: Byte)
    requires |ks| == BUFFER_SIZE
    ensures var s, r := Slot(ks, k), Released(ks, k);
            if s < BUFFER_SIZE && ks[s] != 0
            then r[5] == 0 && forall j :: 0 <= j < 5 ==> r[j] == ks[if j < s then j else j + 1]
            else r == ks
  {
  }

  lemma ReleaseKeepsValid(ks: seq<Byte>, k: Byte)
    requires ValidBuffer(ks)
    ensures ValidBuffer(Settled(Released(ks, k)))
  {
    ReleasedShape(ks, k);
    hide Released, IsMedia;
    var s, r := Slot(ks, k), Released(ks, k);
    if s < BUFFER_SIZE && ks[s] != 0 && r[0] != ROLLOVER {
      forall i, j | 0 <= i < j < BUFFER_SIZE && r[i] == 0
        ensures r[j] == 0
      {
        if j < 5 {
          assert r[i] == ks[if i < s then i else i + 1] && r[j] == ks[if j < s then j else j + 1];
        }
      }
    }
  }

  lemma PaddedIsValid(kept: seq<Byte>)
    requires |kept| <= BUFFER_SIZE && forall i :: 0 <= i < |kept| ==> kept[i] != 0 && !IsMedia(kept[i])
    ensures ValidBuffer(Settled(Padded(kept, BUFFER_SIZE)))
  {
    var ks := Padded(kept, BUFFER_SIZE);
    assert forall i :: 0 <= i < BUFFER_SIZE ==> ks[i] == if i < |kept| then kept[i] else 0;
  }

  lemma ReportIsValid(ks: seq<Byte>)
    ensures ValidBuffer(Settled(Padded(Kept(SixSlots(ks)), BUFFER_SIZE)))
  {
    hide SixSlots, Padded, Settled, ValidBuffer;
    var kept := Kept(SixSlots(ks));
    assert forall i :: 0 <= i < |kept| ==> kept[i] in kept;
    PaddedIsValid(kept);
  }
}
