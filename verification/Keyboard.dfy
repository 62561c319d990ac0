/** The keyboard state: three bitmaps of 256 keys in eight words each, fed by window messages. */
module KeyboardState {

  type Key = bv8

  const VK_RETURN: Key := 0x0D
  const VK_SHIFT: Key := 0x10
  const VK_CONTROL: Key := 0x11
  const VK_MENU: Key := 0x12
  const VK_LSHIFT: Key := 0xA0
  const VK_RSHIFT: Key := 0xA1
  const VK_LCONTROL: Key := 0xA2
  const VK_RCONTROL: Key := 0xA3
  const VK_LMENU: Key := 0xA4
  const VK_RMENU: Key := 0xA5
  const VK_NUMPADENTER: Key := 0xE8

  // ----- bits -----

  function WordBits(vk: Key): bv32 { ((vk as bv32) & 0x7FFFFFE0) >> 5 }

  function Mask(vk: Key): bv32 { 1 << ((vk as bv32) & 0x1F) }

  /** The word of a key as an array index. */
  function Word(vk: Key): (r: nat)
    ensures r < 8
  {
    var w := WordBits(vk);
    if w == 0 then 0 else if w == 1 then 1 else if w == 2 then 2 else if w == 3 then 3
    else if w == 4 then 4 else if w == 5 then 5 else if w == 6 then 6 else 7
  }

  predicate GetKey(words: seq<bv32>, vk: Key)
    requires |words| == 8
  {
    words[Word(vk)] & Mask(vk) == Mask(vk)
  }

  function WithKey(word: bv32, vk: Key, down: bool): bv32 {
    if down then word | Mask(vk) else word & !Mask(vk)
  }

  lemma MaskBit(a: bv32, w: bv32)
    requires a < 32
    ensures (w | (1 << a)) & (1 << a) == 1 << a
    ensures (w & !(1 << a)) & (1 << a) != 1 << a
  {
  }

  lemma MaskOtherBit(a: bv32, b: bv32, w: bv32)
    requires a < 32 && b < 32
    ensures a != b ==> (w | (1 << a)) & (1 << b) == w & (1 << b)
    ensures a != b ==> (w & !(1 << a)) & (1 << b) == w & (1 << b)
  {
  }

  lemma SameWordSameBit(a: Key, b: Key)
    requires WordBits(a) == WordBits(b) && (a as bv32) & 0x1F == (b as bv32) & 0x1F
    ensures a == b
  {
  }

  lemma WordOfBits(a: Key, b: Key)
    requires Word(a) == Word(b)
    ensures WordBits(a) == WordBits(b)
  {
  }

  lemma WordBitsSmall(a: Key)
    ensures WordBits(a) < 8 && (a as bv32) & 0x1F < 32
  {
  }

  /** Setting or clearing the bit of one key changes that key and no other. */
  lemma SetKeyIsPointwise(words: seq<bv32>, vk: Key, down: bool, other: Key)
    requires |words| == 8
    ensures var after := words[Word(vk) := WithKey(words[Word(vk)], vk, down)];
            GetKey(after, other) == if other == vk then down else GetKey(words, other)
  {
    hide WordBits, Word;
    WordBitsSmall(vk);
    WordBitsSmall(other);
    if Word(other) == Word(vk) {
      WordOfBits(vk, other);
      MaskBit((vk as bv32) & 0x1F, words[Word(vk)]);
      MaskOtherBit((vk as bv32) & 0x1F, (other as bv32) & 0x1F, words[Word(vk)]);
      if (vk as bv32) & 0x1F == (other as bv32) & 0x1F {
        SameWordSameBit(vk, other);
      }
    }
  }

  ghost function KeysOf(words: seq<bv32>): iset<Key>
    requires |words| == 8
  {
    iset vk: Key | GetKey(words, vk)
  }

  ghost function With(s: iset<Key>, vk: Key, down: bool): iset<Key> {
    if down then s + iset{vk} else s - iset{vk}
  }

  lemma WithFacts(k: Keys, t: Key, down: bool)
    ensures forall s :: With(With(s, t, down), t, down) == With(s, t, down)
    ensures With(With(k.down, VK_RSHIFT, false), VK_LSHIFT, false) == k.down - iset{VK_LSHIFT, VK_RSHIFT}
    ensures With(k.pressed, t, true) == k.pressed + iset{t} && With(k.released, t, true) == k.released + iset{t}
  {
  }

  lemma SetKeyIsSet(words: seq<bv32>, vk: Key, down: bool)
    requires |words| == 8
    ensures KeysOf(words[Word(vk) := WithKey(words[Word(vk)], vk, down)]) == With(KeysOf(words), vk, down)
  {
    hide GetKey, Word, WithKey;
    var after := words[Word(vk) := WithKey(words[Word(vk)], vk, down)];
    forall other: Key
      ensures other in KeysOf(after) <==> other in With(KeysOf(words), vk, down)
    {
      SetKeyIsPointwise(words, vk, down, other);
    }
  }

  /** A key is bit `vk % 32` of word `vk / 32`: the words in which the caller of a snapshot finds it. */
  lemma KeyIsBit(words: seq<bv32>, vk: Key)
    requires |words| == 8
    ensures GetKey(words, vk) <==> (words[Word(vk)] >> ((vk & 0x1F) as bv32)) & 1 == 1
    ensures (vk >> 5 == 0 ==> Word(vk) == 0) && (vk >> 5 == 1 ==> Word(vk) == 1)
    ensures (vk >> 5 == 2 ==> Word(vk) == 2) && (vk >> 5 == 3 ==> Word(vk) == 3)
    ensures (vk >> 5 == 4 ==> Word(vk) == 4) && (vk >> 5 == 5 ==> Word(vk) == 5)
    ensures (vk >> 5 == 6 ==> Word(vk) == 6) && (vk >> 5 == 7 ==> Word(vk) == 7)
  {
    hide Word;
    BitOfWord(words[Word(vk)], vk);
    WordIsUpperBits(vk);
  }

  lemma BitOfWord(w: bv32, vk: Key)
    ensures w & Mask(vk) == Mask(vk) <==> (w >> ((vk & 0x1F) as bv32)) & 1 == 1
  {
  }

  lemma WordIsUpperBits(vk: Key)
    ensures (vk >> 5 == 0 ==> Word(vk) == 0) && (vk >> 5 == 1 ==> Word(vk) == 1)
    ensures (vk >> 5 == 2 ==> Word(vk) == 2) && (vk >> 5 == 3 ==> Word(vk) == 3)
    ensures (vk >> 5 == 4 ==> Word(vk) == 4) && (vk >> 5 == 5 ==> Word(vk) == 5)
    ensures (vk >> 5 == 6 ==> Word(vk) == 6) && (vk >> 5 == 7 ==> Word(vk) == 7)
  {
  }

  lemma NoKeys()
    ensures KeysOf([0, 0, 0, 0, 0, 0, 0, 0]) == iset{}
  {
  }

  // ----- messages -----

  datatype Kind = Activate | ActivateApp | KeyDown | SysKeyDown | KeyUp | SysKeyUp | Unrelated

  datatype Message = Message(kind: Kind, wParam: bv64, lParam: bv64)

  predicate IsExtendedKey(lParam: bv64) { lParam & 0x1000000 == 0x1000000 }

  predicate IsReset(m: Message) { m.kind == Activate || m.kind == ActivateApp }

  predicate InRange(wParam: bv64) { !(wParam > 0xFF) }

  /** A message about a key that is known. */
  predicate IsKey(m: Message) {
    !IsReset(m) && m.kind != Unrelated && InRange(m.wParam)
  }

  predicate IsDown(m: Message) { m.kind == KeyDown || m.kind == SysKeyDown }

  function RawKey(m: Message): Key { (m.wParam & 0xFF) as bv8 }

  /** Left and right of the keys that come in pairs, and the two Enter keys, told apart. */
  function Translated(m: Message): Key {
    var vk := RawKey(m);
    if vk == VK_RETURN then (if IsExtendedKey(m.lParam) then VK_NUMPADENTER else VK_RETURN)
    else if vk == VK_SHIFT then (if IsExtendedKey(m.lParam) then VK_RSHIFT else VK_LSHIFT)
    else if vk == VK_CONTROL then (if IsExtendedKey(m.lParam) then VK_RCONTROL else VK_LCONTROL)
    else if vk == VK_MENU then (if IsExtendedKey(m.lParam) then VK_RMENU else VK_LMENU)
    else vk
  }

  /** Key messages are about codes of eight bits.  Bit 24 tells the right one of a pair, and the
      Enter key of the number pad; every other key is what it is. */
  lemma TranslatedMeans(m: Message)
    ensures IsKey(m) <==> m.kind in {KeyDown, SysKeyDown, KeyUp, SysKeyUp} && m.wParam <= 255
    ensures var (raw, t, extended) := (RawKey(m), Translated(m), m.lParam & (1 << 24) != 0);
            && raw as bv64 == m.wParam & 0xFF
            && (raw == 0x0D ==> t == if extended then 0xE8 else 0x0D)
            && (raw == 0x10 ==> t == if extended then 0xA1 else 0xA0)
            && (raw == 0x11 ==> t == if extended then 0xA3 else 0xA2)
            && (raw == 0x12 ==> t == if extended then 0xA5 else 0xA4)
            && (raw !in {0x0D, 0x10, 0x11, 0x12} ==> t == raw)
  {
    assert 1 << 24 == 0x1000000 as bv64;
  }

  // ----- what the bitmaps stand for -----

  datatype Keys = Keys(down: iset<Key>, pressed: iset<Key>, released: iset<Key>, lastDown: Key, lastUp: Key)

  ghost function Nothing(): Keys { Keys(iset{}, iset{}, iset{}, 0, 0) }

  /** A frame begins: what was pressed and released is forgotten, what is down is not. */
  ghost function FrameStart(k: Keys): Keys { Keys(k.down, iset{}, iset{}, 0, 0) }

  /** A key goes down or up: the code itself and what it is translated to; letting go of the
      generic Shift lets go of both sides. */
  ghost function AfterKey(k: Keys, vk: Key, t: Key, d: bool): Keys {
    var base := if vk == VK_SHIFT && !d then k.down - iset{VK_LSHIFT, VK_RSHIFT} else k.down;
    var down := With(With(base, vk, d), t, d);
    if d then Keys(down, k.pressed + iset{t}, k.released, t, k.lastUp)
    else Keys(down, k.pressed, k.released + iset{t}, k.lastDown, t)
  }

  ghost function After(k: Keys, m: Message): Keys {
    if IsReset(m) then Nothing()
    else if !IsKey(m) then k
    else AfterKey(k, RawKey(m), Translated(m), IsDown(m))
  }

  ghost function AfterAll(k: Keys, ms: seq<Message>): Keys {
    if ms == [] then k else After(AfterAll(k, ms[..|ms| - 1]), ms[|ms| - 1])
  }

  class Keyboard {
    const keyState: array<bv32>
    const keyDown: array<bv32>
    const keyUp: array<bv32>
    var lastKeyDown: Key
    var lastKeyUp: Key

    ghost predicate Valid()
      reads this
    {
      && keyState.Length == 8 && keyDown.Length == 8 && keyUp.Length == 8
      && keyState != keyDown && keyState != keyUp && keyDown != keyUp
    }

    ghost function Abs(): Keys
      requires Valid()
      reads this, keyState, keyDown, keyUp
    {
      Keys(KeysOf(keyState[..]), KeysOf(keyDown[..]), KeysOf(keyUp[..]), lastKeyDown, lastKeyUp)
    }

    constructor ()
      ensures Valid() && Abs() == Nothing()
      ensures fresh(keyState) && fresh(keyDown) && fresh(keyUp)
    {
      keyState := new bv32[8](_ => 0);
      keyDown := new bv32[8](_ => 0);
      keyUp := new bv32[8](_ => 0);
      lastKeyDown, lastKeyUp := 0, 0;
      new;
      NoKeys();
      assert keyState[..] == [0, 0, 0, 0, 0, 0, 0, 0];
      assert keyDown[..] == [0, 0, 0, 0, 0, 0, 0, 0];
      assert keyUp[..] == [0, 0, 0, 0, 0, 0, 0, 0];
    }

    static method SetKey(words: array<bv32>, vk: Key, down: bool)
      requires words.Length == 8
      modifies words
      ensures KeysOf(words[..]) == With(old(KeysOf(words[..])), vk, down)
    {
      hide GetKey, Mask;
      SetKeyIsSet(words[..], vk, down);
      ghost var after := words[..][Word(vk) := WithKey(words[Word(vk)], vk, down)];
      if down {
        words[Word(vk)] := words[Word(vk)] | Mask(vk);
      } else {
        words[Word(vk)] := words[Word(vk)] & !Mask(vk);
      }
      assert words[..] == after;
    }

    static method ClearWords(words: array<bv32>)
      requires words.Length == 8
      modifies words
      ensures KeysOf(words[..]) == iset{}
    {
      words[0], words[1], words[2], words[3] := 0, 0, 0, 0;
      words[4], words[5], words[6], words[7] := 0, 0, 0, 0;
      assert words[..] == [0, 0, 0, 0, 0, 0, 0, 0];
      NoKeys();
    }

    method ResetFrame()
      requires Valid()
      modifies this, keyDown, keyUp
      ensures Valid() && Abs() == FrameStart(old(Abs()))
    {
      ClearWords(keyDown);
      ClearWords(keyUp);
      lastKeyDown, lastKeyUp := 0, 0;
    }

    method Reset()
      requires Valid()
      modifies this, keyState, keyDown, keyUp
      ensures Valid() && Abs() == Nothing()
    {
      ClearWords(keyState);
      ResetFrame();
    }

    /** A snapshot is the state as it was; taking one for a new frame starts that frame. */
    method GetState(newFrame: bool) returns (state: seq<bv32>, down: seq<bv32>, up: seq<bv32>, lastDown: Key,
                                             lastUp: Key)
      requires Valid()
      modifies this, keyDown, keyUp
      ensures Valid() && |state| == |down| == |up| == 8
      ensures old(Abs()) == Keys(KeysOf(state), KeysOf(down), KeysOf(up), lastDown, lastUp)
      ensures Abs() == if newFrame then FrameStart(old(Abs())) else old(Abs())
    {
      state, down, up := keyState[..], keyDown[..], keyUp[..];
      lastDown, lastUp := lastKeyDown, lastKeyUp;
      if newFrame {
        ResetFrame();
      }
    }

    method ProcessMessage(m: Message)
      requires Valid()
      modifies this, keyState, keyDown, keyUp
      ensures Valid() && Abs() == After(old(Abs()), m)
    {
      hide AfterKey, RawKey, Translated, InRange;
      if m.kind == Unrelated {
        return;
      }
      if m.kind == Activate || m.kind == ActivateApp {
        Reset();
        return;
      }
      var down := m.kind == KeyDown || m.kind == SysKeyDown;
      if !InRange(m.wParam) {
        return;
      }
      HandleKey(RawKey(m), Translated(m), down);
    }

    /** The part of the message handling that changes the bitmaps. */
    method HandleKey(vk: Key, translated: Key, down: bool)
      requires Valid()
      modifies this, keyState, keyDown, keyUp
      ensures Valid() && Abs() == AfterKey(old(Abs()), vk, translated, down)
    {
      hide KeysOf, GetKey, Mask, With;
      WithFacts(Abs(), translated, down);
      if vk == VK_SHIFT && !down {
        SetKey(keyState, VK_RSHIFT, false);
        SetKey(keyState, VK_LSHIFT, false);
      }
      SetKey(keyState, vk, down);
      if vk != translated {
        SetKey(keyState, translated, down);
      }
      assert KeysOf(keyState[..]) == AfterKey(old(Abs()), vk, translated, down).down;
      if down {
        SetKey(keyDown, translated, true);
        lastKeyDown := translated;
      } else {
        SetKey(keyUp, translated, true);
        lastKeyUp := translated;
      }
    }
  }

  // ----- whole runs -----

  /** Message `i` of a run is about key `t`, of the given kind, and no later message resets. */
  ghost predicate Counts(ms: seq<Message>, i: nat, t: Key, down: bool) {
    i < |ms| && IsKey(ms[i]) && IsDown(ms[i]) == down && Translated(ms[i]) == t &&
    forall j | i < j < |ms| :: !IsReset(ms[j])
  }

  /** What a snapshot reports as pressed and released are exactly the translated keys of the
      messages since the frame began or the keyboard was last reset. */
  lemma {:induction false} FrameReportsExactly(k: Keys, ms: seq<Message>, t: Key)
    ensures var r := AfterAll(FrameStart(k), ms);
            && (t in r.pressed <==> exists i :: Counts(ms, i, t, true))
            && (t in r.released <==> exists i :: Counts(ms, i, t, false))
  {
    hide Translated, IsReset, IsKey, IsDown;
    if ms == [] {
      assert forall i, d :: !Counts(ms, i, t, d);
    } else {
      FrameReportsExactly(k, ms[..|ms| - 1], t);
      CountsOneMore(ms, ms[..|ms| - 1], t, true);
      CountsOneMore(ms, ms[..|ms| - 1], t, false);
      PressedAfter(AfterAll(FrameStart(k), ms[..|ms| - 1]), ms[|ms| - 1], t);
    }
  }

  /** One more message: it counts itself, or an earlier one still does. */
  lemma CountsOneMore(ms: seq<Message>, before: seq<Message>, t: Key, d: bool)
    requires ms != [] && before == ms[..|ms| - 1]
    ensures var m := ms[|ms| - 1];
            (exists i :: Counts(ms, i, t, d)) <==>
            (IsKey(m) && IsDown(m) == d && Translated(m) == t) ||
            (!IsReset(m) && exists i :: Counts(before, i, t, d))
  {
    hide Translated, IsReset, IsKey, IsDown;
    var n := |ms| - 1;
    forall i: nat | i < n
      ensures Counts(ms, i, t, d) <==> Counts(before, i, t, d) && !IsReset(ms[n])
    {
      assert forall j | 0 <= j < n :: before[j] == ms[j];
    }
    assert Counts(ms, n, t, d) <==> IsKey(ms[n]) && IsDown(ms[n]) == d && Translated(ms[n]) == t;
  }

  lemma PressedAfter(k: Keys, m: Message, t: Key)
    ensures t in After(k, m).pressed <==>
            (IsKey(m) && IsDown(m) && Translated(m) == t) || (!IsReset(m) && t in k.pressed)
    ensures t in After(k, m).released <==>
            (IsKey(m) && !IsDown(m) && Translated(m) == t) || (!IsReset(m) && t in k.released)
  {
  }

  /** A message about key `t`: its own code, or what that is translated to. */
  predicate Touches(m: Message, t: Key) { IsKey(m) && (RawKey(m) == t || Translated(m) == t) }

  /** A message after which key `t` is up: a key let go, generic Shift for both its sides, or a reset. */
  predicate LetsGo(m: Message, t: Key) {
    || IsReset(m)
    || (!IsDown(m) && Touches(m, t))
    || (!IsDown(m) && IsKey(m) && RawKey(m) == 0x10 && (t == 0xA0 || t == 0xA1))
  }

  /** Message `i` presses key `t`, and no later one lets go of it. */
  ghost predicate Holds(ms: seq<Message>, i: nat, t: Key) {
    i < |ms| && IsDown(ms[i]) && Touches(ms[i], t) && forall j | i < j < |ms| :: !LetsGo(ms[j], t)
  }

  /** A key is down exactly when it was pressed and not let go of since, or was down before and
      never let go of. */
  lemma {:induction false} DownIff(k: Keys, ms: seq<Message>, t: Key)
    ensures t in AfterAll(k, ms).down <==>
            (exists i :: Holds(ms, i, t)) || (t in k.down && forall j | 0 <= j < |ms| :: !LetsGo(ms[j], t))
  {
    hide After, Touches, LetsGo, IsDown;
    if ms == [] {
      assert forall i :: !Holds(ms, i, t);
    } else {
      var (n, front) := (|ms| - 1, ms[..|ms| - 1]);
      DownIff(k, front, t);
      DownAfter(AfterAll(k, front), ms[n], t);
      forall i: nat | i < n
        ensures Holds(ms, i, t) <==> Holds(front, i, t) && !LetsGo(ms[n], t)
      {
        assert forall j | 0 <= j < n :: front[j] == ms[j];
      }
      assert Holds(ms, n, t) <==> IsDown(ms[n]) && Touches(ms[n], t);
    }
  }

  lemma DownAfter(k: Keys, m: Message, t: Key)
    ensures t in After(k, m).down <==> (IsDown(m) && Touches(m, t)) || (t in k.down && !LetsGo(m, t))
  {
    hide RawKey, Translated;
  }

  /** Message `i` is the last press, or the last release, since the last reset. */
  ghost predicate IsLast(ms: seq<Message>, i: nat, down: bool) {
    && i < |ms| && IsKey(ms[i]) && IsDown(ms[i]) == down
    && forall j | i < j < |ms| :: !IsReset(ms[j]) && !(IsKey(ms[j]) && IsDown(ms[j]) == down)
  }

  /** The last key of a snapshot is the translated key of that message, or none. */
  lemma {:induction false} LastKeys(k: Keys, ms: seq<Message>, i: nat)
    ensures var r := AfterAll(FrameStart(k), ms);
            && (IsLast(ms, i, true) ==> r.lastDown == Translated(ms[i]))
            && (IsLast(ms, i, false) ==> r.lastUp == Translated(ms[i]))
            && ((forall j :: !IsLast(ms, j, true)) ==> r.lastDown == 0)
            && ((forall j :: !IsLast(ms, j, false)) ==> r.lastUp == 0)
  {
    hide Translated, RawKey, IsReset, IsKey, IsDown;
    if ms != [] {
      var (n, front) := (|ms| - 1, ms[..|ms| - 1]);
      LastKeys(k, front, i);
      LastAfter(AfterAll(FrameStart(k), front), ms[n]);
      LastOneMore(ms, front, true);
      LastOneMore(ms, front, false);
      assert i < n ==> front[i] == ms[i];
    }
  }

  lemma LastAfter(k: Keys, m: Message)
    ensures After(k, m).lastDown ==
            if IsKey(m) && IsDown(m) then Translated(m) else if IsReset(m) then 0 else k.lastDown
    ensures After(k, m).lastUp ==
            if IsKey(m) && !IsDown(m) then Translated(m) else if IsReset(m) then 0 else k.lastUp
  {
  }

  /** One more message: it is the last, or leaves the last one what it was. */
  lemma LastOneMore(ms: seq<Message>, front: seq<Message>, d: bool)
    requires ms != [] && front == ms[..|ms| - 1]
    ensures var (n, m) := (|ms| - 1, ms[|ms| - 1]);
            var own := IsKey(m) && IsDown(m) == d;
            && (IsLast(ms, n, d) <==> own)
            && forall i: nat | i < n :: IsLast(ms, i, d) <==> IsLast(front, i, d) && !own && !IsReset(m)
  {
    hide IsReset, IsKey, IsDown;
    var n := |ms| - 1;
    forall i: nat | i < n
      ensures IsLast(ms, i, d) <==> IsLast(front, i, d) && !(IsKey(ms[n]) && IsDown(ms[n]) == d) && !IsReset(ms[n])
    {
      assert forall j | 0 <= j < n :: front[j] == ms[j];
    }
  }

  ghost predicate ShiftAgrees(k: Keys) {
    VK_SHIFT in k.down <==> VK_LSHIFT in k.down || VK_RSHIFT in k.down
  }

  /** Windows sends the generic code for both Shift keys. */
  ghost predicate NoRawShifts(ms: seq<Message>) {
    forall i | 0 <= i < |ms| && IsKey(ms[i]) :: RawKey(ms[i]) != VK_LSHIFT && RawKey(ms[i]) != VK_RSHIFT
  }

  /** Then Shift is down exactly when one of the two Shift keys is. */
  lemma {:induction false} ShiftIsEither(k: Keys, ms: seq<Message>)
    requires ShiftAgrees(k) && NoRawShifts(ms)
    ensures ShiftAgrees(AfterAll(k, ms))
  {
    if ms != [] {
      var n := |ms| - 1;
      ShiftIsEither(k, ms[..n]);
      var m := ms[n];
      assert IsKey(m) ==> RawKey(m) != VK_LSHIFT && RawKey(m) != VK_RSHIFT;
    }
  }

  // ----- Control and Alt -----

  datatype Pair = ControlKeys | MenuKeys

  function Generic(p: Pair): Key { if p.ControlKeys? then VK_CONTROL else VK_MENU }
  function LeftOf(p: Pair): Key { if p.ControlKeys? then VK_LCONTROL else VK_LMENU }
  function RightOf(p: Pair): Key { if p.ControlKeys? then VK_RCONTROL else VK_RMENU }

  ghost predicate SidesAgree(k: Keys, p: Pair) {
    Generic(p) in k.down <==> LeftOf(p) in k.down || RightOf(p) in k.down
  }

  predicate About(m: Message, p: Pair) { IsKey(m) && RawKey(m) == Generic(p) }

  /** The key on the other side of the one a message is about. */
  function OtherSide(m: Message, p: Pair): Key {
    if Translated(m) == RightOf(p) then LeftOf(p) else RightOf(p)
  }

  ghost predicate NoRawSides(ms: seq<Message>, p: Pair) {
    forall i | 0 <= i < |ms| && IsKey(ms[i]) :: RawKey(ms[i]) != LeftOf(p) && RawKey(ms[i]) != RightOf(p)
  }

  /** What one message does to Control, or to Alt, and its two sides: letting go of one side lets
      go of the generic key, whether or not the other side is held. */
  lemma SidesAfter(k: Keys, m: Message, p: Pair)
    requires IsKey(m) ==> RawKey(m) != LeftOf(p) && RawKey(m) != RightOf(p)
    ensures SidesAgree(After(k, m), p) <==>
            (if IsReset(m) then true
             else if About(m, p) then IsDown(m) || OtherSide(m, p) !in k.down
             else SidesAgree(k, p))
  {
  }

  /** Message `i` is the last about these keys since the last reset, and lets go of one side while
      the other is held. */
  ghost predicate LetGoOfOne(k: Keys, ms: seq<Message>, i: nat, p: Pair) {
    && i < |ms| && About(ms[i], p) && !IsDown(ms[i])
    && OtherSide(ms[i], p) in AfterAll(k, ms[..i]).down
    && forall j | i < j < |ms| :: !About(ms[j], p) && !IsReset(ms[j])
  }

  /** Control and Alt are not treated like Shift.  After any run of messages the generic key
      agrees with its sides, exactly when the last message about them did not let go of one side
      while the other was held. */
  lemma {:induction false} SidesAgreeIff(k: Keys, ms: seq<Message>, p: Pair)
    requires SidesAgree(k, p) && NoRawSides(ms, p)
    ensures SidesAgree(AfterAll(k, ms), p) <==> !exists i :: LetGoOfOne(k, ms, i, p)
  {
    hide SidesAgree, OtherSide, IsDown, After, LetGoOfOne, Translated;
    if ms != [] {
      var (n, front) := (|ms| - 1, ms[..|ms| - 1]);
      SidesAgreeIff(k, front, p);
      assert IsKey(ms[n]) ==> RawKey(ms[n]) != LeftOf(p) && RawKey(ms[n]) != RightOf(p);
      SidesAfter(AfterAll(k, front), ms[n], p);
      LetGoBefore(k, ms, front, p);
    } else {
      NoneLetGo(k, p);
    }
  }

  lemma NoneLetGo(k: Keys, p: Pair)
    ensures forall i :: !LetGoOfOne(k, [], i, p)
  {
  }

  /** One more message: it lets go itself, or is about something else. */
  lemma LetGoBefore(k: Keys, ms: seq<Message>, front: seq<Message>, p: Pair)
    requires ms != [] && front == ms[..|ms| - 1]
    ensures var (n, m) := (|ms| - 1, ms[|ms| - 1]);
            (exists i :: LetGoOfOne(k, ms, i, p)) <==>
            (About(m, p) && !IsDown(m) && OtherSide(m, p) in AfterAll(k, front).down) ||
            (!About(m, p) && !IsReset(m) && exists i :: LetGoOfOne(k, front, i, p))
  {
    hide OtherSide, About, IsReset, IsDown, AfterAll;
    var n := |ms| - 1;
    forall i: nat | i < n
      ensures LetGoOfOne(k, ms, i, p) <==> LetGoOfOne(k, front, i, p) && !About(ms[n], p) && !IsReset(ms[n])
    {
      assert front[..i] == ms[..i];
      assert forall j | 0 <= j < n :: front[j] == ms[j];
    }
    assert LetGoOfOne(k, ms, n, p) <==>
           About(ms[n], p) && !IsDown(ms[n]) && OtherSide(ms[n], p) in AfterAll(k, ms[..n]).down;
  }

  /** Both sides pressed, one let go. */
  lemma BothControls(lParam: bv64)
    requires !IsExtendedKey(lParam)
    ensures var right := Message(KeyDown, 0x11, lParam | 0x1000000);
            var k := After(After(After(Nothing(), Message(KeyDown, 0x11, lParam)), right),
                           Message(KeyUp, 0x11, lParam));
            VK_CONTROL !in k.down && VK_RCONTROL in k.down
  {
  }
}
