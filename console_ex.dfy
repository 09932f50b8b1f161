/**
 * Masked password input (ConsoleEx.cs): a fold of the console's key stream
 * into a buffer, with one mask echoed per buffered character.
 */
module ConsoleEx {
  import opened Wrappers

  /**
   * .NET's ConsoleKey: an enumeration over int whose members are the
   * virtual-key codes below. ReadKey may also report a code that is not a
   * named member.
   */
  newtype ConsoleKey = int

  // Editing and navigation keys
  const Backspace: ConsoleKey := 0x08
  const Tab: ConsoleKey := 0x09
  const Clear: ConsoleKey := 0x0C
  const Enter: ConsoleKey := 0x0D
  const Pause: ConsoleKey := 0x13
  const Escape: ConsoleKey := 0x1B
  const Spacebar: ConsoleKey := 0x20
  const PageUp: ConsoleKey := 0x21
  const PageDown: ConsoleKey := 0x22
  const End: ConsoleKey := 0x23
  const Home: ConsoleKey := 0x24
  const LeftArrow: ConsoleKey := 0x25
  const UpArrow: ConsoleKey := 0x26
  const RightArrow: ConsoleKey := 0x27
  const DownArrow: ConsoleKey := 0x28
  const Select: ConsoleKey := 0x29
  const Print: ConsoleKey := 0x2A
  const Execute: ConsoleKey := 0x2B
  const PrintScreen: ConsoleKey := 0x2C
  const Insert: ConsoleKey := 0x2D
  const Delete: ConsoleKey := 0x2E
  const Help: ConsoleKey := 0x2F

  // Digit keys
  const D0: ConsoleKey := 0x30
  const D1: ConsoleKey := 0x31
  const D2: ConsoleKey := 0x32
  const D3: ConsoleKey := 0x33
  const D4: ConsoleKey := 0x34
  const D5: ConsoleKey := 0x35
  const D6: ConsoleKey := 0x36
  const D7: ConsoleKey := 0x37
  const D8: ConsoleKey := 0x38
  const D9: ConsoleKey := 0x39

  // Letter keys
  const A: ConsoleKey := 0x41
  const B: ConsoleKey := 0x42
  const C: ConsoleKey := 0x43
  const D: ConsoleKey := 0x44
  const E: ConsoleKey := 0x45
  const F: ConsoleKey := 0x46
  const G: ConsoleKey := 0x47
  const H: ConsoleKey := 0x48
  const I: ConsoleKey := 0x49
  const J: ConsoleKey := 0x4A
  const K: ConsoleKey := 0x4B
  const L: ConsoleKey := 0x4C
  const M: ConsoleKey := 0x4D
  const N: ConsoleKey := 0x4E
  const O: ConsoleKey := 0x4F
  const P: ConsoleKey := 0x50
  const Q: ConsoleKey := 0x51
  const R: ConsoleKey := 0x52
  const S: ConsoleKey := 0x53
  const T: ConsoleKey := 0x54
  const U: ConsoleKey := 0x55
  const V: ConsoleKey := 0x56
  const W: ConsoleKey := 0x57
  const X: ConsoleKey := 0x58
  const Y: ConsoleKey := 0x59
  const Z: ConsoleKey := 0x5A

  // Windows and system keys
  const LeftWindows: ConsoleKey := 0x5B
  const RightWindows: ConsoleKey := 0x5C
  const Applications: ConsoleKey := 0x5D
  const Sleep: ConsoleKey := 0x5F

  // Numeric keypad
  const NumPad0: ConsoleKey := 0x60
  const NumPad1: ConsoleKey := 0x61
  const NumPad2: ConsoleKey := 0x62
  const NumPad3: ConsoleKey := 0x63
  const NumPad4: ConsoleKey := 0x64
  const NumPad5: ConsoleKey := 0x65
  const NumPad6: ConsoleKey := 0x66
  const NumPad7: ConsoleKey := 0x67
  const NumPad8: ConsoleKey := 0x68
  const NumPad9: ConsoleKey := 0x69
  const Multiply: ConsoleKey := 0x6A
  const Add: ConsoleKey := 0x6B
  const Separator: ConsoleKey := 0x6C
  const Subtract: ConsoleKey := 0x6D
  const Decimal: ConsoleKey := 0x6E
  const Divide: ConsoleKey := 0x6F

  // Function keys
  const F1: ConsoleKey := 0x70
  const F2: ConsoleKey := 0x71
  const F3: ConsoleKey := 0x72
  const F4: ConsoleKey := 0x73
  const F5: ConsoleKey := 0x74
  const F6: ConsoleKey := 0x75
  const F7: ConsoleKey := 0x76
  const F8: ConsoleKey := 0x77
  const F9: ConsoleKey := 0x78
  const F10: ConsoleKey := 0x79
  const F11: ConsoleKey := 0x7A
  const F12: ConsoleKey := 0x7B
  const F13: ConsoleKey := 0x7C
  const F14: ConsoleKey := 0x7D
  const F15: ConsoleKey := 0x7E
  const F16: ConsoleKey := 0x7F
  const F17: ConsoleKey := 0x80
  const F18: ConsoleKey := 0x81
  const F19: ConsoleKey := 0x82
  const F20: ConsoleKey := 0x83
  const F21: ConsoleKey := 0x84
  const F22: ConsoleKey := 0x85
  const F23: ConsoleKey := 0x86
  const F24: ConsoleKey := 0x87

  // Browser, volume, media and launch keys
  const BrowserBack: ConsoleKey := 0xA6
  const BrowserForward: ConsoleKey := 0xA7
  const BrowserRefresh: ConsoleKey := 0xA8
  const BrowserStop: ConsoleKey := 0xA9
  const BrowserSearch: ConsoleKey := 0xAA
  const BrowserFavorites: ConsoleKey := 0xAB
  const BrowserHome: ConsoleKey := 0xAC
  const VolumeMute: ConsoleKey := 0xAD
  const VolumeDown: ConsoleKey := 0xAE
  const VolumeUp: ConsoleKey := 0xAF
  const MediaNext: ConsoleKey := 0xB0
  const MediaPrevious: ConsoleKey := 0xB1
  const MediaStop: ConsoleKey := 0xB2
  const MediaPlay: ConsoleKey := 0xB3
  const LaunchMail: ConsoleKey := 0xB4
  const LaunchMediaSelect: ConsoleKey := 0xB5
  const LaunchApp1: ConsoleKey := 0xB6
  const LaunchApp2: ConsoleKey := 0xB7

  // OEM keys
  const Oem1: ConsoleKey := 0xBA
  const OemPlus: ConsoleKey := 0xBB
  const OemComma: ConsoleKey := 0xBC
  const OemMinus: ConsoleKey := 0xBD
  const OemPeriod: ConsoleKey := 0xBE
  const Oem2: ConsoleKey := 0xBF
  const Oem3: ConsoleKey := 0xC0
  const Oem4: ConsoleKey := 0xDB
  const Oem5: ConsoleKey := 0xDC
  const Oem6: ConsoleKey := 0xDD
  const Oem7: ConsoleKey := 0xDE
  const Oem8: ConsoleKey := 0xDF
  const Oem102: ConsoleKey := 0xE2

  // Other keys
  const Process: ConsoleKey := 0xE5
  const Packet: ConsoleKey := 0xE7
  const Attention: ConsoleKey := 0xF6
  const CrSel: ConsoleKey := 0xF7
  const ExSel: ConsoleKey := 0xF8
  const EraseEndOfFile: ConsoleKey := 0xF9
  const Play: ConsoleKey := 0xFA
  const Zoom: ConsoleKey := 0xFB
  const NoName: ConsoleKey := 0xFC
  const Pa1: ConsoleKey := 0xFD
  const OemClear: ConsoleKey := 0xFE

  /** One key press as ReadKey reports it: the key and the character it produced. */
  datatype KeyInfo = KeyInfo(key: ConsoleKey, keyChar: char)

  /** What ReadPassword writes to the screen. */
  datatype Echo =
    | Mask       // "*" for a buffered character
    | Erase      // "\b\0\b": the last mask is blanked out
    | NewLine    // written when Enter ends the input

  /**
   * Whether a key press types a character into the password: the keys the
   * `switch` of IsCharKey lists are not character keys, every other key,
   * named or not, is.
   */
  predicate IsCharKey(k: ConsoleKey) {
    !(
      || k == Backspace || k == Tab || k == Clear || k == Enter || k == Pause || k == Escape || k == Spacebar
      || k == PageUp || k == PageDown || k == End || k == Home || k == LeftArrow || k == UpArrow || k == RightArrow || k == DownArrow
      || k == Select || k == Print || k == Execute || k == PrintScreen || k == Insert || k == Delete || k == Help
      || k == LeftWindows || k == RightWindows || k == Applications || k == Sleep
      || k == F1 || k == F2 || k == F3 || k == F4 || k == F5 || k == F6 || k == F7 || k == F8 || k == F9 || k == F10 || k == F11 || k == F12
      || k == F13 || k == F14 || k == F15 || k == F16 || k == F17 || k == F18 || k == F19 || k == F20 || k == F21 || k == F22 || k == F23 || k == F24
      || k == BrowserBack || k == BrowserForward || k == BrowserRefresh || k == BrowserStop
      || k == BrowserSearch || k == BrowserFavorites || k == BrowserHome
      || k == VolumeMute || k == VolumeDown || k == VolumeUp
      || k == MediaNext || k == MediaPrevious || k == MediaStop || k == MediaPlay
      || k == LaunchMail || k == LaunchMediaSelect || k == LaunchApp1 || k == LaunchApp2
      || k == Process || k == Packet || k == Attention || k == CrSel || k == ExSel || k == EraseEndOfFile
      || k == Play || k == Zoom || k == NoName || k == Pa1 || k == OemClear
    )
  }

  /** The codes that are named members of ConsoleKey. */
  predicate IsNamedKey(k: ConsoleKey) {
    || k == Backspace || k == Tab || k == Clear || k == Enter || k == Pause || k == Escape
    || Spacebar <= k <= D9
    || A <= k <= Applications
    || Sleep <= k <= F24
    || BrowserBack <= k <= LaunchApp2
    || Oem1 <= k <= Oem3
    || Oem4 <= k <= Oem8
    || k == Oem102 || k == Process || k == Packet
    || Attention <= k <= OemClear
  }

  /** Keys that stand for a printable glyph: digits, letters, the numeric pad and the OEM keys. */
  predicate IsGlyphKey(k: ConsoleKey) {
    || D0 <= k <= D9
    || A <= k <= Z
    || NumPad0 <= k <= Divide
    || Oem1 <= k <= Oem3
    || Oem4 <= k <= Oem8
    || k == Oem102
  }

  /**
   * Among the named keys, IsCharKey's list of excluded keys is the
   * complement of the glyph keys: space, tab, escape, arrows and function
   * keys are excluded, digits, letters and punctuation are not.
   */
  lemma CharKeysAreGlyphKeys(k: ConsoleKey)
    requires IsNamedKey(k)
    ensures IsCharKey(k) <==> IsGlyphKey(k)
  {
  }

  /** A code that is not a named member falls to the `default` of the switch. */
  lemma UnnamedKeysAreCharKeys(k: ConsoleKey)
    requires !IsNamedKey(k)
    ensures IsCharKey(k)
  {
  }

  /** The effect of one key other than Enter on the buffer. */
  function Step(buffer: string, k: KeyInfo): string {
    if k.key == Backspace then
      if |buffer| > 0 then buffer[..|buffer| - 1] else buffer
    else if !IsCharKey(k.key) then buffer
    else buffer + [k.keyChar]
  }

  /** The buffer after the given keys, none of which is Enter. */
  function Typed(keys: seq<KeyInfo>): string {
    if keys == [] then [] else Step(Typed(keys[..|keys| - 1]), keys[|keys| - 1])
  }

  /** Index of the first Enter key, if any. */
  function FirstEnter(keys: seq<KeyInfo>): (r: Option<nat>)
    ensures r.Some? ==> r.value < |keys| && keys[r.value].key == Enter
    ensures r.Some? ==> forall j :: 0 <= j < r.value ==> keys[j].key != Enter
    ensures r.None? ==> forall j :: 0 <= j < |keys| ==> keys[j].key != Enter
  {
    if keys == [] then None
    else if keys[0].key == Enter then Some(0)
    else match FirstEnter(keys[1..])
      case None => None
      case Some(j) => Some(j + 1)
  }

  /**
   * What ReadPassword returns and how many keys it consumes: the buffer at
   * the first Enter, which is consumed too; None when the stream ends first.
   */
  function PasswordRead(keys: seq<KeyInfo>): Option<(string, nat)> {
    match FirstEnter(keys)
    case None => None
    case Some(e) => Some((Typed(keys[..e]), e + 1))
  }

  /**
   * The read fails exactly when no key is Enter. Otherwise the keys consumed
   * end with the first Enter, and the password is what the keys before it typed.
   */
  lemma PasswordReadMeans(keys: seq<KeyInfo>)
    ensures var r := PasswordRead(keys);
      && (r.None? <==> forall j :: 0 <= j < |keys| ==> keys[j].key != Enter)
      && (r.Some? ==>
        && 0 < r.value.1 <= |keys| && keys[r.value.1 - 1].key == Enter
        && (forall j :: 0 <= j < r.value.1 - 1 ==> keys[j].key != Enter)
        && r.value.0 == Typed(keys[..r.value.1 - 1]))
  {
  }

  /** Net number of masks on the screen after the given output. */
  function MasksShown(echo: seq<Echo>): int {
    if echo == [] then 0
    else MasksShown(echo[..|echo| - 1]) + match echo[|echo| - 1]
      case Mask => 1
      case Erase => -1
      case NewLine => 0
  }

  /**
   * Reads keys until Enter. Backspace drops the last buffered character
   * when there is one, keys that are not character keys are ignored, and
   * every other key appends its character and echoes a mask. A key stream
   * that ends before Enter gives None: ReadKey cannot deliver a key.
   */
  method ReadPassword(keys: seq<KeyInfo>) returns (password: Option<string>, consumed: nat, echo: seq<Echo>)
    ensures PasswordRead(keys) == if password.Some? then Some((password.value, consumed)) else None
    ensures consumed <= |keys|
    ensures password.Some? ==> MasksShown(echo) == |password.value| && echo != [] && echo[|echo| - 1] == NewLine
    ensures NeverNegative(echo)
  {
    var sb: string := [];
    echo := [];
    var i := 0;
    while i < |keys|
      invariant 0 <= i <= |keys|
      invariant forall j :: 0 <= j < i ==> keys[j].key != Enter
      invariant sb == Typed(keys[..i])
      invariant MasksShown(echo) == |sb|
      invariant NeverNegative(echo)
    {
      var cki := keys[i];
      assert keys[..i + 1][..i] == keys[..i];
      if cki.key == Enter {
        EchoExtend(echo, NewLine);
        echo := echo + [NewLine];
        password, consumed := Some(sb), i + 1;
        return;
      } else if cki.key == Backspace {
        if |sb| > 0 {
          EchoExtend(echo, Erase);
          echo := echo + [Erase];
          sb := sb[..|sb| - 1];
        }
        i := i + 1;
        continue;
      } else if !IsCharKey(cki.key) {
        i := i + 1;
        continue;
      }
      EchoExtend(echo, Mask);
      echo := echo + [Mask];
      sb := sb + [cki.keyChar];
      i := i + 1;
    }
    password, consumed := None, |keys|;
  }

  /** No prefix of the output erases more masks than it has written. */
  predicate NeverNegative(echo: seq<Echo>) {
    forall n :: 0 <= n <= |echo| ==> MasksShown(echo[..n]) >= 0
  }

  /** Extending the output by one item adds that item's count and keeps the earlier prefixes. */
  lemma EchoExtend(echo: seq<Echo>, x: Echo)
    ensures MasksShown(echo + [x]) == MasksShown(echo) + (match x case Mask => 1 case Erase => -1 case NewLine => 0)
    ensures NeverNegative(echo) && MasksShown(echo + [x]) >= 0 ==> NeverNegative(echo + [x])
  {
    assert (echo + [x])[..|echo|] == echo;
    forall n | 0 <= n <= |echo|
      ensures (echo + [x])[..n] == echo[..n]
    {
    }
    assert (echo + [x])[..|echo| + 1] == echo + [x];
  }

  /** Keys after the first Enter are never consumed and do not change the result. */
  lemma {:induction false} NothingAfterEnter(keys: seq<KeyInfo>, rest: seq<KeyInfo>)
    requires FirstEnter(keys).Some?
    ensures PasswordRead(keys + rest) == PasswordRead(keys)
  {
    FirstEnterOfExtension(keys, rest);
    var e := FirstEnter(keys).value;
    assert (keys + rest)[..e] == keys[..e];
  }

  lemma {:induction false} FirstEnterOfExtension(keys: seq<KeyInfo>, rest: seq<KeyInfo>)
    requires FirstEnter(keys).Some?
    ensures FirstEnter(keys + rest) == FirstEnter(keys)
  {
    if keys[0].key != Enter {
      assert (keys + rest)[1..] == keys[1..] + rest;
      FirstEnterOfExtension(keys[1..], rest);
    }
  }

  /** Backspace removes exactly the last buffered character, and nothing from an empty buffer. */
  lemma BackspaceDropsLast(keys: seq<KeyInfo>, bs: KeyInfo)
    requires bs.key == Backspace
    ensures var before := Typed(keys);
      Typed(keys + [bs]) == if |before| > 0 then before[..|before| - 1] else before
  {
    assert (keys + [bs])[..|keys|] == keys;
  }

  /** A key that is not a character key leaves the buffer unchanged. */
  lemma NonCharKeyIgnored(keys: seq<KeyInfo>, k: KeyInfo)
    requires !IsCharKey(k.key) && k.key != Backspace
    ensures Typed(keys + [k]) == Typed(keys)
  {
    assert (keys + [k])[..|keys|] == keys;
  }

  /** A character key appends its character exactly once. */
  lemma CharKeyAppends(keys: seq<KeyInfo>, k: KeyInfo)
    requires IsCharKey(k.key)
    ensures Typed(keys + [k]) == Typed(keys) + [k.keyChar]
  {
    assert (keys + [k])[..|keys|] == keys;
  }

  /** A character key followed by Backspace leaves no trace. */
  lemma {:induction false} BackspaceCancelsCharKey(keys: seq<KeyInfo>, k: KeyInfo, bs: KeyInfo)
    requires IsCharKey(k.key) && bs.key == Backspace
    ensures Typed(keys + [k, bs]) == Typed(keys)
  {
    assert keys + [k, bs] == (keys + [k]) + [bs];
    CharKeyAppends(keys, k);
    BackspaceDropsLast(keys + [k], bs);
  }

  /** The characters of the character keys, in order. */
  function KeyChars(keys: seq<KeyInfo>): string {
    if keys == [] then [] else KeyChars(keys[..|keys| - 1]) + [keys[|keys| - 1].keyChar]
  }

  /** Without Backspace and other control keys, the buffer is exactly the typed characters. */
  lemma {:induction false} CharKeysOnly(keys: seq<KeyInfo>)
    requires forall j :: 0 <= j < |keys| ==> IsCharKey(keys[j].key)
    ensures Typed(keys) == KeyChars(keys)
  {
    if keys != [] {
      CharKeysOnly(keys[..|keys| - 1]);
    }
  }

  /** Number of character keys. */
  function CharKeyCount(keys: seq<KeyInfo>): nat {
    if keys == [] then 0
    else CharKeyCount(keys[..|keys| - 1]) + if IsCharKey(keys[|keys| - 1].key) then 1 else 0
  }

  /** The buffer never holds more characters than character keys were pressed. */
  lemma {:induction false} TypedLengthBound(keys: seq<KeyInfo>)
    ensures |Typed(keys)| <= CharKeyCount(keys)
  {
    if keys != [] {
      TypedLengthBound(keys[..|keys| - 1]);
    }
  }

  /** Every buffered character was produced by a character key. */
  lemma {:induction false} TypedCharsComeFromCharKeys(keys: seq<KeyInfo>, ch: char)
    requires forall j :: 0 <= j < |keys| && keys[j].keyChar == ch ==> !IsCharKey(keys[j].key)
    ensures ch !in Typed(keys)
  {
    if keys != [] {
      var init := keys[..|keys| - 1];
      TypedCharsComeFromCharKeys(init, ch);
      var before := Typed(init);
      var k := keys[|keys| - 1];
      if k.key == Backspace && |before| > 0 {
        assert forall c :: c in before[..|before| - 1] ==> c in before;
      }
    }
  }

  /**
   * A space can enter the password only from a key other than Spacebar:
   * when every key whose character is ' ' is the Spacebar, the password
   * holds no space.
   */
  lemma SpacebarNeverTyped(keys: seq<KeyInfo>)
    requires forall j :: 0 <= j < |keys| && keys[j].keyChar == ' ' ==> keys[j].key == Spacebar
    ensures ' ' !in Typed(keys)
  {
    TypedCharsComeFromCharKeys(keys, ' ');
  }
}
