/**
 * The byte-to-key table of src/keyboard.rs: which key, and whether Shift is
 * held, types a given ASCII byte on a US layout.  Bytes are written as
 * their ASCII codes, with the character in a comment.  The lemmas check the
 * table against the layout, given independently as the letter row, the
 * number row and its shifted symbols, and the punctuation pairs.
 */
module Keyboard {
  import opened Common

  /** The keys of the input-event library that this model refers to; every other key is `Unknown`. */
  datatype Key =
    | KeyA | KeyB | KeyC | KeyD | KeyE | KeyF | KeyG | KeyH | KeyI | KeyJ | KeyK | KeyL | KeyM
    | KeyN | KeyO | KeyP | KeyQ | KeyR | KeyS | KeyT | KeyU | KeyV | KeyW | KeyX | KeyY | KeyZ
    | Num0 | Num1 | Num2 | Num3 | Num4 | Num5 | Num6 | Num7 | Num8 | Num9
    | Minus | Equal | LeftBracket | RightBracket | BackSlash | SemiColon | Quote | BackQuote
    | Comma | Dot | Slash
    | Space | Return | Tab | Escape
    | ControlLeft | ControlRight | ShiftLeft | ShiftRight | Alt | AltGr | MetaLeft | MetaRight
    | Unknown(code: nat)

  /** The letter keys, in alphabetical order. */
  const LETTER_KEYS: seq<Key> :=
    [KeyA, KeyB, KeyC, KeyD, KeyE, KeyF, KeyG, KeyH, KeyI, KeyJ, KeyK, KeyL, KeyM,
     KeyN, KeyO, KeyP, KeyQ, KeyR, KeyS, KeyT, KeyU, KeyV, KeyW, KeyX, KeyY, KeyZ]

  /** The number-row keys, `Num0` first. */
  const DIGIT_KEYS: seq<Key> := [Num0, Num1, Num2, Num3, Num4, Num5, Num6, Num7, Num8, Num9]

  /** Byte classes, by ASCII code: `'a'..='z'`, `'A'..='Z'`, `'0'..='9'`. */
  predicate IsLower(byte: u8) { 97 <= byte <= 122 }
  predicate IsUpper(byte: u8) { 65 <= byte <= 90 }
  predicate IsDigit(byte: u8) { 48 <= byte <= 57 }

  /** Printable ASCII, from space (32) to tilde (126), and tab, line feed, carriage return and escape. */
  predicate Typeable(byte: u8) {
    (32 <= byte <= 126) || byte == 9 || byte == 10 || byte == 13 || byte == 27
  }

  /**
   * The key, and whether Shift is needed, that types `byte`.  The table is
   * one `match` in the source; here it is split by byte range into four
   * sub-tables of the same entries, so that a proof about one range only
   * unfolds the entries of that range.
   */
  function KeyFromChar(byte: u8): (r: Option<(Key, bool)>)
    ensures r.Some? <==> Typeable(byte)
    ensures byte >= 128 ==> r == None
  {
    if byte < 48 then KeysBelowDigits(byte)
    else if byte < 65 then KeysDigitsToAt(byte)
    else if byte < 97 then KeysUpperToBackQuote(byte)
    else KeysLowerToTilde(byte)
  }

  /** The entries for controls, space and the symbols from `'!'` to `'/'`. */
  function KeysBelowDigits(byte: u8): Option<(Key, bool)>
    requires byte < 48
  {
    match byte
    case 33 => Some((Num1, true))  // '!'
    case 35 => Some((Num3, true))  // '#'
    case 36 => Some((Num4, true))  // '$'
    case 37 => Some((Num5, true))  // '%'
    case 38 => Some((Num7, true))  // '&'
    case 42 => Some((Num8, true))  // '*'
    case 40 => Some((Num9, true))  // '('
    case 41 => Some((Num0, true))  // ')'
    case 45 => Some((Minus, false))  // '-'
    case 43 => Some((Equal, true))  // '+'
    case 39 => Some((Quote, false))  // '\''
    case 34 => Some((Quote, true))  // '"'
    case 44 => Some((Comma, false))  // ','
    case 46 => Some((Dot, false))  // '.'
    case 47 => Some((Slash, false))  // '/'
    case 32 => Some((Space, false))  // ' '
    case 10 => Some((Return, false))  // '\n'
    case 13 => Some((Return, false))  // '\r'
    case 9 => Some((Tab, false))  // '\t'
    case 27 => Some((Escape, false))  // ESC
    case _ => None
  }

  /** The entries for digits and the symbols from `':'` to `'@'`. */
  function KeysDigitsToAt(byte: u8): Option<(Key, bool)>
    requires 48 <= byte <= 64
  {
    match byte
    case 48 => Some((Num0, false))  // '0'
    case 49 => Some((Num0, false))  // '1'
    case 50 => Some((Num2, false))  // '2'
    case 51 => Some((Num3, false))  // '3'
    case 52 => Some((Num4, false))  // '4'
    case 53 => Some((Num5, false))  // '5'
    case 54 => Some((Num6, false))  // '6'
    case 55 => Some((Num7, false))  // '7'
    case 56 => Some((Num8, false))  // '8'
    case 57 => Some((Num9, false))  // '9'
    case 64 => Some((Num2, true))  // '@'
    case 61 => Some((Equal, false))  // '='
    case 59 => Some((SemiColon, false))  // ';'
    case 58 => Some((SemiColon, true))  // ':'
    case 60 => Some((Comma, true))  // '<'
    case 62 => Some((Dot, true))  // '>'
    case 63 => Some((Slash, true))  // '?'
    case _ => None
  }

  /** The entries for uppercase letters and the symbols from `'['` to `` '`' ``. */
  function KeysUpperToBackQuote(byte: u8): Option<(Key, bool)>
    requires 65 <= byte <= 96
  {
    match byte
    case 65 => Some((KeyA, true))  // 'A'
    case 66 => Some((KeyB, true))  // 'B'
    case 67 => Some((KeyC, true))  // 'C'
    case 68 => Some((KeyD, true))  // 'D'
    case 69 => Some((KeyE, true))  // 'E'
    case 70 => Some((KeyF, true))  // 'F'
    case 71 => Some((KeyG, true))  // 'G'
    case 72 => Some((KeyH, true))  // 'H'
    case 73 => Some((KeyI, true))  // 'I'
    case 74 => Some((KeyJ, true))  // 'J'
    case 75 => Some((KeyK, true))  // 'K'
    case 76 => Some((KeyL, true))  // 'L'
    case 77 => Some((KeyM, true))  // 'M'
    case 78 => Some((KeyN, true))  // 'N'
    case 79 => Some((KeyO, true))  // 'O'
    case 80 => Some((KeyP, true))  // 'P'
    case 81 => Some((KeyQ, true))  // 'Q'
    case 82 => Some((KeyR, true))  // 'R'
    case 83 => Some((KeyS, true))  // 'S'
    case 84 => Some((KeyT, true))  // 'T'
    case 85 => Some((KeyU, true))  // 'U'
    case 86 => Some((KeyV, true))  // 'V'
    case 87 => Some((KeyW, true))  // 'W'
    case 88 => Some((KeyX, true))  // 'X'
    case 89 => Some((KeyY, true))  // 'Y'
    case 90 => Some((KeyZ, true))  // 'Z'
    case 94 => Some((Num6, true))  // '^'
    case 95 => Some((Minus, true))  // '_'
    case 91 => Some((LeftBracket, false))  // '['
    case 93 => Some((RightBracket, false))  // ']'
    case 92 => Some((BackSlash, false))  // '\\'
    case 96 => Some((BackQuote, false))  // '`'
    case _ => None
  }

  /** The entries for lowercase letters and the symbols from `'{'` to `'~'`. */
  function KeysLowerToTilde(byte: u8): Option<(Key, bool)>
    requires 97 <= byte
  {
    match byte
    case 97 => Some((KeyA, false))  // 'a'
    case 98 => Some((KeyB, false))  // 'b'
    case 99 => Some((KeyC, false))  // 'c'
    case 100 => Some((KeyD, false))  // 'd'
    case 101 => Some((KeyE, false))  // 'e'
    case 102 => Some((KeyF, false))  // 'f'
    case 103 => Some((KeyG, false))  // 'g'
    case 104 => Some((KeyH, false))  // 'h'
    case 105 => Some((KeyI, false))  // 'i'
    case 106 => Some((KeyJ, false))  // 'j'
    case 107 => Some((KeyK, false))  // 'k'
    case 108 => Some((KeyL, false))  // 'l'
    case 109 => Some((KeyM, false))  // 'm'
    case 110 => Some((KeyN, false))  // 'n'
    case 111 => Some((KeyO, false))  // 'o'
    case 112 => Some((KeyP, false))  // 'p'
    case 113 => Some((KeyQ, false))  // 'q'
    case 114 => Some((KeyR, false))  // 'r'
    case 115 => Some((KeyS, false))  // 's'
    case 116 => Some((KeyT, false))  // 't'
    case 117 => Some((KeyU, false))  // 'u'
    case 118 => Some((KeyV, false))  // 'v'
    case 119 => Some((KeyW, false))  // 'w'
    case 120 => Some((KeyX, false))  // 'x'
    case 121 => Some((KeyY, false))  // 'y'
    case 122 => Some((KeyZ, false))  // 'z'
    case 123 => Some((LeftBracket, true))  // '{'
    case 125 => Some((RightBracket, true))  // '}'
    case 124 => Some((BackSlash, true))  // '|'
    case 126 => Some((BackQuote, true))  // '~'
    case _ => None
  }

  /** What Shift plus `DIGIT_KEYS[i]` types: `)!@#$%^&*(`. */
  const SHIFTED_DIGITS: seq<u8> := [41, 33, 64, 35, 36, 37, 94, 38, 42, 40]

  /**
   * The punctuation keys of a US layout: the byte each types alone, the byte
   * it types with Shift, and the key; `-_`, `=+`, `[{`, `]}`, `\|`, `;:`,
   * `'"`, `` `~ ``, `,<`, `.>`, `/?`.
   */
  const PUNCTUATION: seq<(u8, u8, Key)> :=
    [(45, 95, Minus), (61, 43, Equal), (91, 123, LeftBracket), (93, 125, RightBracket),
     (92, 124, BackSlash), (59, 58, SemiColon), (39, 34, Quote), (96, 126, BackQuote),
     (44, 60, Comma), (46, 62, Dot), (47, 63, Slash)]

  /** Lowercase letters are their letter key without Shift. */
  lemma LowerCaseLetters(byte: u8)
    requires IsLower(byte)
    ensures KeyFromChar(byte) == Some((LETTER_KEYS[byte - 97], false))
  {
  }

  /** Uppercase letters are their letter key with Shift. */
  lemma UpperCaseLetters(byte: u8)
    requires IsUpper(byte)
    ensures KeyFromChar(byte) == Some((LETTER_KEYS[byte - 65], true))
  {
  }

  /** An uppercase letter and its lowercase form (32 bytes further on) share a key and differ in Shift. */
  lemma {:induction false} CaseDiffersOnlyInShift(byte: u8)
    requires IsUpper(byte)
    ensures KeyFromChar(byte).Some? && KeyFromChar(byte + 32).Some?
    ensures KeyFromChar(byte).value == (KeyFromChar(byte + 32).value.0, true)
    ensures !KeyFromChar(byte + 32).value.1
  {
    UpperCaseLetters(byte);
    LowerCaseLetters(byte + 32);
  }

  /** Digits are their number-row key without Shift, except that `'1'` (49) is sent to `Num0`. */
  lemma Digits(byte: u8)
    requires IsDigit(byte)
    ensures KeyFromChar(byte) == Some((if byte == 49 then Num0 else DIGIT_KEYS[byte - 48], false))
  {
  }

  /** `'0'` and `'1'` type the same thing, so `Num1` without Shift is never chosen. */
  lemma {:induction false} DigitOneIsZero()
    ensures KeyFromChar(49) == KeyFromChar(48) == Some((Num0, false))
    ensures forall byte: u8 :: KeyFromChar(byte) != Some((Num1, false))
  {
    forall byte: u8
      ensures KeyFromChar(byte) != Some((Num1, false))
    {
      if IsDigit(byte) {
        Digits(byte);
      }
    }
  }

  /** Shift plus the `i`-th number-row key types `SHIFTED_DIGITS[i]`. */
  lemma ShiftedDigits(i: nat)
    requires i < 10
    ensures KeyFromChar(SHIFTED_DIGITS[i]) == Some((DIGIT_KEYS[i], true))
  {
  }

  /** Each punctuation pair shares one key and differs only in Shift. */
  lemma PunctuationPairs(i: nat)
    requires i < |PUNCTUATION|
    ensures KeyFromChar(PUNCTUATION[i].0) == Some((PUNCTUATION[i].2, false))
    ensures KeyFromChar(PUNCTUATION[i].1) == Some((PUNCTUATION[i].2, true))
  {
  }

  /** Space, tab and escape are their own keys; line feed and carriage return are both Return; none is shifted. */
  lemma Whitespace()
    ensures KeyFromChar(32) == Some((Space, false))
    ensures KeyFromChar(10) == KeyFromChar(13) == Some((Return, false))
    ensures KeyFromChar(9) == Some((Tab, false))
    ensures KeyFromChar(27) == Some((Escape, false))
  {
  }

  /** The table with `'1'` sent to `Num1`, as the rest of the number row evidently intends. */
  function CorrectedKeyFromChar(byte: u8): (r: Option<(Key, bool)>)
    ensures r.Some? <==> Typeable(byte)
    ensures IsDigit(byte) ==> r == Some((DIGIT_KEYS[byte - 48], false))
    ensures !IsDigit(byte) ==> r == KeyFromChar(byte)
  {
    if byte == 49 then Some((Num1, false)) else KeyFromChar(byte)
  }

  /** With the correction, the plain and the shifted character of each number key press the same key. */
  lemma {:induction false} CorrectedDigitsShareKeyWithShifted(i: nat)
    requires i < 10
    ensures CorrectedKeyFromChar(48 + i as u8).Some? && CorrectedKeyFromChar(SHIFTED_DIGITS[i]).Some?
    ensures CorrectedKeyFromChar(48 + i as u8).value == (CorrectedKeyFromChar(SHIFTED_DIGITS[i]).value.0, false)
  {
    ShiftedDigits(i);
    assert !IsDigit(SHIFTED_DIGITS[i]);
  }

  /** As written, `'1'` and `'!'` disagree on the key: the one case where the pairing above fails. */
  lemma {:induction false} DigitOneMissesItsKey()
    ensures KeyFromChar(49).value.0 != KeyFromChar(SHIFTED_DIGITS[1]).value.0
  {
    Digits(49);
    ShiftedDigits(1);
  }
}
