/**
  The OpenRouter API-key dialog (`ApiKeyDialog`): a text input and a status
  line. The text input is a library; the model keeps its value and the
  settings the dialog gives it, and takes the value the input holds after
  it has handled a forwarded message as a parameter. Loading and saving
  the configuration are I/O: their outcomes are parameters too.
*/
module ApiKey {
  import opened Wrappers

  const Placeholder: string := "Enter new OpenRouter API key"
  const CharLimit: int := 128
  const InputWidth: int := 40
  /** The shortest key, in bytes, the dialog tries to save. */
  const MinKeyBytes: nat := 10
  const SavedProvider: string := "openrouter"

  const TooShort: string := "API key too short."
  const LoadFailed: string := "Failed to load config."
  const SaveFailed: string := "Failed to save API key."
  const Updated: string := "API key updated!"
  const Cancelled: string := "Cancelled."

  /** A message the dialog receives: a key press, by its name, or anything else. */
  datatype Msg = Key(name: string) | Other

  /** What an update did beyond the dialog's own state. */
  datatype Effect = Effect(loadAttempted: bool, saved: Option<(string, string)>, forwarded: bool)

  /** The number of bytes of a code point in UTF-8. */
  function Utf8Width(c: char): (n: nat)
    ensures 1 <= n <= 4
    ensures n == 1 <==> (c as int) < 0x80
  {
    if (c as int) < 0x80 then 1
    else if (c as int) < 0x800 then 2
    else if (c as int) < 0x1_0000 then 3
    else 4
  }

  /** Go's `len` of a string: its length in bytes, UTF-8 encoded. */
  function Utf8Length(s: string): nat {
    if s == [] then 0 else Utf8Width(s[0]) + Utf8Length(s[1..])
  }

  lemma {:induction false} Utf8LengthBounds(s: string)
    ensures |s| <= Utf8Length(s) <= 4 * |s|
  {
    if s != [] {
      Utf8LengthBounds(s[1..]);
    }
  }

  lemma {:induction false} Utf8LengthAscii(s: string)
    requires forall i :: 0 <= i < |s| ==> (s[i] as int) < 0x80
    ensures Utf8Length(s) == |s|
  {
    if s != [] {
      Utf8LengthAscii(s[1..]);
    }
  }

  /** Whether Enter turns a key down without trying to save it. */
  predicate KeyTooShort(key: string) {
    Utf8Length(key) < MinKeyBytes
  }

  /** Ten characters always pass the length check, three or more may, two or fewer never do. */
  lemma LengthCheckByCharacters(key: string)
    ensures |key| >= 10 ==> !KeyTooShort(key)
    ensures |key| <= 2 ==> KeyTooShort(key)
  {
    Utf8LengthBounds(key);
  }

  /** A key of ASCII characters passes the length check exactly when it has ten of them. */
  lemma AsciiLengthCheck(key: string)
    requires forall i :: 0 <= i < |key| ==> (key[i] as int) < 0x80
    ensures KeyTooShort(key) <==> |key| < 10
  {
    Utf8LengthAscii(key);
  }

  /** The status Enter leaves, given the key and the outcomes of loading and saving the configuration. */
  function EnterStatus(key: string, loadOk: bool, saveOk: bool): (s: string)
    ensures s == TooShort || s == LoadFailed || s == SaveFailed || s == Updated
    ensures s == Updated ==> !KeyTooShort(key) && loadOk && saveOk
  {
    assert Updated[8] != TooShort[8] && Updated[0] != LoadFailed[0] && Updated[0] != SaveFailed[0];
    if KeyTooShort(key) then TooShort
    else if !loadOk then LoadFailed
    else if !saveOk then SaveFailed
    else Updated
  }

  /** The key is reported updated exactly when it is long enough and both loading and saving succeed. */
  lemma UpdatedIff(key: string, loadOk: bool, saveOk: bool)
    ensures EnterStatus(key, loadOk, saveOk) == Updated <==> !KeyTooShort(key) && loadOk && saveOk
    ensures EnterStatus(key, loadOk, saveOk) == TooShort <==> KeyTooShort(key)
    ensures EnterStatus(key, loadOk, saveOk) == LoadFailed <==> !KeyTooShort(key) && !loadOk
    ensures EnterStatus(key, loadOk, saveOk) == SaveFailed <==> !KeyTooShort(key) && loadOk && !saveOk
  {
    assert TooShort[0] != LoadFailed[0] && TooShort[0] != SaveFailed[0] && LoadFailed[10] != SaveFailed[10];
    assert Updated[8] != TooShort[8] && Updated[0] != LoadFailed[0] && Updated[0] != SaveFailed[0];
  }

  class ApiKeyDialog {
    var value: string
    var status: string
    var placeholder: string
    var charLimit: int
    var inputWidth: int

    /** `NewApiKeyDialog`: the current key is not shown; the input starts empty. */
    constructor (currentKey: string)
      ensures value == "" && status == ""
      ensures placeholder == Placeholder && charLimit == CharLimit && inputWidth == InputWidth
    {
      value := "";
      status := "";
      placeholder := Placeholder;
      charLimit := CharLimit;
      inputWidth := InputWidth;
    }

    /**
      `Update`. Enter checks the typed key's length and, if it is long
      enough, loads the configuration (`loadOk`) and saves the key for
      OpenRouter (`saveOk`); Esc cancels; anything else goes to the text
      input, which then holds `edited`.
    */
    method Update(msg: Msg, edited: string, loadOk: bool, saveOk: bool) returns (effect: Effect)
      modifies this`value, this`status
      ensures msg == Key("enter") ==>
        && status == EnterStatus(old(value), loadOk, saveOk) && value == old(value)
        && effect.loadAttempted == !KeyTooShort(old(value))
        && effect.saved == (if !KeyTooShort(old(value)) && loadOk then Some((SavedProvider, old(value))) else None)
        && !effect.forwarded
      ensures msg == Key("esc") ==>
        status == Cancelled && value == old(value) && effect == Effect(false, None, false)
      ensures msg != Key("enter") && msg != Key("esc") ==>
        status == old(status) && value == edited && effect == Effect(false, None, true)
    {
      if msg.Key? && msg.name == "enter" {
        var key := value;
        if Utf8Length(key) < MinKeyBytes {
          status := TooShort;
          return Effect(false, None, false);
        }
        if !loadOk {
          status := LoadFailed;
          return Effect(true, None, false);
        }
        if !saveOk {
          status := SaveFailed;
          return Effect(true, Some((SavedProvider, key)), false);
        }
        status := Updated;
        return Effect(true, Some((SavedProvider, key)), false);
      }
      if msg.Key? && msg.name == "esc" {
        status := Cancelled;
        return Effect(false, None, false);
      }
      value := edited;
      effect := Effect(false, None, true);
    }
  }
}
