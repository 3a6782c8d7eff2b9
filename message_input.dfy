/** `MessageInput`: the text field and the send button of the chat. */
module MessageInput {
  import opened Types

  /** The characters `String.prototype.trim` removes: white space and line terminators. */
  predicate IsJsSpace(c: char) {
    var n := c as int;
    (0x09 <= n <= 0x0D) || n == 0x20 || n == 0xA0 || n == 0x1680 || (0x2000 <= n <= 0x200A) ||
    n == 0x2028 || n == 0x2029 || n == 0x202F || n == 0x205F || n == 0x3000 || n == 0xFEFF
  }

  predicate IsBlank(s: string) {
    forall i :: 0 <= i < |s| ==> IsJsSpace(s[i])
  }

  function TrimStart(s: string): (r: string)
    ensures |r| <= |s| && r == s[|s| - |r|..]
    ensures r == [] || !IsJsSpace(r[0])
    ensures forall i :: 0 <= i < |s| - |r| ==> IsJsSpace(s[i])
  {
    if s != [] && IsJsSpace(s[0]) then TrimStart(s[1..]) else s
  }

  function TrimEnd(s: string): (r: string)
    ensures |r| <= |s| && r == s[..|r|]
    ensures r == [] || !IsJsSpace(r[|r| - 1])
    ensures forall i :: |r| <= i < |s| ==> IsJsSpace(s[i])
  {
    if s != [] && IsJsSpace(s[|s| - 1]) then TrimEnd(s[..|s| - 1]) else s
  }

  /** `s.trim()`. */
  function Trim(s: string): (r: string)
    ensures |r| <= |s|
    ensures r == [] || (!IsJsSpace(r[0]) && !IsJsSpace(r[|r| - 1]))
  {
    TrimEnd(TrimStart(s))
  }

  lemma {:induction false} TrimStartEmptyIffBlank(s: string)
    ensures TrimStart(s) == [] <==> IsBlank(s)
  {
    if s != [] && IsJsSpace(s[0]) {
      TrimStartEmptyIffBlank(s[1..]);
      assert forall i :: 1 <= i < |s| ==> s[i] == s[1..][i - 1];
    }
  }

  /** The trimmed text is empty exactly when every character is white space. */
  lemma TrimEmptyIffBlank(s: string)
    ensures Trim(s) == [] <==> IsBlank(s)
  {
    TrimStartEmptyIffBlank(s);
    var t := TrimStart(s);
    TrimEndEmptyIffBlank(t);
    if t != [] {
      assert !IsJsSpace(t[0]);
    }
  }

  lemma {:induction false} TrimEndEmptyIffBlank(s: string)
    ensures TrimEnd(s) == [] <==> IsBlank(s)
  {
    if s != [] && IsJsSpace(s[|s| - 1]) {
      TrimEndEmptyIffBlank(s[..|s| - 1]);
      assert forall i :: 0 <= i < |s| - 1 ==> s[i] == s[..|s| - 1][i];
    }
  }

  /** `disabled || !message.trim()`. */
  function SubmitDisabled(disabled: bool, message: string): (d: bool)
    ensures d <==> disabled || IsBlank(message)
  {
    TrimEmptyIffBlank(message);
    disabled || Trim(message) == []
  }

  /** The component's one state field. */
  class InputField {
    var message: string

    constructor ()
      ensures message == []
    {
      message := [];
    }

    method OnChange(value: string)
      modifies this
      ensures message == value
    {
      message := value;
    }

    /** `handleSubmit`: the text handed to `onSendMessage`, if any. Blank text is
        not sent and stays in the field; other text is sent as typed, untrimmed,
        and the field is cleared. */
    method HandleSubmit() returns (sent: Option<string>)
      modifies this
      ensures IsBlank(old(message)) ==> sent == None && message == old(message)
      ensures !IsBlank(old(message)) ==> sent == Some(old(message)) && message == []
    {
      TrimEmptyIffBlank(message);
      if Trim(message) != [] {
        sent := Some(message);
        message := [];
      } else {
        sent := None;
      }
    }
  }
}
