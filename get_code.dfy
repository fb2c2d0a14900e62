/** Choosing which board code to decode. A code must start with "[stgy:";
    one that does not, and one the codec rejects, is replaced by a built-in
    default layout. The codec's `decode` is a parameter: `None` stands for
    the exception it throws on a malformed code. */
module BoardCode {
  import opened Strategy

  const Prefix: string := "[stgy:"

  /** The built-in layout, written as the prefix followed by its body. */
  const DefaultCode: string := Prefix +
    "a2mW7zYpGVGucnON7LpkuDJH66enQBnNYQkCKKUR6lrKMrVuduwvMbQ5lYPO7cdfHNJexQfOqhOOYwu6DnluGxbRieZQbd41xysoX6g-8ue0Z14MAXSqNr+xsHeqFlaZ6P3ng1n6dc1xLH]"

  /** The `^\[stgy:` test. */
  predicate HasPrefix(code: string) {
    |Prefix| <= |code| && code[..|Prefix|] == Prefix
  }

  /** The code handed to the first `decode`: the caller's code when it was
      given and passes the prefix test, else the default. Either way it
      passes the prefix test. */
  function SelectCode(code: Option<string>): (s: string)
    ensures HasPrefix(s)
    ensures s == DefaultCode || code == Some(s)
    ensures code.Some? && HasPrefix(code.value) ==> s == code.value
  {
    var c := code.GetOr(DefaultCode);
    if HasPrefix(c) then c else DefaultCode
  }

  /** `getCode`: decode the selected code, and decode the default when that
      fails. `None` means the default itself failed to decode, in which case
      the exception propagates to the caller. */
  function GetCode(code: Option<string>, decode: string -> Option<DecodeResult>): (r: Option<DecodeResult>)
    ensures code == None ==> r == decode(DefaultCode)
    ensures code.Some? && !HasPrefix(code.value) ==> r == decode(DefaultCode)
    ensures code.Some? && HasPrefix(code.value) && decode(code.value).Some? ==> r == decode(code.value)
    ensures code.Some? && decode(code.value).None? ==> r == decode(DefaultCode)
    ensures r == decode(DefaultCode) || (code.Some? && r == decode(code.value))
  {
    var s := SelectCode(code);
    match decode(s)
    case Some(board) => Some(board)
    case None => decode(DefaultCode)
  }

  /** The fallback never fails the prefix test, so the default is decoded
      as it stands. */
  lemma DefaultCodePassesPrefix()
    ensures HasPrefix(DefaultCode)
    ensures SelectCode(None) == DefaultCode
  {
  }

  /** Whenever decoding the default succeeds, `getCode` succeeds, whatever
      the caller passed. */
  lemma GetCodeTotalWhenDefaultDecodes(code: Option<string>, decode: string -> Option<DecodeResult>)
    requires decode(DefaultCode).Some?
    ensures GetCode(code, decode).Some?
  {
  }
}
