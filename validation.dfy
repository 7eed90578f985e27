/** The argument check every name and id passes before a request is built:
    the value, with leading and trailing whitespace trimmed, must not be empty. */
module Validation {
  import opened Types

  /** Unicode White_Space, the set of characters a trim removes. */
  predicate IsWhitespace(c: char) {
    var n := c as int;
    (9 <= n <= 13) || n == 0x20 || n == 0x85 || n == 0xA0 || n == 0x1680
    || (0x2000 <= n <= 0x200A) || n == 0x2028 || n == 0x2029 || n == 0x202F
    || n == 0x205F || n == 0x3000
  }

  /** Every character of s is whitespace (this includes the empty string). */
  predicate IsBlank(s: string) {
    forall i :: 0 <= i < |s| ==> IsWhitespace(s[i])
  }

  /** s without its leading whitespace. */
  function TrimStart(s: string): (t: string)
    ensures |t| <= |s| && t == s[|s| - |t|..]
    ensures t != [] ==> !IsWhitespace(t[0])
    ensures IsBlank(s[..|s| - |t|])
  {
    if s == [] || !IsWhitespace(s[0]) then s
    else
      var t := TrimStart(s[1..]);
      assert s[1..][..|s| - 1 - |t|] == s[1..|s| - |t|];
      t
  }

  /** s without its trailing whitespace. */
  function TrimEnd(s: string): (t: string)
    ensures |t| <= |s| && t == s[..|t|]
    ensures t != [] ==> !IsWhitespace(t[|t| - 1])
    ensures IsBlank(s[|t|..])
  {
    if s == [] || !IsWhitespace(s[|s| - 1]) then s
    else
      var t := TrimEnd(s[..|s| - 1]);
      assert s[..|s| - 1][|t|..] == s[|t|..|s| - 1];
      t
  }

  /** s with leading and trailing whitespace removed. */
  function Trim(s: string): string {
    TrimEnd(TrimStart(s))
  }

  /** Trimming leaves nothing exactly when every character is whitespace. */
  lemma TrimEmptyIffBlank(s: string)
    ensures Trim(s) == [] <==> IsBlank(s)
  {
    var t := TrimStart(s);
    if Trim(s) == [] {
      assert IsBlank(t[0..]);
      assert t == [];
      assert s == s[..|s| - |t|];
    } else {
      assert t != [];
      assert !IsWhitespace(s[|s| - |t|]);
    }
  }

  /** The argument check: a blank value is an ArgumentEmpty error naming the
      argument; any other value passes unchanged (it is not trimmed). */
  function EnsureNotEmpty(argument: string, value: string): (r: Result<string>)
    ensures r.Err? <==> IsBlank(value)
    ensures r.Err? ==> r.error == ArgumentEmpty(argument)
    ensures r.Ok? ==> r.value == value
  {
    TrimEmptyIffBlank(value);
    if Trim(value) == [] then Err(ArgumentEmpty(argument)) else Ok(value)
  }
}
