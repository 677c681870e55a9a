/** Shared vocabulary: optional values, refusals and bytes. */
module Common {

  datatype Option<+T> = None | Some(value: T)

  /** The outcome of one operation: a value, or the raised error. */
  datatype Result<+T> = Ok(value: T) | Refused(reason: string)
  {
    predicate IsFailure() { Refused? }
    function PropagateFailure<U>(): Result<U>
      requires Refused?
    {
      Refused(reason)
    }
    function Extract(): T
      requires Ok?
    {
      value
    }
  }

  newtype byte = x: int | 0 <= x < 256

  type Bytes = seq<byte>

  /** The text that str.strip removes on both ends. */
  predicate Blank(c: char)
  {
    c in {' ', '\t', '\n', '\r', '\U{b}', '\U{c}'}
  }

  /** Python's s.strip() over these characters. */
  function Strip(s: string): (t: string)
    ensures t == "" || (!Blank(t[0]) && !Blank(t[|t| - 1]))
    ensures t != "" <==> exists i :: 0 <= i < |s| && !Blank(s[i])
    decreases |s|
  {
    if s == "" then ""
    else if Blank(s[0]) then
      assert forall i :: 1 <= i < |s| ==> s[i] == s[1..][i - 1];
      Strip(s[1..])
    else if Blank(s[|s| - 1]) then
      assert s[..|s| - 1][0] == s[0];
      Strip(s[..|s| - 1])
    else s
  }

  /** Python's s.split(c) for one character. */
  function Split(s: string, c: char): (parts: seq<string>)
    ensures |parts| >= 1
  {
    if s == "" then [""]
    else
      var rest := Split(s[1..], c);
      if s[0] == c then [""] + rest else [[s[0]] + rest[0]] + rest[1..]
  }

  /** A relative path in normal form: no empty, "." or ".." part. */
  predicate SafePath(name: string)
  {
    forall i :: 0 <= i < |Split(name, '/')| ==> Split(name, '/')[i] !in {"", ".", ".."}
  }
}
