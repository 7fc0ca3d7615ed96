/** Bytes, and where a line of them ends. */
module ByteStrings {

  type Byte = b: int | 0 <= b < 256
  type Bytes = seq<Byte>

  const CR: Byte := 13
  const LF: Byte := 10

  datatype Option<T> = None | Some(value: T)

  /** The position of the first line feed, or the length if there is none. */
  function LineEnd(s: Bytes): (i: nat)
    ensures i <= |s| && LF !in s[..i] && (i < |s| ==> s[i] == LF)
  {
    if s == [] || s[0] == LF then 0
    else
      var i := 1 + LineEnd(s[1..]);
      assert s[..i] == [s[0]] + s[1..][..i - 1];
      i
  }

  lemma {:induction false} EndsAt(s: Bytes, i: nat)
    requires i <= |s| && LF !in s[..i] && (i < |s| ==> s[i] == LF)
    ensures LineEnd(s) == i
    decreases i
  {
    if i > 0 {
      assert s[0] == s[..i][0] && s[1..][..i - 1] == s[..i][1..];
      EndsAt(s[1..], i - 1);
    }
  }

  lemma {:induction false} FeedFound(s: Bytes)
    requires LF in s
    ensures LineEnd(s) < |s|
  {
    if s[0] != LF {
      assert s == [s[0]] + s[1..];
      FeedFound(s[1..]);
    }
  }
}
