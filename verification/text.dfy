/** Character-level operations the backend relies on: `str::split` on a
    one-character pattern, its inverse `join`, and the NUL check that
    `CString::new` performs. */
module Text {
  import opened Core

  /** The terminator a C string cannot contain. */
  const NUL: char := '\0'

  /** Number of occurrences of `c` in `s`. */
  function Count(s: string, c: char): nat
    decreases |s|
  {
    if |s| == 0 then 0 else (if s[0] == c then 1 else 0) + Count(s[1..], c)
  }

  /** `s.split(sep)`: every separator closes a segment, so `n` separators
      give `n + 1` segments, empty ones included. */
  function Split(s: string, sep: char): (parts: seq<string>)
    ensures |parts| == Count(s, sep) + 1
    ensures forall i :: 0 <= i < |parts| ==> sep !in parts[i]
    decreases |s|
  {
    if |s| == 0 then [""]
    else
      var rest := Split(s[1..], sep);
      if s[0] == sep then [""] + rest
      else [[s[0]] + rest[0]] + rest[1..]
  }

  /** `parts.join(sep)`. */
  function Join(parts: seq<string>, sep: char): string
    decreases |parts|
  {
    if |parts| == 0 then ""
    else if |parts| == 1 then parts[0]
    else parts[0] + [sep] + Join(parts[1..], sep)
  }

  /** Splitting loses nothing: joining the segments back gives the input. */
  lemma {:induction false} JoinSplit(s: string, sep: char)
    ensures Join(Split(s, sep), sep) == s
    decreases |s|
  {
    if |s| > 0 {
      JoinSplit(s[1..], sep);
      var rest := Split(s[1..], sep);
      var parts := Split(s, sep);
      if s[0] == sep {
        assert parts == [""] + rest;
        assert parts[1..] == rest;
        assert Join(parts, sep) == "" + [sep] + Join(rest, sep);
        assert s == [s[0]] + s[1..];
      } else {
        assert parts == [[s[0]] + rest[0]] + rest[1..];
        if |rest| == 1 {
          assert Join(parts, sep) == [s[0]] + rest[0];
          assert s == [s[0]] + s[1..];
        } else {
          assert parts[1..] == rest[1..];
          assert Join(rest, sep) == rest[0] + [sep] + Join(rest[1..], sep);
          assert Join(parts, sep) == [s[0]] + rest[0] + [sep] + Join(rest[1..], sep);
          assert s == [s[0]] + s[1..];
        }
      }
    }
  }

  /** A string without the separator is a single segment. */
  lemma {:induction false} SplitNoSeparator(x: string, sep: char)
    requires sep !in x
    ensures Split(x, sep) == [x]
    decreases |x|
  {
    if |x| > 0 {
      SplitNoSeparator(x[1..], sep);
      assert [x[0]] + x[1..] == x;
    }
  }

  /** A separator-free prefix followed by the separator becomes the first segment. */
  lemma {:induction false} SplitAfterSegment(x: string, sep: char, y: string)
    requires sep !in x
    ensures Split(x + [sep] + y, sep) == [x] + Split(y, sep)
    decreases |x|
  {
    var s := x + [sep] + y;
    if |x| == 0 {
      assert s[0] == sep;
      assert s[1..] == y;
    } else {
      SplitAfterSegment(x[1..], sep, y);
      assert s[0] == x[0];
      assert s[1..] == x[1..] + [sep] + y;
      assert [x[0]] + x[1..] == x;
    }
  }

  /** Joining separator-free segments and splitting again gives the segments back. */
  lemma {:induction false} SplitJoin(parts: seq<string>, sep: char)
    requires |parts| >= 1
    requires forall i :: 0 <= i < |parts| ==> sep !in parts[i]
    ensures Split(Join(parts, sep), sep) == parts
    decreases |parts|
  {
    if |parts| == 1 {
      SplitNoSeparator(parts[0], sep);
    } else {
      SplitJoin(parts[1..], sep);
      SplitAfterSegment(parts[0], sep, Join(parts[1..], sep));
      assert [parts[0]] + parts[1..] == parts;
    }
  }

  /** Rust's `CString`: text with no interior terminator. */
  type CString = s: string | NUL !in s

  /** `std::ffi::NulError`: the byte offset of the first terminator in the
      text's UTF-8 encoding, and the rejected text. */
  datatype NulError = NulError(position: nat, bytes: string)

  /** Number of bytes UTF-8 spends on `c`. */
  function Utf8Width(c: char): nat {
    if c as int < 0x80 then 1
    else if c as int < 0x800 then 2
    else if c as int < 0x1_0000 then 3
    else 4
  }

  /** Length of `s` in UTF-8 bytes. */
  function Utf8Length(s: string): nat
    decreases |s|
  {
    if |s| == 0 then 0 else Utf8Width(s[0]) + Utf8Length(s[1..])
  }

  /** Encoded lengths add up over concatenation. */
  lemma {:induction false} Utf8LengthAppend(a: string, b: string)
    ensures Utf8Length(a + b) == Utf8Length(a) + Utf8Length(b)
    decreases |a|
  {
    if |a| > 0 {
      assert (a + b)[0] == a[0] && (a + b)[1..] == a[1..] + b;
      Utf8LengthAppend(a[1..], b);
    } else {
      assert a + b == b;
    }
  }

  /** Every character takes one to four bytes. */
  lemma {:induction false} Utf8LengthBounds(s: string)
    ensures |s| <= Utf8Length(s) <= 4 * |s|
    decreases |s|
  {
    if |s| > 0 {
      Utf8LengthBounds(s[1..]);
    }
  }

  /** On ASCII text, byte offsets and character indices coincide. */
  lemma {:induction false} AsciiUtf8Length(s: string)
    requires forall k :: 0 <= k < |s| ==> s[k] as int < 0x80
    ensures Utf8Length(s) == |s|
    decreases |s|
  {
    if |s| > 0 {
      assert forall k :: 0 <= k < |s| - 1 ==> s[1..][k] == s[k + 1];
      AsciiUtf8Length(s[1..]);
    }
  }

  /** Index of the first occurrence of `c` in `s`. */
  function FirstIndex(s: string, c: char): (i: nat)
    requires c in s
    ensures i < |s| && s[i] == c
    ensures c !in s[..i]
    decreases |s|
  {
    if s[0] == c then 0
    else
      assert c in s[1..] by {
        var k :| 0 <= k < |s| && s[k] == c;
        assert s[1..][k - 1] == c;
      }
      var j := FirstIndex(s[1..], c);
      assert s[..j + 1] == [s[0]] + s[1..][..j];
      1 + j
  }

  /** `CString::new`: accepts exactly the text without a terminator and
      otherwise reports the first terminator's byte offset. */
  function NewCString(s: string): (r: Result<CString, NulError>)
    ensures r.Ok? <==> NUL !in s
    ensures r.Ok? ==> r.value == s
    ensures r.Err? ==> r.error.bytes == s && r.error.position < Utf8Length(s)
    ensures r.Err? ==> exists i :: 0 <= i < |s| && s[i] == NUL && NUL !in s[..i]
                                   && r.error.position == Utf8Length(s[..i])
                                   && i <= r.error.position <= 4 * i
  {
    if NUL in s then
      var i := FirstIndex(s, NUL);
      assert s == s[..i] + s[i..];
      Utf8LengthBounds(s[..i]);
      Utf8LengthAppend(s[..i], s[i..]);
      Err(NulError(Utf8Length(s[..i]), s))
    else Ok(s)
  }

  /** For ASCII text the reported offset is the terminator's index. */
  lemma AsciiNulPosition(s: string)
    requires NUL in s
    requires forall k :: 0 <= k < |s| ==> s[k] as int < 0x80
    ensures NewCString(s).Err? && NewCString(s).error.position == FirstIndex(s, NUL)
  {
    AsciiUtf8Length(s[..FirstIndex(s, NUL)]);
  }

  /** A two-byte character before the terminator moves its offset to 2. */
  lemma WideCharShiftsNulPosition()
    ensures NewCString("\U{E9}\0") == Err(NulError(2, "\U{E9}\0"))
  {
    var s := "\U{E9}\0";
    assert s[0] != NUL && s[1] == NUL;
    assert FirstIndex(s, NUL) == 1;
    assert s[..1] == ['\U{E9}'];
  }
}
