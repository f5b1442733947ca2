/** Values shared by every part of the image service model. */
module Common {

  datatype Option<+T> = None | Some(value: T)

  datatype Result<+T, +E> = Success(value: T) | Failure(error: E)

  /** The HTTP exceptions the service raises: BadRequestException,
      NotFoundException, and anything uncaught. The framework answers an
      uncaught error with a 500 whose body is "Internal server error";
      `ServerError` keeps the thrown message for the model's benefit, but the
      client never sees it. */
  datatype HttpError =
    | BadRequest(message: string)
    | NotFound(message: string)
    | ServerError(message: string)

  newtype byte = x: int | 0 <= x < 256

  type Bytes = seq<byte>

  /** Identifiers (ObjectId strings) are opaque. */
  type Id = string

  /** Timestamps written by the record store. */
  type Time = int

  /** JavaScript truthiness of an optional number (absent and 0 are falsy). */
  predicate TruthyNumber(v: Option<int>) {
    v.Some? && v.value != 0
  }

  /** JavaScript truthiness of an optional string (absent and "" are falsy). */
  predicate TruthyText(v: Option<string>) {
    v.Some? && v.value != ""
  }

  /** `v || fallback` on an optional string. */
  function TextOr(v: Option<string>, fallback: string): (r: string)
    ensures TruthyText(v) ==> r == v.value
    ensures !TruthyText(v) ==> r == fallback
    ensures fallback != "" ==> r != ""
  {
    if TruthyText(v) then v.value else fallback
  }

  /** `v || fallback` on an optional number. */
  function NumberOr(v: Option<int>, fallback: int): (r: int)
    ensures TruthyNumber(v) ==> r == v.value
    ensures !TruthyNumber(v) ==> r == fallback
    ensures fallback != 0 ==> r != 0
  {
    if TruthyNumber(v) then v.value else fallback
  }
}

/** `String.prototype.split` with a one-character separator, as JavaScript
    defines it: every occurrence of the separator cuts, so adjacent
    separators give empty pieces and the result is never empty. */
module Strings {

  function Split(s: string, sep: char): (parts: seq<string>)
    ensures |parts| >= 1
    ensures forall i :: 0 <= i < |parts| ==> sep !in parts[i]
    ensures sep !in s ==> parts == [s]
    decreases |s|
  {
    if |s| == 0 then [""]
    else
      var rest := Split(s[1..], sep);
      assert s == [s[0]] + s[1..];
      if s[0] == sep then [""] + rest
      else [[s[0]] + rest[0]] + rest[1..]
  }

  /** `Array.prototype.join` with a one-character separator. */
  function Join(parts: seq<string>, sep: char): string
    requires |parts| >= 1
    decreases |parts|
  {
    if |parts| == 1 then parts[0] else parts[0] + [sep] + Join(parts[1..], sep)
  }

  /** Splitting loses nothing: joining the pieces gives the string back. */
  lemma {:induction false} JoinSplit(s: string, sep: char)
    ensures Join(Split(s, sep), sep) == s
    decreases |s|
  {
    if |s| > 0 {
      JoinSplit(s[1..], sep);
      var rest := Split(s[1..], sep);
      if s[0] != sep {
        if |rest| > 1 {
          calc {
            Join(Split(s, sep), sep);
            ([s[0]] + rest[0]) + [sep] + Join(rest[1..], sep);
            [s[0]] + (rest[0] + [sep] + Join(rest[1..], sep));
            [s[0]] + Join(rest, sep);
          }
        }
        assert s == [s[0]] + s[1..];
      } else {
        assert s == [sep] + s[1..];
      }
    }
  }

  /** A separator splits the string into the pieces of each side. */
  lemma {:induction false} SplitAtSeparator(a: string, sep: char, b: string)
    ensures Split(a + [sep] + b, sep) == Split(a, sep) + Split(b, sep)
    decreases |a|
  {
    if |a| == 0 {
      assert a + [sep] + b == [sep] + b;
      assert ([sep] + b)[1..] == b;
    } else {
      var s := a + [sep] + b;
      assert s[0] == a[0];
      assert s[1..] == a[1..] + [sep] + b;
      SplitAtSeparator(a[1..], sep, b);
    }
  }

  /** The first piece is the text before the first separator: a prefix of
      the string followed by its end or a separator. */
  lemma SplitHead(s: string, sep: char)
    ensures var head := Split(s, sep)[0];
      && |head| <= |s| && s[..|head|] == head
      && (|s| == |head| || s[|head|] == sep)
  {
    var parts := Split(s, sep);
    JoinSplit(s, sep);
    if |parts| > 1 {
      assert s == parts[0] + ([sep] + Join(parts[1..], sep));
    }
  }

  /** Splitting a join of separator-free pieces gives the pieces back. */
  lemma {:induction false} SplitJoin(parts: seq<string>, sep: char)
    requires |parts| >= 1
    requires forall i :: 0 <= i < |parts| ==> sep !in parts[i]
    ensures Split(Join(parts, sep), sep) == parts
    decreases |parts|
  {
    if |parts| == 1 {
    } else {
      SplitJoin(parts[1..], sep);
      SplitAtSeparator(parts[0], sep, Join(parts[1..], sep));
      assert parts == [parts[0]] + parts[1..];
    }
  }
}
