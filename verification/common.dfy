/**
  Vocabulary shared by every service model: optional values and results,
  JavaScript truthiness and `??`, decimal rendering of numbers as template
  literals produce it, and splitting/joining of strings on a separator
  (used both for bearer tokens and for URL paths).
 */
module Common {

  /** A value that may be `undefined`. */
  datatype Option<+T> = None | Some(value: T)

  /** The outcome of an operation that may throw. */
  datatype Result<+R, +E> = Success(value: R) | Failure(error: E) {
    predicate IsFailure() {
      Failure?
    }

    function PropagateFailure<U>(): Result<U, E>
      requires Failure?
    {
      Failure(error)
    }

    function Extract(): R
      requires Success?
    {
      value
    }
  }

  /** An optional string is truthy in JavaScript when it is present and non-empty. */
  predicate Truthy(o: Option<string>) {
    o.Some? && o.value != ""
  }

  /** An optional number is truthy when it is present and not zero. */
  predicate TruthyNum(o: Option<int>) {
    o.Some? && o.value != 0
  }

  /** JavaScript's `o ?? fallback`: only a missing value falls back. */
  function Coalesce<T>(o: Option<T>, fallback: T): T {
    match o
    case Some(v) => v
    case None => fallback
  }

  // ---------------------------------------------------------------------
  // Decimal text of integers, as `${n}` renders an integral number.
  // ---------------------------------------------------------------------

  predicate IsDigit(c: char) {
    '0' <= c <= '9'
  }

  function DigitChar(d: nat): (c: char)
    requires d < 10
    ensures IsDigit(c) && (c as int) - ('0' as int) == d
  {
    (('0' as int) + d) as char
  }

  function NatToString(n: nat): (s: string)
    ensures |s| >= 1
    ensures forall i :: 0 <= i < |s| ==> IsDigit(s[i])
    decreases n
  {
    if n < 10 then [DigitChar(n)] else NatToString(n / 10) + [DigitChar(n % 10)]
  }

  function IntToString(i: int): (s: string)
    ensures |s| >= 1
    ensures forall k :: 0 <= k < |s| ==> IsDigit(s[k]) || (k == 0 && s[k] == '-')
  {
    if i < 0 then "-" + NatToString(-i) else NatToString(i)
  }

  function DigitValue(c: char): nat
    requires IsDigit(c)
  {
    (c as int) - ('0' as int)
  }

  /** Reads a string of decimal digits back into the number it denotes. */
  function ParseNat(s: string): nat
    requires forall i :: 0 <= i < |s| ==> IsDigit(s[i])
    decreases |s|
  {
    if |s| == 0 then 0
    else ParseNat(s[..|s| - 1]) * 10 + DigitValue(s[|s| - 1])
  }

  function ParseInt(s: string): int
    requires |s| >= 1
    requires forall k :: 0 <= k < |s| ==> IsDigit(s[k]) || (k == 0 && s[k] == '-')
  {
    if s[0] == '-' then var n: int := ParseNat(s[1..]); -n else ParseNat(s)
  }

  lemma {:induction false} NatToStringRoundTrip(n: nat)
    ensures ParseNat(NatToString(n)) == n
    decreases n
  {
    if n >= 10 {
      var s := NatToString(n);
      NatToStringRoundTrip(n / 10);
      assert s[..|s| - 1] == NatToString(n / 10);
    }
  }

  /** Numbers rendered into a URL can be read back: distinct numbers give distinct text. */
  lemma IntToStringRoundTrip(i: int)
    ensures ParseInt(IntToString(i)) == i
  {
    if i < 0 {
      assert IntToString(i)[1..] == NatToString(-i);
      NatToStringRoundTrip(-i);
    } else {
      NatToStringRoundTrip(i);
    }
  }

  /** The decimal text of a number never contains a path separator. */
  lemma IntToStringHasNoSlash(i: int)
    ensures '/' !in IntToString(i)
  {
  }

  // ---------------------------------------------------------------------
  // Splitting and joining on a separator, as String.prototype.split does.
  // ---------------------------------------------------------------------

  function Join(parts: seq<string>, sep: char): string
    requires |parts| >= 1
  {
    if |parts| == 1 then parts[0] else parts[0] + [sep] + Join(parts[1..], sep)
  }

  /** `s.split(sep)` for a one-character separator. */
  function Split(s: string, sep: char): (parts: seq<string>)
    ensures |parts| >= 1
    ensures forall i :: 0 <= i < |parts| ==> sep !in parts[i]
    decreases |s|
  {
    if |s| == 0 then [""]
    else
      var rest := Split(s[1..], sep);
      if s[0] == sep then [""] + rest
      else [[s[0]] + rest[0]] + rest[1..]
  }

  /** Splitting loses nothing: joining the parts again gives back the input. */
  lemma {:induction false} JoinSplit(s: string, sep: char)
    ensures Join(Split(s, sep), sep) == s
    decreases |s|
  {
    if |s| > 0 {
      var rest := Split(s[1..], sep);
      JoinSplit(s[1..], sep);
      if s[0] == sep {
        assert Split(s, sep) == [""] + rest;
        assert ([""] + rest)[1..] == rest;
      } else {
        var parts := [[s[0]] + rest[0]] + rest[1..];
        assert Split(s, sep) == parts;
        if |rest| == 1 {
          assert Join(parts, sep) == [s[0]] + rest[0];
        } else {
          assert parts[1..] == rest[1..];
          assert Join(rest, sep) == rest[0] + [sep] + Join(rest[1..], sep);
          assert Join(parts, sep) == [s[0]] + rest[0] + [sep] + Join(rest[1..], sep);
        }
      }
    }
  }

  /** Joining separator-free parts and splitting again recovers exactly those parts. */
  lemma {:induction false} SplitJoin(parts: seq<string>, sep: char)
    requires |parts| >= 1
    requires forall i :: 0 <= i < |parts| ==> sep !in parts[i]
    ensures Split(Join(parts, sep), sep) == parts
    decreases |parts|, |parts[0]|
  {
    var head := parts[0];
    if |head| == 0 {
      if |parts| > 1 {
        var tail := Join(parts[1..], sep);
        SplitJoin(parts[1..], sep);
        assert Join(parts, sep) == [sep] + tail;
        assert ([sep] + tail)[1..] == tail;
        assert [""] + parts[1..] == parts;
      }
    } else {
      var shorter := [head[1..]] + parts[1..];
      assert shorter[1..] == parts[1..];
      assert sep !in shorter[0];
      SplitJoin(shorter, sep);
      JoinHeadCons(parts, sep);
      var s := Join(parts, sep);
      assert s[0] == head[0] && head[0] != sep;
      assert s[1..] == Join(shorter, sep);
      assert [head[0]] + head[1..] == head;
      assert [[head[0]] + head[1..]] + parts[1..] == parts;
    }
  }

  /** The first character of the first part leads the joined text. */
  lemma JoinHeadCons(parts: seq<string>, sep: char)
    requires |parts| >= 1 && |parts[0]| > 0
    ensures Join(parts, sep) == [parts[0][0]] + Join([parts[0][1..]] + parts[1..], sep)
  {
    var head := parts[0];
    var shorter := [head[1..]] + parts[1..];
    assert shorter[1..] == parts[1..];
    assert head == [head[0]] + head[1..];
    if |parts| > 1 {
      assert Join(shorter, sep) == head[1..] + [sep] + Join(parts[1..], sep);
    }
  }

  // ---------------------------------------------------------------------
  // URL paths as lists of segments.
  // ---------------------------------------------------------------------

  /** The path `/s1/s2/.../sn` made of the given segments. */
  function JoinPath(segments: seq<string>): string {
    if |segments| == 0 then "" else "/" + segments[0] + JoinPath(segments[1..])
  }

  /** How a server reads a path that starts with `/` back into its segments. */
  function SplitPath(path: string): seq<string> {
    Split(path, '/')[1..]
  }

  lemma {:induction false} JoinPathAppend(a: seq<string>, b: seq<string>)
    ensures JoinPath(a + b) == JoinPath(a) + JoinPath(b)
    decreases |a|
  {
    if |a| == 0 {
      assert a + b == b;
    } else {
      assert (a + b)[0] == a[0];
      assert (a + b)[1..] == a[1..] + b;
      JoinPathAppend(a[1..], b);
    }
  }

  lemma {:induction false} JoinPathAsJoin(segments: seq<string>)
    ensures JoinPath(segments) == Join([""] + segments, '/')
    decreases |segments|
  {
    if |segments| > 0 {
      JoinPathAsJoin(segments[1..]);
      assert ([""] + segments)[1..] == segments;
      assert ([""] + segments[1..])[1..] == segments[1..];
      if |segments| == 1 {
        assert Join(segments, '/') == segments[0];
      } else {
        assert Join(segments, '/') == segments[0] + "/" + Join(segments[1..], '/');
      }
    }
  }

  lemma JoinPath1(x: string)
    ensures JoinPath([x]) == "/" + x
  {
    assert [x][1..] == [];
  }

  /** Adding a segment at the end adds `/segment` at the end of the path. */
  lemma JoinPathSnoc(a: seq<string>, x: string)
    ensures JoinPath(a + [x]) == JoinPath(a) + "/" + x
  {
    JoinPathAppend(a, [x]);
    JoinPath1(x);
  }

  /** A fixed list of segments renders as the literal path. */
  lemma FixedPath3(x: string, y: string, z: string)
    ensures JoinPath([x, y, z]) == "/" + x + "/" + y + "/" + z
  {
    assert [x, y, z][1..] == [y, z];
    assert [y, z][1..] == [z];
    assert [z][1..] == [];
    assert JoinPath([z]) == "/" + z + "";
    assert JoinPath([z]) == "/" + z;
    assert JoinPath([y, z]) == "/" + y + "/" + z;
  }

  lemma FixedPath2(x: string, y: string)
    ensures JoinPath([x, y]) == "/" + x + "/" + y
  {
    assert [x, y][1..] == [y];
    assert [y][1..] == [];
    assert JoinPath([y]) == "/" + y + "";
  }

  /** A path built from slash-free segments is read back as exactly those segments. */
  lemma PathRoundTrip(segments: seq<string>)
    requires forall i :: 0 <= i < |segments| ==> '/' !in segments[i]
    ensures SplitPath(JoinPath(segments)) == segments
  {
    JoinPathAsJoin(segments);
    var parts := [""] + segments;
    assert forall i :: 0 <= i < |parts| ==> '/' !in parts[i] by {
      forall i | 0 <= i < |parts| ensures '/' !in parts[i] {
        if i > 0 { assert parts[i] == segments[i - 1]; }
      }
    }
    SplitJoin(parts, '/');
    assert parts[1..] == segments;
  }
}
