/** The few Python string builtins the modelled code relies on: `sep.join(parts)`,
    `s.split(c)` with a one-character separator, `str(n)` for integers, the slice
    `s[:k]`, and the decimal value of a run of ASCII digits (`int(...)`). */
module Text {

  /** A result that is either a value or a failure, for code that may raise. */
  datatype Result<+T, +E> = Ok(value: T) | Err(error: E) {
    predicate IsFailure() { Err? }
    function PropagateFailure<U>(): Result<U, E> requires Err? { Err(error) }
    function Extract(): T requires Ok? { value }
  }

  datatype Option<+T> = None | Some(value: T)

  function Min(a: int, b: int): int { if a <= b then a else b }

  /** `s[:k]` for k >= 0: at most the first k elements. */
  function Take<T>(s: seq<T>, k: nat): (r: seq<T>)
    ensures |r| == Min(k, |s|)
    ensures r <= s
  {
    if k <= |s| then s[..k] else s
  }

  /** `sep.join(parts)` */
  function Join(sep: string, parts: seq<string>): string
  {
    if |parts| == 0 then ""
    else if |parts| == 1 then parts[0]
    else parts[0] + sep + Join(sep, parts[1..])
  }

  /** The concatenation of all parts, without separator (`"".join(parts)`). */
  function Concat(parts: seq<string>): (r: string)
  {
    if parts == [] then "" else parts[0] + Concat(parts[1..])
  }

  lemma {:induction false} ConcatAppend(parts: seq<string>, last: string)
    ensures Concat(parts + [last]) == Concat(parts) + last
  {
    if parts != [] {
      ConcatAppend(parts[1..], last);
      assert (parts + [last])[1..] == parts[1..] + [last];
    }
  }

  /** Every part appears in the concatenation right after the parts before it. */
  lemma {:induction false} ConcatAt(parts: seq<string>, i: nat)
    requires i < |parts|
    ensures |Concat(parts[..i])| + |parts[i]| <= |Concat(parts)|
    ensures Concat(parts)[|Concat(parts[..i])|..|Concat(parts[..i])| + |parts[i]|] == parts[i]
  {
    if i == 0 {
      assert parts[..0] == [];
    } else {
      ConcatAt(parts[1..], i - 1);
      assert parts[1..][..i - 1] == parts[1..i];
      assert parts[..i][1..] == parts[1..i];
      var before := Concat(parts[1..i]);
      assert Concat(parts[..i]) == parts[0] + before;
      SliceOfMiddle(parts[0], Concat(parts[1..]), "", |before|, |before| + |parts[i]|);
      assert parts[0] + Concat(parts[1..]) + "" == Concat(parts);
    }
  }

  /** Where `parts[i]` starts inside `Join(sep, parts)`. */
  function JoinOffset(sep: string, parts: seq<string>, i: nat): nat
    requires i <= |parts|
  {
    if i == 0 then 0 else JoinOffset(sep, parts, i - 1) + |parts[i - 1]| + |sep|
  }

  /** Every part appears in the joined string at its offset, in input order. */
  lemma {:induction false} JoinAt(sep: string, parts: seq<string>, i: nat)
    requires i < |parts|
    ensures JoinOffset(sep, parts, i) + |parts[i]| <= |Join(sep, parts)|
    ensures Join(sep, parts)[JoinOffset(sep, parts, i)..JoinOffset(sep, parts, i) + |parts[i]|] == parts[i]
  {
    if |parts| == 1 {
    } else if i == 0 {
    } else {
      JoinAt(sep, parts[1..], i - 1);
      ShiftedOffset(sep, parts, i);
      var rest := Join(sep, parts[1..]);
      var head := parts[0] + sep;
      assert Join(sep, parts) == head + rest + "";
      var o := JoinOffset(sep, parts[1..], i - 1);
      SliceOfMiddle(head, rest, "", o, o + |parts[i]|);
    }
  }

  lemma {:induction false} ShiftedOffset(sep: string, parts: seq<string>, i: nat)
    requires 1 <= i <= |parts|
    ensures JoinOffset(sep, parts, i) == |parts[0]| + |sep| + JoinOffset(sep, parts[1..], i - 1)
  {
    if i > 1 {
      ShiftedOffset(sep, parts, i - 1);
    }
  }

  /** `s.split(sep)` for a one-character separator: the pieces between separators,
      so there is always at least one piece and none contains the separator. */
  function Split(s: string, sep: char): (r: seq<string>)
    ensures |r| >= 1
    ensures forall i :: 0 <= i < |r| ==> sep !in r[i]
  {
    if s == [] then [""]
    else if s[0] == sep then [""] + Split(s[1..], sep)
    else
      var rest := Split(s[1..], sep);
      [[s[0]] + rest[0]] + rest[1..]
  }

  lemma {:induction false} SplitPiece(a: string, sep: char)
    requires sep !in a
    ensures Split(a, sep) == [a]
  {
    if a != [] {
      SplitPiece(a[1..], sep);
      assert [a[0]] + a[1..] == a;
    }
  }

  lemma {:induction false} SplitAfterPiece(a: string, sep: char, rest: string)
    requires sep !in a
    ensures Split(a + [sep] + rest, sep) == [a] + Split(rest, sep)
  {
    if a == [] {
      assert a + [sep] + rest == [sep] + rest;
      assert ([sep] + rest)[1..] == rest;
    } else {
      SplitAfterPiece(a[1..], sep, rest);
      assert (a + [sep] + rest)[1..] == a[1..] + [sep] + rest;
      assert [a[0]] + a[1..] == a;
    }
  }

  /** Splitting undoes joining when there is at least one part and no part holds the separator. */
  lemma {:induction false} SplitJoin(parts: seq<string>, sep: char)
    requires |parts| >= 1
    requires forall i :: 0 <= i < |parts| ==> sep !in parts[i]
    ensures Split(Join([sep], parts), sep) == parts
  {
    if |parts| == 1 {
      SplitPiece(parts[0], sep);
    } else {
      SplitJoin(parts[1..], sep);
      SplitAfterPiece(parts[0], sep, Join([sep], parts[1..]));
    }
  }

  // ---- decimal numbers -------------------------------------------------------

  predicate IsDigit(c: char) { '0' <= c <= '9' }

  function DigitChar(d: nat): (c: char)
    requires d < 10
    ensures IsDigit(c)
  {
    ('0' as int + d) as char
  }

  function DigitValue(c: char): (d: nat)
    requires IsDigit(c)
    ensures d < 10 && DigitChar(d) == c
  {
    (c as int - '0' as int) as nat
  }

  /** `str(n)` for a natural number: its decimal digits, most significant first. */
  function NatToString(n: nat): (s: string)
    ensures |s| >= 1
    ensures forall i :: 0 <= i < |s| ==> IsDigit(s[i])
  {
    if n < 10 then [DigitChar(n)] else NatToString(n / 10) + [DigitChar(n % 10)]
  }

  /** `str(i)` for any integer. */
  function IntToString(i: int): string
  {
    if i < 0 then "-" + NatToString(-i) else NatToString(i)
  }

  /** The value of a string of decimal digits, as `int(...)` computes it. */
  function DigitsValue(ds: string): nat
    requires forall i :: 0 <= i < |ds| ==> IsDigit(ds[i])
  {
    if ds == [] then 0 else DigitsValue(ds[..|ds| - 1]) * 10 + DigitValue(ds[|ds| - 1])
  }

  /** Reading back the digits of `str(n)` gives n. */
  lemma {:induction false} DigitsOfNat(n: nat)
    ensures DigitsValue(NatToString(n)) == n
  {
    var s := NatToString(n);
    if n >= 10 {
      DigitsOfNat(n / 10);
      assert s[..|s| - 1] == NatToString(n / 10);
      assert DigitValue(s[|s| - 1]) == n % 10;
    } else {
      assert DigitValue(s[0]) == n;
    }
  }

  /** Different numbers have different decimal renderings. */
  lemma NatToStringInjective(a: nat, b: nat)
    requires NatToString(a) == NatToString(b)
    ensures a == b
  {
    DigitsOfNat(a);
    DigitsOfNat(b);
  }

  /** A slice that falls inside the middle piece of `a + b + c` is a slice of `b`. */
  lemma SliceOfMiddle<T>(a: seq<T>, b: seq<T>, c: seq<T>, lo: nat, hi: nat)
    requires lo <= hi <= |b|
    ensures |a| + hi <= |a + b + c|
    ensures (a + b + c)[|a| + lo..|a| + hi] == b[lo..hi]
  {
    assert a + b + c == a + (b + c);
    assert (b + c)[lo..hi] == b[lo..hi];
  }

  /** A joined list framed by a head and a tail holds each part right after the head
      and the parts before it. */
  lemma FramedJoinAt(whole: string, head: string, sep: string, parts: seq<string>, tail: string, i: nat)
    requires whole == head + Join(sep, parts) + tail
    requires i < |parts|
    ensures |head| + JoinOffset(sep, parts, i) + |parts[i]| <= |whole|
    ensures whole[|head| + JoinOffset(sep, parts, i)..|head| + JoinOffset(sep, parts, i) + |parts[i]|] == parts[i]
  {
    var o := JoinOffset(sep, parts, i);
    JoinAt(sep, parts, i);
    SliceOfMiddle(head, Join(sep, parts), tail, o, o + |parts[i]|);
  }

  lemma SeparatorAt(u: string, v: string, c: char)
    ensures (u + [c] + v)[|u|] == c
  {
  }

  /** When neither u nor x contains c, `u + [c] + v == x + [c] + y` splits the same way. */
  lemma SplitAtFirst(u: string, v: string, x: string, y: string, c: char)
    requires c !in u && c !in x
    requires u + [c] + v == x + [c] + y
    ensures u == x && v == y
  {
    var s := u + [c] + v;
    if |u| < |x| {
      SeparatorAt(u, v, c);
      assert false;
    } else if |x| < |u| {
      SeparatorAt(x, y, c);
      assert false;
    }
    assert u == s[..|u|] == x;
    assert v == s[|u| + 1..] == y;
  }
}
