/** Shared datatypes: optional values, results carrying an exception text, and
    the progress/final items that the streaming agents yield. */
module Common {

  datatype Option<+T> = None | Some(value: T)

  /** A Python call that either returns a value or raises; `error` is the
      exception's text as `str(e)` renders it. */
  datatype Result<+T> = Ok(value: T) | Err(error: string)

  /** One dict yielded by a streaming `invoke`: `{'is_task_complete': ...,
      'updates' | 'content': text}` (progress items carry 'updates', the
      final item carries 'content'). */
  datatype Update = Update(isTaskComplete: bool, text: string)

  /** Python's `str(e)` for the IndexError raised by `[0]` on an empty list. */
  const IndexErrorText := "list index out of range"
}

/** String helpers standing for the Python built-ins the core relies on:
    `str.lower`, `in` on strings, `str.index`, `str.join`, `str.split`. */
module Text {
  import opened Common

  /** `str.lower` restricted to ASCII: length preserving. */
  function LowerChar(c: char): char
  {
    if 'A' <= c <= 'Z' then (c as int - 'A' as int + 'a' as int) as char else c
  }

  function Lower(s: string): (r: string)
    ensures |r| == |s|
    ensures forall i :: 0 <= i < |s| ==> r[i] == LowerChar(s[i])
  {
    seq(|s|, i requires 0 <= i < |s| => LowerChar(s[i]))
  }

  /** `p` occurs in `s` starting at index `i`. */
  predicate OccursAt(s: string, p: string, i: int)
  {
    0 <= i && i + |p| <= |s| && s[i..i + |p|] == p
  }

  /** The first occurrence of `p` in `s` at or after `start`. */
  function IndexFrom(s: string, p: string, start: nat): (r: Option<nat>)
    requires start <= |s|
    decreases |s| - start
    ensures r.Some? ==> start <= r.value && OccursAt(s, p, r.value)
    ensures r.Some? ==> forall j :: start <= j < r.value ==> !OccursAt(s, p, j)
    ensures r.None? ==> forall j :: start <= j ==> !OccursAt(s, p, j)
  {
    if OccursAt(s, p, start) then Some(start)
    else if start == |s| then None
    else IndexFrom(s, p, start + 1)
  }

  /** Python's `s.index(p)`, with None where Python would raise ValueError. */
  function IndexOf(s: string, p: string): (r: Option<nat>)
    ensures r.Some? ==> OccursAt(s, p, r.value) && forall j :: 0 <= j < r.value ==> !OccursAt(s, p, j)
    ensures r.None? <==> forall j :: !OccursAt(s, p, j)
  {
    IndexFrom(s, p, 0)
  }

  /** Python's `p in s` for strings. */
  predicate Contains(s: string, p: string)
  {
    IndexOf(s, p).Some?
  }

  lemma ContainsAt(s: string, p: string, i: int)
    requires OccursAt(s, p, i)
    ensures Contains(s, p)
  {
  }

  /** A string contains every prefix of any string it contains. */
  lemma {:induction false} ContainsPrefix(s: string, p: string, k: nat)
    requires Contains(s, p) && k <= |p|
    ensures Contains(s, p[..k])
  {
    var i := IndexOf(s, p).value;
    assert s[i..i + k] == s[i..i + |p|][..k];
    ContainsAt(s, p[..k], i);
  }

  /** Python's `sep.join(xs)`. */
  function Join(xs: seq<string>, sep: string): string
  {
    if |xs| == 0 then ""
    else if |xs| == 1 then xs[0]
    else xs[0] + sep + Join(xs[1..], sep)
  }

  /** Python's `s.split(c)` for a single-character separator. */
  function Split(s: string, c: char): (r: seq<string>)
    ensures |r| > 0
  {
    if |s| == 0 then [""]
    else
      var rest := Split(s[1..], c);
      if s[0] == c then [""] + rest
      else [[s[0]] + rest[0]] + rest[1..]
  }

  lemma {:induction false} SplitPiece(x: string, c: char, t: string)
    requires c !in x
    ensures Split(x + [c] + t, c) == [x] + Split(t, c)
  {
    if |x| == 0 {
      assert x + [c] + t == [c] + t;
      assert ([c] + t)[1..] == t;
    } else {
      assert (x + [c] + t)[1..] == x[1..] + [c] + t;
      SplitPiece(x[1..], c, t);
      assert [x[0]] + x[1..] == x;
    }
  }

  lemma {:induction false} SplitNoSeparator(x: string, c: char)
    requires c !in x
    ensures Split(x, c) == [x]
  {
    if |x| > 0 {
      SplitNoSeparator(x[1..], c);
      assert [x[0]] + x[1..] == x;
    }
  }

  /** Splitting a join on a separator that no piece contains gives the pieces back. */
  lemma {:induction false} SplitJoin(xs: seq<string>, c: char)
    requires |xs| > 0
    requires forall i :: 0 <= i < |xs| ==> c !in xs[i]
    ensures Split(Join(xs, [c]), c) == xs
  {
    if |xs| == 1 {
      SplitNoSeparator(xs[0], c);
    } else {
      SplitJoin(xs[1..], c);
      SplitPiece(xs[0], c, Join(xs[1..], [c]));
      assert [xs[0]] + xs[1..] == xs;
    }
  }

  /** The characters Python's `str.isspace` accepts (and so `str.strip()`
      and `str.split()` without arguments treat as whitespace). */
  predicate IsSpace(c: char)
  {
    var n := c as int;
    (9 <= n <= 13) || (28 <= n <= 32) || n == 0x85 || n == 0xA0 || n == 0x1680
    || (0x2000 <= n <= 0x200A) || n == 0x2028 || n == 0x2029 || n == 0x202F
    || n == 0x205F || n == 0x3000
  }

  /** `t` is the first whitespace-separated token of `s`, starting at `p`. */
  ghost predicate TokenAt(s: string, t: string, p: int)
  {
    && 0 <= p && p + |t| <= |s| && t != [] && s[p..p + |t|] == t
    && (forall i :: 0 <= i < p ==> IsSpace(s[i]))
    && (forall i :: 0 <= i < |t| ==> !IsSpace(t[i]))
    && (p + |t| == |s| || IsSpace(s[p + |t|]))
  }

  function SkipSpaces(s: string): (r: nat)
    ensures r <= |s|
    ensures forall i :: 0 <= i < r ==> IsSpace(s[i])
    ensures r < |s| ==> !IsSpace(s[r])
  {
    if |s| == 0 || !IsSpace(s[0]) then 0 else 1 + SkipSpaces(s[1..])
  }

  function TakeToken(s: string): (r: nat)
    ensures r <= |s|
    ensures forall i :: 0 <= i < r ==> !IsSpace(s[i])
    ensures r < |s| ==> IsSpace(s[r])
  {
    if |s| == 0 || IsSpace(s[0]) then 0 else 1 + TakeToken(s[1..])
  }

  /** Python's `s.strip().split()[0]`, with None where Python raises
      IndexError (a string of whitespace only). */
  function FirstToken(s: string): (r: Option<string>)
    ensures r.None? <==> forall i :: 0 <= i < |s| ==> IsSpace(s[i])
    ensures r.Some? ==> exists p :: TokenAt(s, r.value, p)
  {
    var p := SkipSpaces(s);
    if p == |s| then None
    else
      var n := TakeToken(s[p..]);
      var t := s[p..p + n];
      assert t[..] == s[p..][..n];
      assert TokenAt(s, t, p);
      Some(t)
  }
}
