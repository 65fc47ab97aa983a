/** The string functions the source takes from its standard library, and what is needed about them. */
module Strings {
  import opened Streams

  /** unicode.IsSpace. */
  predicate IsSpace(c: char) {
    var i := c as int;
    9 <= i <= 13 || i == 32 || i == 0x85 || i == 0xA0 || i == 0x1680 || 0x2000 <= i <= 0x200a
    || i == 0x2028 || i == 0x2029 || i == 0x202f || i == 0x205f || i == 0x3000
  }

  /** In ASCII: tab, line feed, vertical tab, form feed, carriage return and blank. */
  lemma AsciiSpaces(c: char)
    requires c < 128 as char
    ensures IsSpace(c) <==> c as int in {9, 10, 11, 12, 13, 32}
  {
  }

  function TrimLeft(s: string): (r: string)
    ensures r != "" ==> !IsSpace(r[0])
    ensures |r| <= |s| && r == s[|s| - |r|..]
  {
    if s != "" && IsSpace(s[0]) then TrimLeft(s[1..]) else s
  }

  function TrimRight(s: string): (r: string)
    ensures r != "" ==> !IsSpace(r[|r| - 1])
    ensures r <= s
  {
    if s != "" && IsSpace(s[|s| - 1]) then TrimRight(s[..|s| - 1]) else s
  }

  function TrimSpace(s: string): string {
    TrimRight(TrimLeft(s))
  }

  /** The position of the first `c`, or the length if there is none. */
  function Find(s: string, c: char): (i: nat)
    ensures i <= |s| && c !in s[..i] && (i < |s| ==> s[i] == c)
  {
    if s == "" || s[0] == c then 0
    else
      var i := Find(s[1..], c) + 1;
      assert s[..i] == [s[0]] + s[1..][..i - 1];
      i
  }

  function Split(s: string, c: char): (r: seq<string>)
    ensures r != []
    ensures forall i :: 0 <= i < |r| ==> c !in r[i]
    decreases |s|
  {
    var i := Find(s, c);
    if i == |s| then assert s[..i] == s; [s] else [s[..i]] + Split(s[i + 1..], c)
  }

  lemma {:induction false} FindFirst(a: string, c: char, rest: string)
    requires c !in a
    ensures Find(a + [c] + rest, c) == |a|
  {
    if a != "" {
      FindFirst(a[1..], c, rest);
      assert (a + [c] + rest)[1..] == a[1..] + [c] + rest;
    }
  }

  lemma SplitStep(a: string, c: char, rest: string)
    requires c !in a
    ensures Split(a + [c] + rest, c) == [a] + Split(rest, c)
  {
    FindFirst(a, c, rest);
    var s := a + [c] + rest;
    assert s[..|a|] == a && s[|a| + 1..] == rest;
  }

  lemma {:induction false} FindNone(s: string, c: char)
    requires c !in s
    ensures Find(s, c) == |s|
  {
    if s != "" {
      FindNone(s[1..], c);
    }
  }

  lemma SplitNone(s: string, c: char)
    requires c !in s
    ensures Split(s, c) == [s]
  {
    FindNone(s, c);
  }

  function Join(elements: seq<string>, c: char): string {
    if elements == [] then ""
    else if |elements| == 1 then elements[0]
    else elements[0] + [c] + Join(elements[1..], c)
  }

  lemma {:induction false} SplitJoin(elements: seq<string>, c: char)
    requires elements != [] && forall i :: 0 <= i < |elements| ==> c !in elements[i]
    ensures Split(Join(elements, c), c) == elements
  {
    if |elements| == 1 {
      SplitNone(elements[0], c);
    } else {
      SplitJoin(elements[1..], c);
      SplitStep(elements[0], c, Join(elements[1..], c));
    }
  }

  /** The last element of the last split: what follows the last `c`. */
  function LastPart(s: string, c: char): string {
    var parts := Split(s, c);
    parts[|parts| - 1]
  }

  lemma {:induction false} SplitSuffix(s: string, c: char, tail: string)
    requires c !in tail
    ensures LastPart(s + tail, c) == LastPart(s, c) + tail
    ensures |Split(s + tail, c)| == |Split(s, c)|
    decreases |s|
  {
    var i := Find(s, c);
    if i == |s| {
      assert c !in s by { assert s[..i] == s; }
      SplitNone(s, c);
      SplitNone(s + tail, c);
    } else {
      var rest := s[i + 1..];
      assert s == s[..i] + [c] + rest;
      assert s + tail == s[..i] + [c] + (rest + tail);
      SplitStep(s[..i], c, rest);
      SplitStep(s[..i], c, rest + tail);
      SplitSuffix(rest, c, tail);
    }
  }

  lemma {:induction false} LastAfter(s: string, c: char, tail: string)
    requires c !in tail
    ensures LastPart(s + [c] + tail, c) == tail
    decreases |s|
  {
    var i := Find(s, c);
    if i == |s| {
      assert c !in s by { assert s[..i] == s; }
      SplitStep(s, c, tail);
      SplitNone(tail, c);
    } else {
      var rest := s[i + 1..];
      assert s + [c] + tail == s[..i] + [c] + (rest + [c] + tail);
      SplitStep(s[..i], c, rest + [c] + tail);
      LastAfter(rest, c, tail);
    }
  }

  // ------------------------------------------------------------------ numbers

  function Digit(d: int): char
    requires 0 <= d < 10
  {
    (d + 48) as char
  }

  predicate IsDigit(c: char) {
    '0' <= c <= '9'
  }

  function Itoa(n: nat): (s: string)
    ensures s != "" && forall i :: 0 <= i < |s| ==> IsDigit(s[i])
  {
    if n < 10 then [Digit(n)] else Itoa(n / 10) + [Digit(n % 10)]
  }

  /** strconv.Atoi on unsigned digits; anything else is an error here. */
  function Atoi(s: string): Option<nat> {
    if s == "" then None
    else
      var n := |s| - 1;
      if !IsDigit(s[n]) then None
      else if n == 0 then Some(s[n] as int - 48)
      else
        match Atoi(s[..n])
        case None => None
        case Some(m) => Some(10 * m + (s[n] as int - 48))
  }

  predicate AllDigits(s: string) {
    s != "" && forall i :: 0 <= i < |s| ==> IsDigit(s[i])
  }

  lemma {:induction false} AtoiDigits(s: string)
    ensures Atoi(s).Some? <==> AllDigits(s)
  {
    if s != "" {
      var n := |s| - 1;
      if n > 0 {
        AtoiDigits(s[..n]);
      }
      assert forall i :: 0 <= i < n ==> s[..n][i] == s[i];
    }
  }

  lemma {:induction false} AtoiItoa(n: nat)
    ensures Atoi(Itoa(n)) == Some(n)
  {
    if n >= 10 {
      AtoiItoa(n / 10);
      assert Itoa(n)[..|Itoa(n)| - 1] == Itoa(n / 10);
    }
  }

  lemma DigitsAvoid(n: nat, c: char)
    requires !IsDigit(c)
    ensures c !in Itoa(n)
  {
  }
}
