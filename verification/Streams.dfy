/** Byte streams and the small vocabulary that all stores share. */
module Streams {

  type byte = x: int | 0 <= x < 256

  type bytes = seq<byte>

  datatype Option<+T> = None | Some(value: T)

  datatype Result<+T, +E> = Ok(value: T) | Err(error: E)

  function Min(a: int, b: int): int {
    if a <= b then a else b
  }

  function Max(a: int, b: int): int {
    if a >= b then a else b
  }

  /** Division rounded up, as the part arithmetic of the stores needs it. */
  function CeilDiv(a: nat, b: nat): nat
    requires b > 0
  {
    (a + b - 1) / b
  }

  /** The numbers below n. */
  function Positions(n: nat): (s: set<nat>)
    ensures forall i :: i in s <==> 0 <= i < n
  {
    if n == 0 then {} else Positions(n - 1) + {n - 1}
  }

  /** The in-order concatenation of a list of pieces. */
  function Flatten(pieces: seq<bytes>): bytes {
    if pieces == [] then [] else pieces[0] + Flatten(pieces[1..])
  }

  lemma {:induction false} FlattenConcat(a: seq<bytes>, b: seq<bytes>)
    ensures Flatten(a + b) == Flatten(a) + Flatten(b)
  {
    hide Flatten;
    if a == [] {
      FlattenNone();
      assert a + b == b;
    } else {
      FlattenConcat(a[1..], b);
      assert (a + b)[1..] == a[1..] + b;
      FlattenStep(a);
      FlattenStep(a + b);
      ConcatAssociates(a[0], Flatten(a[1..]), Flatten(b));
    }
  }

  lemma FlattenNone()
    ensures Flatten([]) == []
  {
  }

  lemma FlattenStep(pieces: seq<bytes>)
    requires pieces != []
    ensures Flatten(pieces) == pieces[0] + Flatten(pieces[1..])
  {
  }

  lemma ConcatAssociates(x: bytes, y: bytes, z: bytes)
    ensures x + (y + z) == x + y + z
  {
  }

  lemma FlattenSnoc(a: seq<bytes>, last: bytes)
    ensures Flatten(a + [last]) == Flatten(a) + last
  {
    FlattenConcat(a, [last]);
    assert Flatten([last]) == last + Flatten([]);
  }

  /** Pieces that all have at least `lo` bytes weigh at least `lo` each. */
  lemma {:induction false} FlattenAtLeast(pieces: seq<bytes>, lo: nat)
    requires forall i :: 0 <= i < |pieces| ==> |pieces[i]| >= lo
    ensures |Flatten(pieces)| >= lo * |pieces|
  {
    if pieces != [] {
      FlattenAtLeast(pieces[1..], lo);
    }
  }

  /** The stream in pieces of `size` bytes; the last piece may be shorter. */
  function Cut(stream: bytes, size: nat): seq<bytes>
    requires size > 0
    decreases |stream|
  {
    if stream == [] then []
    else if |stream| <= size then [stream]
    else [stream[..size]] + Cut(stream[size..], size)
  }

  /** Cutting loses nothing, every piece but the last is full, and the last is not empty. */
  lemma {:induction false} CutPieces(stream: bytes, size: nat)
    requires size > 0
    ensures Flatten(Cut(stream, size)) == stream
    ensures forall i :: 0 <= i < |Cut(stream, size)| ==> 0 < |Cut(stream, size)[i]| <= size
    ensures forall i :: 0 <= i < |Cut(stream, size)| - 1 ==> |Cut(stream, size)[i]| == size
    decreases |stream|
  {
    if |stream| > size {
      CutPieces(stream[size..], size);
    } else if stream != [] {
      assert Flatten([stream]) == stream + Flatten([]);
    }
  }

  lemma DivAddBlock(a: nat, b: nat)
    requires b > 0
    ensures (a + b) / b == a / b + 1
  {
    var q, r := a / b, a % b;
    assert a + b == (q + 1) * b + r;
    DivUnique(a + b, b, q + 1, r);
  }

  lemma DivUnique(a: nat, b: nat, q: nat, r: nat)
    requires b > 0 && a == q * b + r && r < b
    ensures a / b == q
  {
    var q', r' := a / b, a % b;
    MulMonotone(q' + 1, q, b);
    MulMonotone(q + 1, q', b);
  }

  lemma MulMonotone(x: int, y: int, b: nat)
    ensures x <= y ==> x * b <= y * b
    ensures (x + 1) * b == x * b + b
  {
    if x <= y {
      assert (y - x) * b >= 0;
    }
  }

  /** The number of pieces is the stream length divided by the piece size, rounded up. */
  lemma {:induction false} CutCount(stream: bytes, size: nat)
    requires size > 0
    ensures |Cut(stream, size)| == CeilDiv(|stream|, size)
    decreases |stream|
  {
    if stream == [] {
      DivUnique(size - 1, size, 0, size - 1);
    } else if |stream| <= size {
      DivUnique(|stream| + size - 1, size, 1, |stream| - 1);
    } else {
      CutCount(stream[size..], size);
      DivAddBlock(|stream| - 1, size);
    }
  }

  /** Rounding up is the least multiplier that reaches: n blocks suffice iff CeilDiv(a, b) <= n. */
  lemma CeilDivLeast(a: nat, b: nat, n: nat)
    requires b > 0
    ensures CeilDiv(a, b) <= n <==> a <= b * n
  {
    var c := a + b - 1;
    var q, r := c / b, c % b;
    assert c == q * b + r;
    assert b * n == n * b;
    MulMonotone(q, n, b);
    MulMonotone(n, n, b);
    MulMonotone(n + 1, q, b);
  }
}
