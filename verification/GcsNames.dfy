/** Object names in the Google Cloud Storage backend, and the listing filter that reads them. */
module GcsNames {
  import opened Streams
  import opened Strings

  function ChunkName(key: string, i: nat): string {
    key + "_" + Itoa(i)
  }

  function TmpPrefix(key: string): string {
    key + "_tmp"
  }

  function TmpName(key: string, level: nat, i: nat): string {
    key + "_tmp_" + Itoa(level) + "_" + Itoa(i)
  }

  function InfoName(key: string): string {
    key + ".info"
  }

  predicate HasInfoSuffix(name: string) {
    |name| >= 4 && name[|name| - 4..] == "info"
  }

  function FileName(name: string): string {
    LastPart(name, '/')
  }

  /** The pieces of the file name between underscores. */
  function Pieces(name: string): (r: seq<string>)
    ensures r != []
  {
    Split(FileName(name), '_')
  }

  /** The ids the store works with: no underscore in the last path element, and not mistaken for an info object. */
  ghost predicate KeyOk(key: string) {
    '_' !in FileName(key) && !HasInfoSuffix(key)
  }

  // ------------------------------------------------------------ how names read

  lemma PiecesOf(key: string, tail: string)
    requires '/' !in tail
    ensures Pieces(key + tail) == Split(FileName(key) + tail, '_')
  {
    SplitSuffix(key, '/', tail);
  }

  lemma ChunkPieces(key: string, i: nat)
    requires KeyOk(key)
    ensures Pieces(ChunkName(key, i)) == [FileName(key), Itoa(i)]
    ensures !HasInfoSuffix(ChunkName(key, i))
  {
    var number := Itoa(i);
    DigitsAvoid(i, '/');
    DigitsAvoid(i, '_');
    assert ChunkName(key, i) == key + ("_" + number);
    PiecesOf(key, "_" + number);
    assert FileName(key) + ("_" + number) == FileName(key) + ['_'] + number;
    SplitStep(FileName(key), '_', number);
    SplitNone(number, '_');
    EndsInDigit(key + "_", i);
  }

  lemma EndsInDigit(prefix: string, i: nat)
    ensures !HasInfoSuffix(prefix + Itoa(i))
  {
    var s := prefix + Itoa(i);
    assert IsDigit(s[|s| - 1]);
    if |s| >= 4 {
      assert s[|s| - 4..][3] == s[|s| - 1];
    }
  }

  lemma TmpPieces(key: string, level: nat, i: nat)
    requires KeyOk(key)
    ensures Pieces(TmpName(key, level, i)) == [FileName(key), "tmp", Itoa(level), Itoa(i)]
    ensures !HasInfoSuffix(TmpName(key, level, i))
    ensures TmpPrefix(key) <= TmpName(key, level, i)
  {
    hide Split, Itoa;
    var l, n := Itoa(level), Itoa(i);
    DigitsAvoid(level, '/');
    DigitsAvoid(level, '_');
    DigitsAvoid(i, '/');
    DigitsAvoid(i, '_');
    var tail := "_tmp_" + l + "_" + n;
    assert TmpName(key, level, i) == key + tail;
    PiecesOf(key, tail);
    var base := FileName(key);
    assert base + tail == base + ['_'] + ("tmp" + ['_'] + (l + ['_'] + n));
    SplitStep(base, '_', "tmp" + ['_'] + (l + ['_'] + n));
    SplitStep("tmp", '_', l + ['_'] + n);
    SplitStep(l, '_', n);
    SplitNone(n, '_');
    EndsInDigit(key + "_tmp_" + l + "_", i);
  }

  lemma KeyPieces(key: string)
    requires KeyOk(key)
    ensures Pieces(key) == [FileName(key)]
  {
    SplitNone(FileName(key), '_');
  }

  lemma InfoSuffix(key: string)
    ensures HasInfoSuffix(InfoName(key))
  {
    var s := InfoName(key);
    assert s[|s| - 4..] == "info";
  }

  /** Different chunks, temporaries, the object and its info all have different names. */
  lemma NamesDiffer(key: string)
    requires KeyOk(key)
    ensures forall i: nat, j: nat :: ChunkName(key, i) == ChunkName(key, j) ==> i == j
    ensures forall l: nat, i: nat, m: nat, j: nat :: TmpName(key, l, i) == TmpName(key, m, j) ==> l == m && i == j
    ensures forall i: nat :: ChunkName(key, i) != key && ChunkName(key, i) != InfoName(key)
    ensures forall l: nat, i: nat, j: nat :: TmpName(key, l, i) != ChunkName(key, j)
    ensures forall l: nat, i: nat :: TmpName(key, l, i) != key && TmpName(key, l, i) != InfoName(key)
  {
    hide ChunkName, TmpName, Pieces, Itoa, Atoi;
    KeyPieces(key);
    InfoSuffix(key);
    forall i: nat ensures Pieces(ChunkName(key, i)) == [FileName(key), Itoa(i)] && Atoi(Itoa(i)) == Some(i)
                          && !HasInfoSuffix(ChunkName(key, i)) {
      ChunkPieces(key, i);
      AtoiItoa(i);
    }
    forall l: nat, i: nat
      ensures Pieces(TmpName(key, l, i)) == [FileName(key), "tmp", Itoa(l), Itoa(i)] && !HasInfoSuffix(TmpName(key, l, i))
    {
      TmpPieces(key, l, i);
    }
  }

  /** A chunk is not mistaken for a temporary object by its prefix. */
  lemma ChunkNotTmp(key: string, i: nat)
    ensures !(TmpPrefix(key) <= ChunkName(key, i))
  {
    var k := |key| + 1;
    assert ChunkName(key, i)[k] == Itoa(i)[0];
    assert TmpPrefix(key)[k] == 't';
  }

  // ------------------------------------------------------------------ the filter

  datatype GcsError = BadName | EmptySources | NotFound | NoObjects

  /** Growing the result with empty names so that position `idx` exists, then writing it. */
  function Place(names: seq<string>, idx: nat, name: string): seq<string> {
    if idx < |names| then names[idx := name]
    else names + seq(idx - |names|, i => "") + [name]
  }

  /** FilterObjects over a listing, with the names collected so far. */
  function FilterFrom(names: seq<string>, listing: seq<string>): Result<seq<string>, GcsError>
    decreases listing
  {
    if listing == [] then Ok(names)
    else
      var name, rest := listing[0], listing[1..];
      var pieces := Pieces(name);
      if HasInfoSuffix(name) then FilterFrom(names, rest)
      else if |pieces| == 1 then Ok([name])
      else if |pieces| == 4 then FilterFrom(names + [name], rest)
      else if |pieces| != 2 || Atoi(pieces[1]).None? then Err(BadName)
      else FilterFrom(Place(names, Atoi(pieces[1]).value, name), rest)
  }

  function Filter(listing: seq<string>): Result<seq<string>, GcsError> {
    FilterFrom([], listing)
  }

  lemma InfoSuffixMeans(name: string)
    ensures HasInfoSuffix(name) <==> exists p: string :: name == p + "info"
  {
    if HasInfoSuffix(name) {
      assert name == name[..|name| - 4] + "info";
    }
  }

  /** The composed object: a name without any underscore. */
  predicate IsObject(name: string) {
    !HasInfoSuffix(name) && |Pieces(name)| == 1
  }

  /** A name that is none of info object, composed object, temporary object and numbered chunk. */
  predicate IsForeign(name: string) {
    var pieces := Pieces(name);
    !HasInfoSuffix(name) && |pieces| != 1 && |pieces| != 4 && !(|pieces| == 2 && Atoi(pieces[1]).Some?)
  }

  /** The filter fails exactly if it meets a foreign name before the composed object. */
  lemma {:induction false} FilterFails(names: seq<string>, listing: seq<string>)
    ensures FilterFrom(names, listing).Err? <==>
            exists i :: 0 <= i < |listing| && IsForeign(listing[i]) && forall j :: 0 <= j < i ==> !IsObject(listing[j])
    ensures FilterFrom(names, listing).Err? ==> FilterFrom(names, listing) == Err(BadName)
    decreases listing
  {
    hide HasInfoSuffix, Pieces, Atoi;
    if listing != [] {
      var name, rest := listing[0], listing[1..];
      assert forall i :: 0 < i < |listing| ==> listing[i] == rest[i - 1];
      if !IsObject(name) && !IsForeign(name) {
        var next := if HasInfoSuffix(name) then names
                    else if |Pieces(name)| == 4 then names + [name]
                    else Place(names, Atoi(Pieces(name)[1]).value, name);
        FilterFails(next, rest);
        if i :| 0 <= i < |rest| && IsForeign(rest[i]) && forall j :: 0 <= j < i ==> !IsObject(rest[j]) {
          assert IsForeign(listing[i + 1]);
        }
      }
    }
  }

  /** FilterObjects as it runs: the result slice is grown and overwritten in place. */
  method FilterObjects(listing: seq<string>) returns (res: Result<seq<string>, GcsError>)
    ensures res == Filter(listing)
  {
    var names: seq<string> := [];
    var i := 0;
    while i < |listing|
      invariant 0 <= i <= |listing|
      invariant Filter(listing) == FilterFrom(names, listing[i..])
    {
      var name := listing[i];
      i := i + 1;
      if HasInfoSuffix(name) {
        continue;
      }
      var pieces := Pieces(name);
      if |pieces| == 1 {
        return Ok([name]);
      } else if |pieces| == 4 {
        names := names + [name];
        continue;
      } else if |pieces| != 2 {
        return Err(BadName);
      }
      var idx := Atoi(pieces[1]);
      if idx.None? {
        return Err(BadName);
      }
      var grown := names;
      if |names| <= idx.value {
        grown := names + seq(idx.value - |names| + 1, i => "");
      }
      assert grown[idx.value := name] == Place(names, idx.value, name);
      names := grown[idx.value := name];
    }
    return Ok(names);
  }

  // ------------------------------------------------------ what the filter finds

  function ChunkNames(key: string, n: nat): seq<string> {
    seq(n, i requires 0 <= i < n => ChunkName(key, i))
  }

  /** An info object, or one of the first `n` chunks. */
  ghost predicate InfoOrChunk(key: string, n: nat, name: string) {
    HasInfoSuffix(name) || exists i: nat :: i < n && name == ChunkName(key, i)
  }

  /** The result slice after the chunks in `seen`: each at its number, gaps empty. */
  ghost predicate Slots(key: string, names: seq<string>, seen: set<nat>) {
    && (forall i :: i in seen ==> i < |names|)
    && (forall i: nat :: i < |names| ==> names[i] == if i in seen then ChunkName(key, i) else "")
    && (names != [] ==> |names| - 1 in seen)
  }

  ghost predicate Collected(key: string, n: nat, seen: set<nat>, listing: seq<string>, all: set<nat>) {
    && seen <= all
    && (forall i :: i in all ==> i in seen || i < n)
    && (forall i: nat :: ChunkName(key, i) in listing ==> i in all)
  }

  lemma PlaceKeepsSlots(key: string, names: seq<string>, seen: set<nat>, i: nat)
    requires Slots(key, names, seen)
    ensures Slots(key, Place(names, i, ChunkName(key, i)), seen + {i})
  {
    hide ChunkName;
  }

  /** Every chunk lands at its own number, in whatever order the listing has them. */
  lemma {:induction false} FilterPlaces(key: string, n: nat, names: seq<string>, seen: set<nat>, listing: seq<string>)
    requires KeyOk(key) && Slots(key, names, seen)
    requires forall k :: 0 <= k < |listing| ==> InfoOrChunk(key, n, listing[k])
    ensures FilterFrom(names, listing).Ok?
    ensures exists all: set<nat> :: Slots(key, FilterFrom(names, listing).value, all) && Collected(key, n, seen, listing, all)
    decreases listing
  {
    hide ChunkName, Slots, Pieces, Place, Atoi, Itoa, HasInfoSuffix;
    if listing == [] {
      assert Slots(key, FilterFrom(names, listing).value, seen) && Collected(key, n, seen, listing, seen);
    } else {
      var name, rest := listing[0], listing[1..];
      assert InfoOrChunk(key, n, listing[0]);
      assert forall k :: 0 <= k < |rest| ==> rest[k] == listing[k + 1];
      var seen' := seen;
      NamesDiffer(key);
      if HasInfoSuffix(name) {
        forall i: nat ensures name != ChunkName(key, i) {
          ChunkPieces(key, i);
        }
        FilterPlaces(key, n, names, seen, rest);
      } else {
        var i: nat :| i < n && name == ChunkName(key, i);
        ChunkPieces(key, i);
        AtoiItoa(i);
        PlaceKeepsSlots(key, names, seen, i);
        seen' := seen + {i};
        FilterPlaces(key, n, Place(names, i, name), seen', rest);
      }
      assert forall i: nat :: name == ChunkName(key, i) ==> i in seen';
      var all: set<nat> :| Slots(key, FilterFrom(names, listing).value, all) && Collected(key, n, seen', rest, all);
      assert Collected(key, n, seen', rest, all);
      forall i: nat | ChunkName(key, i) in listing ensures i in all {
        assert ChunkName(key, i) in rest || ChunkName(key, i) == name;
      }
      assert Collected(key, n, seen, listing, all);
    }
  }

  lemma SlotsFull(key: string, n: nat, names: seq<string>, all: set<nat>)
    requires Slots(key, names, all) && forall i: nat :: i in all <==> i < n
    ensures names == ChunkNames(key, n)
  {
    hide ChunkName;
    if names == [] {
      assert n == 0 || 0 in all;
    } else {
      assert |names| - 1 in all;
      assert n - 1 in all;
    }
  }

  /** For every order of the listing the chunks come back in numeric order. */
  lemma FilterChunks(key: string, n: nat, listing: seq<string>)
    requires KeyOk(key)
    requires forall k :: 0 <= k < |listing| ==> InfoOrChunk(key, n, listing[k])
    requires forall i: nat :: i < n ==> ChunkName(key, i) in listing
    ensures Filter(listing) == Ok(ChunkNames(key, n))
  {
    hide ChunkName, Slots, FilterFrom, InfoOrChunk;
    assert Slots(key, [], {}) by { SlotsEmpty(key); }
    FilterPlaces(key, n, [], {}, listing);
    var all: set<nat> :| Slots(key, Filter(listing).value, all) && Collected(key, n, {}, listing, all);
    assert Collected(key, n, {}, listing, all);
    forall i: nat ensures i in all <==> i < n {
      assert i < n ==> ChunkName(key, i) in listing;
    }
    SlotsFull(key, n, Filter(listing).value, all);
  }

  lemma SlotsEmpty(key: string)
    ensures Slots(key, [], {})
  {
  }

  /** Once the composed object exists it is all the filter returns. */
  lemma {:induction false} FilterFinds(key: string, n: nat, names: seq<string>, listing: seq<string>)
    requires KeyOk(key) && key in listing
    requires forall k :: 0 <= k < |listing| ==> listing[k] == key || InfoOrChunk(key, n, listing[k])
    ensures FilterFrom(names, listing) == Ok([key])
    decreases listing
  {
    hide ChunkName, Pieces, Place, Atoi, Itoa, HasInfoSuffix;
    var name, rest := listing[0], listing[1..];
    if name == key {
      KeyPieces(key);
    } else {
      assert key in rest;
      assert forall k :: 0 <= k < |rest| ==> rest[k] == listing[k + 1];
      assert InfoOrChunk(key, n, listing[0]);
      if HasInfoSuffix(name) {
        FilterFinds(key, n, names, rest);
      } else {
        var i: nat :| i < n && name == ChunkName(key, i);
        ChunkPieces(key, i);
        AtoiItoa(i);
        FilterFinds(key, n, Place(names, i, name), rest);
      }
    }
  }

  /** Temporary objects are returned as they are listed. */
  lemma {:induction false} FilterTmps(names: seq<string>, listing: seq<string>)
    requires forall k :: 0 <= k < |listing| ==> |Pieces(listing[k])| == 4 && !HasInfoSuffix(listing[k])
    ensures FilterFrom(names, listing) == Ok(names + listing)
    decreases listing
  {
    hide Pieces, HasInfoSuffix;
    if listing != [] {
      FilterTmps(names + [listing[0]], listing[1..]);
      assert names + [listing[0]] + listing[1..] == names + listing;
    } else {
      assert names + listing == names;
    }
  }
}
