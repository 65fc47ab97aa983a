/** A storage bucket and the recursive composition that joins more objects than one request may. */
module GcsBucket {
  import opened Streams
  import opened Strings
  import opened GcsNames

  const MAX_OBJECT_COMPOSITION := 32

  /** All objects of a name prefix, in whatever order the service lists them. */
  ghost predicate IsListing(objects: map<string, bytes>, prefix: string, listing: seq<string>) {
    && (forall n :: n in listing <==> n in objects && prefix <= n)
    && (forall i, j :: 0 <= i < j < |listing| ==> listing[i] != listing[j])
  }

  function Contents(objects: map<string, bytes>, names: seq<string>): (r: seq<bytes>)
    requires forall i :: 0 <= i < |names| ==> names[i] in objects
    ensures |r| == |names|
  {
    seq(|names|, i requires 0 <= i < |names| => objects[names[i]])
  }

  function WithoutPrefix(objects: map<string, bytes>, prefix: string): map<string, bytes> {
    map n | n in objects && !(prefix <= n) :: objects[n]
  }

  // --------------------------------------------------------------- groups of 32

  function Groups(n: nat): nat {
    CeilDiv(n, MAX_OBJECT_COMPOSITION)
  }

  function GroupEnd(n: nat, j: nat): nat {
    if Groups(n) - j == 1 then n else MAX_OBJECT_COMPOSITION * (j + 1)
  }

  lemma GroupBounds(n: nat, j: nat)
    requires j < Groups(n)
    ensures MAX_OBJECT_COMPOSITION * j < GroupEnd(n, j) <= n
    ensures GroupEnd(n, j) - MAX_OBJECT_COMPOSITION * j <= MAX_OBJECT_COMPOSITION
    ensures j + 1 < Groups(n) ==> GroupEnd(n, j) == MAX_OBJECT_COMPOSITION * (j + 1)
    ensures n > MAX_OBJECT_COMPOSITION ==> Groups(n) < n
  {
  }

  function Group<T>(s: seq<T>, j: nat): seq<T>
    requires j < Groups(|s|)
  {
    GroupBounds(|s|, j);
    s[MAX_OBJECT_COMPOSITION * j..GroupEnd(|s|, j)]
  }

  function Joined(c: seq<bytes>, m: nat): seq<bytes>
    requires m <= Groups(|c|)
  {
    seq(m, j requires 0 <= j < m => Flatten(Group(c, j)))
  }

  lemma {:induction false} JoinedFlat(c: seq<bytes>, m: nat)
    requires 0 < m <= Groups(|c|)
    ensures GroupEnd(|c|, m - 1) <= |c|
    ensures Flatten(Joined(c, m)) == Flatten(c[..GroupEnd(|c|, m - 1)])
  {
    hide Groups, GroupEnd;
    GroupBounds(|c|, m - 1);
    var last := Flatten(Group(c, m - 1));
    assert Joined(c, m) == Joined(c, m - 1) + [last];
    FlattenSnoc(Joined(c, m - 1), last);
    if m > 1 {
      JoinedFlat(c, m - 1);
      GroupBounds(|c|, m - 2);
      var k := MAX_OBJECT_COMPOSITION * (m - 1);
      assert c[..GroupEnd(|c|, m - 1)] == c[..k] + c[k..GroupEnd(|c|, m - 1)];
      FlattenConcat(c[..k], Group(c, m - 1));
    } else {
      assert Joined(c, 0) == [];
      assert Group(c, 0) == c[..GroupEnd(|c|, 0)];
    }
  }

  /** Joining the groups first changes nothing: the joined groups together are the whole list. */
  lemma GroupsFlatten(c: seq<bytes>)
    requires c != []
    ensures Groups(|c|) > 0 && Flatten(Joined(c, Groups(|c|))) == Flatten(c)
  {
    JoinedFlat(c, Groups(|c|));
    assert c[..|c|] == c;
  }

  // -------------------------------------------------------- the temporary objects

  /** Whatever carries the temporary prefix reads as a temporary object. */
  ghost predicate TmpsOnly(objects: map<string, bytes>, dst: string) {
    forall n :: n in objects && TmpPrefix(dst) <= n ==> |Pieces(n)| == 4 && !HasInfoSuffix(n)
  }

  /** A source for composition at a level: no temporary of this level or a later one. */
  ghost predicate Below(dst: string, level: nat, n: string) {
    forall l: nat, i: nat :: l >= level ==> n != TmpName(dst, l, i)
  }

  /** The bucket after the first `m` groups have been composed. */
  function AddTmps(objects: map<string, bytes>, c: seq<bytes>, dst: string, level: nat, m: nat): map<string, bytes>
    requires m <= Groups(|c|)
  {
    if m == 0 then objects
    else AddTmps(objects, c, dst, level, m - 1)[TmpName(dst, level, m - 1) := Flatten(Group(c, m - 1))]
  }

  lemma {:induction false} AddTmpsFrame(objects: map<string, bytes>, c: seq<bytes>, dst: string, level: nat, m: nat, n: string)
    requires m <= Groups(|c|) && Below(dst, level, n)
    ensures n in AddTmps(objects, c, dst, level, m) <==> n in objects
    ensures n in objects ==> AddTmps(objects, c, dst, level, m)[n] == objects[n]
  {
    hide TmpName, Group;
    if m > 0 {
      AddTmpsFrame(objects, c, dst, level, m - 1, n);
      assert n != TmpName(dst, level, m - 1);
    }
  }

  lemma {:induction false} AddTmpsAt(objects: map<string, bytes>, c: seq<bytes>, dst: string, level: nat, m: nat, j: nat)
    requires KeyOk(dst) && j < m <= Groups(|c|)
    ensures TmpName(dst, level, j) in AddTmps(objects, c, dst, level, m)
    ensures AddTmps(objects, c, dst, level, m)[TmpName(dst, level, j)] == Flatten(Group(c, j))
  {
    hide TmpName, Group, KeyOk;
    if j < m - 1 {
      AddTmpsAt(objects, c, dst, level, m - 1, j);
      NamesDiffer(dst);
      assert TmpName(dst, level, j) != TmpName(dst, level, m - 1);
    }
  }

  lemma {:induction false} AddTmpsPrefix(objects: map<string, bytes>, c: seq<bytes>, dst: string, level: nat, m: nat)
    requires KeyOk(dst) && m <= Groups(|c|)
    ensures WithoutPrefix(AddTmps(objects, c, dst, level, m), TmpPrefix(dst)) == WithoutPrefix(objects, TmpPrefix(dst))
    ensures TmpsOnly(objects, dst) ==> TmpsOnly(AddTmps(objects, c, dst, level, m), dst)
  {
    hide TmpName, Group, KeyOk, TmpPrefix, Pieces, HasInfoSuffix;
    if m > 0 {
      AddTmpsPrefix(objects, c, dst, level, m - 1);
      TmpPieces(dst, level, m - 1);
    }
  }

  // --------------------------------------------------------------------- the bucket

  class Bucket {
    var objects: map<string, bytes>

    constructor (objects: map<string, bytes>)
      ensures this.objects == objects
    {
      this.objects := objects;
    }

    method List(prefix: string) returns (listing: seq<string>)
      ensures IsListing(objects, prefix, listing)
    {
      listing := [];
      var todo := set n | n in objects && prefix <= n;
      while todo != {}
        invariant forall n :: n in todo ==> n in objects && prefix <= n && n !in listing
        invariant forall n :: n in objects && prefix <= n ==> n in todo || n in listing
        invariant forall n :: n in listing ==> n in objects && prefix <= n
        invariant forall i, j :: 0 <= i < j < |listing| ==> listing[i] != listing[j]
        decreases |todo|
      {
        var n :| n in todo;
        todo := todo - {n};
        listing := listing + [n];
      }
    }

    /** One compose request: between 1 and 32 existing sources. */
    method Compose(srcs: seq<string>, dst: string) returns (res: Result<(), GcsError>)
      requires |srcs| <= 32 && forall i :: 0 <= i < |srcs| ==> srcs[i] in objects
      modifies this
      ensures res == if srcs != [] then Ok(()) else Err(EmptySources)
      ensures objects == if res.Ok? then old(objects)[dst := Flatten(Contents(old(objects), srcs))] else old(objects)
    {
      if |srcs| < 1 {
        return Err(EmptySources);
      }
      objects := objects[dst := Flatten(Contents(objects, srcs))];
      return Ok(());
    }

    /** DeleteObjectsWithFilter, where the filter returns names of existing objects. */
    method DeleteNames(names: seq<string>)
      modifies this
      ensures objects == map n | n in old(objects) && n !in names :: old(objects)[n]
    {
      for i := 0 to |names|
        invariant objects == map n | n in old(objects) && n !in names[..i] :: old(objects)[n]
      {
        assert names[..i + 1] == names[..i] + [names[i]];
        objects := objects - {names[i]};
      }
      assert names[..|names|] == names;
    }

    method DeleteTmps(dst: string)
      requires TmpsOnly(objects, dst)
      modifies this
      ensures objects == WithoutPrefix(old(objects), TmpPrefix(dst))
    {
      var listing := List(TmpPrefix(dst));
      assert forall k :: 0 <= k < |listing| ==> listing[k] in listing;
      FilterTmps([], listing);
      assert [] + listing == listing;
      var names := FilterObjects(listing);
      DeleteNames(names.value);
    }

    /**
     * recursiveCompose: the destination becomes the in-order concatenation of all sources,
     * every other object is unchanged, and no temporary object is left, for any number of
     * sources. It ends because a list longer than 32 has fewer groups than elements.
     */
    method RecursiveCompose(srcs: seq<string>, dst: string, level: nat) returns (res: Result<(), GcsError>)
      requires KeyOk(dst) && TmpsOnly(objects, dst)
      requires forall i :: 0 <= i < |srcs| ==> srcs[i] in objects && Below(dst, level, srcs[i])
      modifies this
      ensures res == if srcs != [] then Ok(()) else Err(EmptySources)
      ensures objects == if res.Ok? then WithoutPrefix(old(objects), TmpPrefix(dst))[dst := Flatten(Contents(old(objects), srcs))]
                         else old(objects)
      decreases |srcs|
    {
      if |srcs| <= MAX_OBJECT_COMPOSITION {
        res := Compose(srcs, dst);
        if res.Ok? {
          DstNotTmp(dst);
          DeleteTmps(dst);
        }
        return;
      }
      ghost var before, c := objects, Contents(objects, srcs);
      GroupBounds(|srcs|, 0);
      var tmpSrcs := ComposeGroups(srcs, dst, level);
      TmpsAreBelow(dst, level);
      AddTmpsPrefix(before, c, dst, level, Groups(|c|));
      forall j | 0 <= j < |tmpSrcs| ensures tmpSrcs[j] in objects && objects[tmpSrcs[j]] == Flatten(Group(c, j)) {
        AddTmpsAt(before, c, dst, level, Groups(|c|), j);
      }
      assert Contents(objects, tmpSrcs) == Joined(c, Groups(|c|));
      GroupsFlatten(c);
      res := RecursiveCompose(tmpSrcs, dst, level + 1);
    }

    method ComposeGroups(srcs: seq<string>, dst: string, level: nat) returns (tmpSrcs: seq<string>)
      requires KeyOk(dst) && |srcs| > MAX_OBJECT_COMPOSITION
      requires forall i :: 0 <= i < |srcs| ==> srcs[i] in objects && Below(dst, level, srcs[i])
      modifies this
      ensures |tmpSrcs| == Groups(|srcs|)
      ensures forall j :: 0 <= j < |tmpSrcs| ==> tmpSrcs[j] == TmpName(dst, level, j)
      ensures objects == AddTmps(old(objects), Contents(old(objects), srcs), dst, level, Groups(|srcs|))
    {
      hide TmpName, Groups, GroupEnd, KeyOk, Below, AddTmps, Flatten;
      tmpSrcs := [];
      ghost var before, c := objects, Contents(objects, srcs);
      AddTmpsStart(before, c, dst, level);
      for i := 0 to Groups(|srcs|)
        invariant |tmpSrcs| == i && objects == AddTmps(before, c, dst, level, i)
        invariant forall j :: 0 <= j < i ==> tmpSrcs[j] == TmpName(dst, level, j)
      {
        GroupBounds(|srcs|, i);
        var start, end := MAX_OBJECT_COMPOSITION * i, GroupEnd(|srcs|, i);
        SourcesKept(before, srcs, dst, level, i);
        var tmpDst := TmpName(dst, level, i);
        var _ := Compose(srcs[start..end], tmpDst);
        AddTmpsNext(before, c, dst, level, i);
        tmpSrcs := tmpSrcs + [tmpDst];
      }
    }
  }

  lemma AddTmpsStart(objects: map<string, bytes>, c: seq<bytes>, dst: string, level: nat)
    ensures AddTmps(objects, c, dst, level, 0) == objects
  {
  }

  lemma AddTmpsNext(objects: map<string, bytes>, c: seq<bytes>, dst: string, level: nat, i: nat)
    requires i < Groups(|c|)
    ensures AddTmps(objects, c, dst, level, i + 1) ==
            AddTmps(objects, c, dst, level, i)[TmpName(dst, level, i) := Flatten(Group(c, i))]
  {
  }

  /** The sources of the i-th group still have their contents after the groups before it. */
  lemma SourcesKept(objects: map<string, bytes>, srcs: seq<string>, dst: string, level: nat, i: nat)
    requires forall k :: 0 <= k < |srcs| ==> srcs[k] in objects && Below(dst, level, srcs[k])
    requires i < Groups(|srcs|)
    ensures var c := Contents(objects, srcs);
            var now := AddTmps(objects, c, dst, level, i);
            && (forall k :: 0 <= k < |Group(srcs, i)| ==> Group(srcs, i)[k] in now)
            && Contents(now, Group(srcs, i)) == Group(c, i)
  {
    hide TmpName, Below, AddTmps, Groups, GroupEnd;
    GroupBounds(|srcs|, i);
    var c := Contents(objects, srcs);
    var group := Group(srcs, i);
    forall k | 0 <= k < |group|
      ensures group[k] in AddTmps(objects, c, dst, level, i) && AddTmps(objects, c, dst, level, i)[group[k]] == objects[group[k]]
    {
      assert group[k] == srcs[MAX_OBJECT_COMPOSITION * i + k];
      AddTmpsFrame(objects, c, dst, level, i, group[k]);
    }
  }

  lemma DstNotTmp(dst: string)
    ensures !(TmpPrefix(dst) <= dst)
  {
  }

  lemma TmpsAreBelow(dst: string, level: nat)
    requires KeyOk(dst)
    ensures forall j: nat :: Below(dst, level + 1, TmpName(dst, level, j))
  {
    hide TmpName, KeyOk;
    NamesDiffer(dst);
  }
}
