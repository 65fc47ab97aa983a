/** The Upload-Metadata header: parsing, serializing, and exactly which metadata survives both. */
module Metadata {
  import opened Streams
  import opened Strings
  import Base64

  // ---------------------------------------------------------------- parsing

  /** One element: its key and value, or None if it is ignored. */
  function ParseElement(element: string): Option<(string, bytes)> {
    var parts := Split(TrimSpace(element), ' ');
    if |parts| > 2 || parts[0] == "" then None
    else if |parts| == 1 then Some((parts[0], []))
    else
      match Base64.Decode(parts[1])
      case None => None
      case Some(value) => Some((parts[0], value))
  }

  function ParseElements(elements: seq<string>): map<string, bytes> {
    if elements == [] then map[]
    else
      var meta := ParseElements(elements[..|elements| - 1]);
      match ParseElement(elements[|elements| - 1])
      case None => meta
      case Some((key, value)) => meta[key := value]
  }

  function Parse(header: string): map<string, bytes> {
    ParseElements(Split(header, ','))
  }

  /** ParseMetadataHeader: later elements override earlier ones, malformed ones are skipped. */
  method ParseMetadataHeader(header: string) returns (meta: map<string, bytes>)
    ensures meta == Parse(header)
  {
    hide Split, TrimSpace, Base64.Decode;
    meta := map[];
    var elements := Split(header, ',');
    for i := 0 to |elements|
      invariant meta == ParseElements(elements[..i])
    {
      assert elements[..i + 1][..i] == elements[..i];
      var parts := Split(TrimSpace(elements[i]), ' ');
      if |parts| > 2 {
        continue;
      }
      var key := parts[0];
      if key == "" {
        continue;
      }
      var value := [];
      if |parts| == 2 {
        var dec := Base64.Decode(parts[1]);
        if dec.None? {
          continue;
        }
        value := dec.value;
      }
      meta := meta[key := value];
    }
    assert elements[..|elements|] == elements;
  }

  // ------------------------------------------------------------ serializing

  function Element(key: string, value: bytes): string {
    key + " " + Base64.Encode(value)
  }

  function Elements(meta: map<string, bytes>, order: seq<string>): (r: seq<string>)
    requires forall k :: k in order ==> k in meta
    ensures |r| == |order|
  {
    seq(|order|, i requires 0 <= i < |order| => Element(order[i], meta[order[i]]))
  }

  /** The map is walked in any order, each key once. */
  ghost predicate IsOrder(meta: map<string, bytes>, order: seq<string>) {
    && (forall k :: k in order <==> k in meta)
    && (forall i, j :: 0 <= i < j < |order| ==> order[i] != order[j])
  }

  lemma {:induction false} JoinSnoc(elements: seq<string>, c: char, last: string)
    requires elements != []
    ensures Join(elements + [last], c) == Join(elements, c) + [c] + last
  {
    if |elements| == 1 {
      assert (elements + [last])[1..] == [last];
    } else {
      JoinSnoc(elements[1..], c, last);
      assert (elements + [last])[1..] == elements[1..] + [last];
    }
  }

  lemma JoinEmpty(all: seq<string>)
    ensures all == [] ==> Join(all, ',') == ""
  {
  }

  lemma JoinNext(all: seq<string>, i: nat)
    requires i < |all|
    ensures (if i == 0 then "" else Join(all[..i], ',') + ",") + (all[i] + ",") == Join(all[..i + 1], ',') + ","
  {
    assert all[..i + 1] == all[..i] + [all[i]];
    if i > 0 {
      JoinSnoc(all[..i], ',', all[i]);
    }
  }

  /** SerializeMetadataHeader: every element with a comma behind it, and the last comma removed. */
  method SerializeMetadataHeader(meta: map<string, bytes>, order: seq<string>) returns (header: string)
    requires IsOrder(meta, order)
    ensures header == Join(Elements(meta, order), ',')
  {
    hide Join, Base64.Encode;
    header := "";
    ghost var all := Elements(meta, order);
    for i := 0 to |order|
      invariant header == (if i == 0 then "" else Join(all[..i], ',') + ",")
    {
      header := header + (order[i] + " " + Base64.Encode(meta[order[i]]) + ",");
      JoinNext(all, i);
    }
    assert all[..|order|] == all;
    if |header| > 0 {
      header := header[..|header| - 1];
    } else {
      JoinEmpty(all);
    }
  }

  // -------------------------------------------------------------- round trip

  /** What a key must look like to come back: no comma, no blank, no white space in front, and
      none at its end either unless a value follows. */
  predicate Survives(key: string, value: bytes) {
    && key != "" && ',' !in key && ' ' !in key && !IsSpace(key[0])
    && (!IsSpace(key[|key| - 1]) || value != [])
  }

  lemma PlainFacts(c: char)
    requires Base64.Plain(c)
    ensures c != ',' && c != ' ' && !IsSpace(c)
  {
  }

  lemma EncodedText(value: bytes)
    ensures var e := Base64.Encode(value);
            ',' !in e && ' ' !in e && (e == "" <==> value == []) && (e != "" ==> !IsSpace(e[|e| - 1]))
  {
    hide Base64.Encode, IsSpace, Base64.Plain;
    Base64.EncodePlain(value);
    var e := Base64.Encode(value);
    forall i | 0 <= i < |e| ensures e[i] != ',' && e[i] != ' ' && !IsSpace(e[i]) {
      PlainFacts(e[i]);
    }
  }

  lemma TrimNothing(s: string)
    requires s != "" && !IsSpace(s[0]) && !IsSpace(s[|s| - 1])
    ensures TrimSpace(s) == s
  {
  }

  lemma TrimOneBlank(s: string)
    requires s != "" && !IsSpace(s[0]) && !IsSpace(s[|s| - 1])
    ensures TrimSpace(s + " ") == s
  {
    var t := s + " ";
    assert TrimLeft(t) == t;
    assert t[|t| - 1] == ' ' && t[..|t| - 1] == s;
    assert TrimRight(t) == TrimRight(s) == s;
  }

  /** A surviving key and its value are read back from their own element. */
  lemma ElementRoundTrip(key: string, value: bytes)
    requires Survives(key, value)
    ensures ParseElement(Element(key, value)) == Some((key, value))
    ensures ',' !in Element(key, value)
  {
    hide Base64.Encode, Base64.Decode, IsSpace, Split;
    EncodedText(value);
    var e := Base64.Encode(value);
    var s := Element(key, value);
    assert s[0] == key[0];
    if value == [] {
      assert s == key + " ";
      TrimOneBlank(key);
      SplitNone(key, ' ');
    } else {
      assert s[|s| - 1] == e[|e| - 1];
      TrimNothing(s);
      assert s == key + [' '] + e;
      SplitStep(key, ' ', e);
      SplitNone(e, ' ');
      Base64.RoundTrip(value);
    }
  }

  lemma BlankIsSpace()
    ensures IsSpace(' ')
  {
  }

  lemma TrimmedEnds(s: string)
    ensures TrimSpace(s) == "" || (!IsSpace(TrimSpace(s)[0]) && !IsSpace(TrimSpace(s)[|TrimSpace(s)| - 1]))
    ensures forall c :: c in TrimSpace(s) ==> c in s
  {
  }

  /** Whatever an element is parsed to would survive being serialized. */
  lemma ParsedSurvives(element: string)
    requires ',' !in element
    ensures ParseElement(element).Some? ==> Survives(ParseElement(element).value.0, ParseElement(element).value.1)
  {
    hide TrimSpace, Base64.Decode, IsSpace;
    var t := TrimSpace(element);
    TrimmedEnds(element);
    var parts := Split(t, ' ');
    var i := Find(t, ' ');
    if |parts| == 2 {
      var rest := t[i + 1..];
      assert parts[1..] == Split(rest, ' ');
      assert |Split(rest, ' ')| == 1 && Split(rest, ' ')[0] == rest;
      BlankIsSpace();
      assert t[|t| - 1] != ' ';
      assert rest != "" && rest[|rest| - 1] == t[|t| - 1];
      BreakIsSpace(rest[|rest| - 1]);
      Base64.DecodeNonEmpty(rest);
    }
  }

  lemma BreakIsSpace(c: char)
    ensures Base64.LineBreak(c) ==> IsSpace(c)
  {
  }

  lemma {:induction false} AllParsedSurvive(elements: seq<string>)
    requires forall i :: 0 <= i < |elements| ==> ',' !in elements[i]
    ensures forall k :: k in ParseElements(elements) ==> Survives(k, ParseElements(elements)[k])
  {
    hide Survives, ParseElement;
    if elements != [] {
      AllParsedSurvive(elements[..|elements| - 1]);
      ParsedSurvives(elements[|elements| - 1]);
    }
  }

  lemma {:induction false} AllElementsParse(meta: map<string, bytes>, order: seq<string>)
    requires forall k :: k in order ==> k in meta && Survives(k, meta[k])
    ensures var back := ParseElements(Elements(meta, order));
            && (forall k :: k in back <==> k in order)
            && (forall k :: k in order ==> back[k] == meta[k])
  {
    hide Survives, ParseElement, Element;
    if order != [] {
      var n := |order| - 1;
      assert forall k :: k in order[..n] ==> k in order;
      AllElementsParse(meta, order[..n]);
      assert Elements(meta, order)[..n] == Elements(meta, order[..n]);
      ElementRoundTrip(order[n], meta[order[n]]);
      assert order == order[..n] + [order[n]];
    }
  }

  predicate Gives(element: string, key: string) {
    ParseElement(element).Some? && ParseElement(element).value.0 == key
  }

  /** A key has the value of the last element that gives it one, and no other key is there. */
  lemma {:induction false} LastOneWins(elements: seq<string>, key: string)
    ensures key in ParseElements(elements) <==> exists i :: 0 <= i < |elements| && Gives(elements[i], key)
    ensures forall i :: 0 <= i < |elements| && Gives(elements[i], key) && (forall j :: i < j < |elements| ==> !Gives(elements[j], key)) ==>
                          ParseElements(elements)[key] == ParseElement(elements[i]).value.1
  {
    hide ParseElement;
    if elements != [] {
      var n := |elements| - 1;
      LastOneWins(elements[..n], key);
      if Gives(elements[n], key) {
        assert key in ParseElements(elements);
      } else {
        assert forall i :: 0 <= i < n ==> elements[..n][i] == elements[i];
        assert key in ParseElements(elements) <==> key in ParseElements(elements[..n]);
      }
    }
  }

  /**
   * Metadata comes back from the serialized header, for every order the map is walked in, if
   * and only if every key survives: this covers all keys without commas and white space, with
   * empty values too, and shuts out every other key that would be lost or altered.
   */
  lemma RoundTripExactly(meta: map<string, bytes>, order: seq<string>)
    requires IsOrder(meta, order)
    ensures Parse(Join(Elements(meta, order), ',')) == meta <==> forall k :: k in meta ==> Survives(k, meta[k])
  {
    hide Survives, ParseElement, Split, Join;
    var elements := Elements(meta, order);
    var header := Join(elements, ',');
    AllParsedSurvive(Split(header, ','));
    if forall k :: k in meta ==> Survives(k, meta[k]) {
      AllElementsParse(meta, order);
      if order == [] {
        EmptyHeader(elements);
      } else {
        forall i | 0 <= i < |elements| ensures ',' !in elements[i] {
          assert order[i] in order;
          ElementRoundTrip(order[i], meta[order[i]]);
        }
        SplitJoin(elements, ',');
      }
    }
  }

  lemma EmptyHeader(elements: seq<string>)
    requires elements == []
    ensures Parse(Join(elements, ',')) == map[]
  {
    hide Split, ParseElement;
    assert Join(elements, ',') == "";
    SplitNone("", ',');
    EmptyElement();
    assert ParseElements([""][..0]) == map[];
  }

  lemma EmptyElement()
    ensures ParseElement("").None?
  {
    hide Split;
    SplitNone("", ' ');
  }
}
