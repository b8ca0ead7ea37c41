/** Storing a map as a dictionary and fetching it back: elements, wire pairs, and the two views of a fetch hit. */
module Dictionary {
  import opened Options
  import opened Values

  /** A Go string is a sequence of bytes; turning it into a byte slice and back changes nothing. */
  type Bytestring = seq<byte>

  datatype Element = Element(field: Option<Value>, value: Option<Value>)

  datatype Pair = Pair(field: Bytestring, value: Bytestring)

  /** How the server lists a dictionary. */
  type Server = map<Bytestring, Bytestring> -> seq<Pair>

  /** `pairs` lists every entry of `m` once, in some order. */
  ghost predicate Lists(pairs: seq<Pair>, m: map<Bytestring, Bytestring>) {
    && (forall i | 0 <= i < |pairs| :: pairs[i].field in m && m[pairs[i].field] == pairs[i].value)
    && (forall i, j | 0 <= i < j < |pairs| :: pairs[i].field != pairs[j].field)
    && (forall f | f in m :: Pair(f, m[f]) in pairs)
  }

  /** The wire form of elements built from a map. */
  function Wire(elements: seq<Element>): seq<Pair>
    requires forall i | 0 <= i < |elements| :: elements[i].field.Some? && elements[i].value.Some?
  {
    seq(|elements|, i requires 0 <= i < |elements| =>
      Pair(AsBytes(elements[i].field.value), AsBytes(elements[i].value.value)))
  }

  /** DictionaryElementsFromMapStringString and -Bytes: one element per entry, in the arbitrary order of a Go map. */
  method ElementsFromMap(m: map<Bytestring, Bytestring>, asText: bool) returns (elements: seq<Element>)
    ensures forall i | 0 <= i < |elements| ::
      elements[i].field.Some? && elements[i].value.Some? && elements[i].value.value.String? == asText
    ensures forall i | 0 <= i < |elements| ::
      && elements[i].field.value.String? && elements[i].field.value.text in m
      && m[elements[i].field.value.text] ==
           match elements[i].value.value { case String(text) => text case Bytes(data) => data }
    ensures Lists(Wire(elements), m)
  {
    elements := [];
    var rest := m.Keys;
    while rest != {}
      invariant rest <= m.Keys
      invariant forall i | 0 <= i < |elements| ::
        elements[i].field.Some? && elements[i].value.Some? && elements[i].value.value.String? == asText
      invariant forall i | 0 <= i < |elements| ::
        var f := AsBytes(elements[i].field.value);
        elements[i].field.value.String? && f in m && f !in rest && m[f] == AsBytes(elements[i].value.value)
      invariant forall i, j | 0 <= i < j < |elements| ::
        AsBytes(elements[i].field.value) != AsBytes(elements[j].field.value)
      invariant forall f | f in m && f !in rest :: Pair(f, m[f]) in Wire(elements)
      decreases rest
    {
      var k :| k in rest;
      ghost var before := elements;
      elements := elements + [Element(Some(String(k)), Some(if asText then String(m[k]) else Bytes(m[k])))];
      assert Wire(elements) == Wire(before) + [Pair(k, m[k])];
      rest := rest - {k};
    }
  }

  /** A nil value, or a nil or empty field, is rejected before anything is sent. */
  predicate Valid(e: Element) {
    e.value.Some? && e.field.Some? && AsBytes(e.field.value) != []
  }

  /** The request of DictionarySetFields: one pair per element in the same order, or an error. */
  method InitGrpcRequest(elements: seq<Element>) returns (pairs: Option<seq<Pair>>)
    ensures pairs.Some? <==> forall i | 0 <= i < |elements| ::
      elements[i].value.Some? && elements[i].field.Some? && AsBytes(elements[i].field.value) != []
    ensures pairs.Some? ==> pairs.value == Wire(elements) && |pairs.value| == |elements|
    ensures pairs.Some? ==> forall i | 0 <= i < |elements| ::
      && pairs.value[i].field == AsBytes(elements[i].field.value)
      && pairs.value[i].value == AsBytes(elements[i].value.value)
  {
    for i := 0 to |elements|
      invariant forall j | 0 <= j < i :: Valid(elements[j])
    {
      if !Valid(elements[i]) {
        return None;
      }
    }
    var list: seq<Pair> := [];
    for i := 0 to |elements|
      invariant list == Wire(elements)[..i]
    {
      list := list + [Pair(AsBytes(elements[i].field.value), AsBytes(elements[i].value.value))];
    }
    return Some(list);
  }

  /** The dictionary after its pairs have been set one after the other. */
  function Stored(pairs: seq<Pair>, d: map<Bytestring, Bytestring>): map<Bytestring, Bytestring> {
    if pairs == [] then d
    else
      var last := pairs[|pairs| - 1];
      Stored(pairs[..|pairs| - 1], d)[last.field := last.value]
  }

  /** A pair that no later pair of the same field follows is what the dictionary holds. */
  lemma {:induction false} LastPairWins(pairs: seq<Pair>, d: map<Bytestring, Bytestring>, i: nat)
    requires i < |pairs| && forall j | i < j < |pairs| :: pairs[j].field != pairs[i].field
    ensures pairs[i].field in Stored(pairs, d) && Stored(pairs, d)[pairs[i].field] == pairs[i].value
  {
    if i < |pairs| - 1 {
      LastPairWins(pairs[..|pairs| - 1], d, i);
    }
  }

  /** interpretGrpcResponse on a found dictionary: the map of a fetch hit. */
  method InterpretFound(items: seq<Pair>) returns (elements: map<Bytestring, Bytestring>)
    ensures elements == Stored(items, map[])
    ensures forall i | 0 <= i < |items| && (forall j | i < j < |items| :: items[j].field != items[i].field) ::
      items[i].field in elements && elements[items[i].field] == items[i].value
    ensures forall f | f in elements :: exists i | 0 <= i < |items| :: items[i].field == f
  {
    elements := map[];
    for i := 0 to |items|
      invariant elements == Stored(items[..i], map[])
      invariant forall f | f in elements :: exists j | 0 <= j < i :: items[j].field == f
    {
      assert items[..i + 1][..i] == items[..i];
      elements := elements[items[i].field := items[i].value];
    }
    assert items[..|items|] == items;
    forall i: nat | i < |items| && (forall j | i < j < |items| :: items[j].field != items[i].field)
      ensures items[i].field in elements && elements[items[i].field] == items[i].value
    {
      LastPairWins(items, map[], i);
    }
  }

  /** ValueMapStringString: copies the byte map, turning each value into a string. */
  method ValueMapStringString(elements: map<Bytestring, Bytestring>) returns (view: map<Bytestring, Bytestring>)
    ensures view == elements
  {
    view := map[];
    var rest := elements.Keys;
    while rest != {}
      invariant rest <= elements.Keys && view.Keys == elements.Keys - rest
      invariant forall k | k in view :: view[k] == elements[k]
      decreases rest
    {
      var k :| k in rest;
      view := view[k := elements[k]];
      rest := rest - {k};
    }
  }

  /** Pairs with distinct fields store exactly what they list, in whatever order they come. */
  lemma {:induction false} StoredListing(pairs: seq<Pair>, d: map<Bytestring, Bytestring>, k: nat)
    requires k <= |pairs|
    requires forall i, j | 0 <= i < j < |pairs| :: pairs[i].field != pairs[j].field
    ensures forall i | 0 <= i < k ::
      pairs[i].field in Stored(pairs[..k], d) && Stored(pairs[..k], d)[pairs[i].field] == pairs[i].value
    ensures forall f | f in Stored(pairs[..k], d) ::
      || (exists i | 0 <= i < k :: pairs[i].field == f)
      || (f in d && Stored(pairs[..k], d)[f] == d[f])
    ensures d.Keys <= Stored(pairs[..k], d).Keys
  {
    if k > 0 {
      StoredListing(pairs, d, k - 1);
      assert pairs[..k][..k - 1] == pairs[..k - 1];
    }
  }

  lemma StoredEntry(pairs: seq<Pair>, m: map<Bytestring, Bytestring>, d: map<Bytestring, Bytestring>, f: Bytestring)
    requires Lists(pairs, m)
    ensures f in Stored(pairs, d) <==> f in d || f in m
    ensures f in Stored(pairs, d) ==> Stored(pairs, d)[f] == if f in m then m[f] else d[f]
  {
    StoredListing(pairs, d, |pairs|);
    assert pairs[..|pairs|] == pairs;
    if f in m {
      var i :| 0 <= i < |pairs| && pairs[i] == Pair(f, m[f]);
      assert pairs[i].field == f;
    }
  }

  lemma StoredIsUnion(pairs: seq<Pair>, m: map<Bytestring, Bytestring>, d: map<Bytestring, Bytestring>)
    requires Lists(pairs, m)
    ensures Stored(pairs, d) == d + m
  {
    forall f
      ensures f in Stored(pairs, d) <==> f in d + m
      ensures f in d + m ==> Stored(pairs, d)[f] == (d + m)[f]
    {
      StoredEntry(pairs, m, d, f);
    }
  }

  /**
   Round trip. Whatever order the elements of `m` were produced in, and in whatever order the server returns the entries of
   the dictionary, a fetch gives the dictionary as it was with `m` written over it; from an empty dictionary, `m` itself.
   */
  lemma RoundTrip(m: map<Bytestring, Bytestring>, sent: seq<Pair>, d: map<Bytestring, Bytestring>, fetched: seq<Pair>)
    requires Lists(sent, m) && Lists(fetched, Stored(sent, d))
    ensures Stored(fetched, map[]) == d + m
    ensures d == map[] ==> Stored(fetched, map[]) == m
  {
    StoredIsUnion(sent, m, d);
    StoredIsUnion(fetched, Stored(sent, d), map[]);
  }

  /** The whole trip through the code: set the fields of a map, fetch the dictionary, and read either view of the hit. */
  method SetAndFetch(m: map<Bytestring, Bytestring>, asText: bool, d: map<Bytestring, Bytestring>, server: Server)
    returns (bytes: Option<map<Bytestring, Bytestring>>, strings: Option<map<Bytestring, Bytestring>>)
    requires forall any {:trigger server(any)} :: Lists(server(any), any)
    ensures bytes.Some? <==> [] !in m
    ensures bytes.Some? ==> bytes == strings == Some(d + m)
  {
    var elements := ElementsFromMap(m, asText);
    var request := InitGrpcRequest(elements);
    ghost var pairs := Wire(elements);
    if request.None? {
      ghost var i :| 0 <= i < |elements| && AsBytes(elements[i].field.value) == [];
      assert pairs[i].field == [];
      return None, None;
    }
    var dictionary := Stored(request.value, d);
    var fetched := server(dictionary);
    RoundTrip(m, request.value, d, fetched);
    var elementMap := InterpretFound(fetched);
    var view := ValueMapStringString(elementMap);
    return Some(elementMap), Some(view);
  }
}
