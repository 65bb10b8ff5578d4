/** The `params` objects the list pages hand to the HTTP client. */
module QueryParams {

  datatype Value = Text(text: string) | Number(n: int)

  datatype Param = Param(key: string, value: Value)

  /** `...(v && { key: v })`: the entry is spread into the object only when
      the text is not empty. */
  function IfNotEmpty(key: string, v: string): (r: seq<Param>)
    ensures v == "" ==> r == []
    ensures v != "" ==> r == [Param(key, Text(v))]
  {
    if v == "" then [] else [Param(key, Text(v))]
  }

  /** The keys that are sent. */
  function Keys(ps: seq<Param>): set<string> {
    set i | 0 <= i < |ps| :: ps[i].key
  }

  /** `key` is sent, and `v` is the only value sent under it. */
  predicate SendsOnly(r: seq<Param>, key: string, v: Value) {
    Param(key, v) in r && forall i :: 0 <= i < |r| && r[i].key == key ==> r[i].value == v
  }

  const FixedKeys: set<string> := {"sortBy", "orderBy", "limit", "page"}

  /** The entries `sortBy`, `orderBy`, `limit` and `page` that most pages send
      around their optional filters. */
  function Sorted(sortBy: string, orderBy: string, filters: seq<Param>, limit: int, page: int): seq<Param> {
    [Param("sortBy", Text(sortBy)), Param("orderBy", Text(orderBy))] + filters
      + [Param("limit", Number(limit)), Param("page", Number(page))]
  }

  lemma {:induction false} KeysConcat(a: seq<Param>, b: seq<Param>)
    ensures Keys(a + b) == Keys(a) + Keys(b)
  {
    var ab := a + b;
    forall k | k in Keys(ab) ensures k in Keys(a) + Keys(b) {
      var i :| 0 <= i < |ab| && ab[i].key == k;
      if i < |a| { assert ab[i] == a[i]; } else { assert ab[i] == b[i - |a|]; }
    }
    forall k | k in Keys(a) + Keys(b) ensures k in Keys(ab) {
      if k in Keys(a) {
        var i :| 0 <= i < |a| && a[i].key == k;
        assert ab[i] == a[i];
      } else {
        var i :| 0 <= i < |b| && b[i].key == k;
        assert ab[i + |a|] == b[i];
      }
    }
  }

  /** The keys of a sorted request are the four fixed ones and the filters'. */
  lemma SortedKeys(sortBy: string, orderBy: string, filters: seq<Param>, limit: int, page: int)
    ensures Keys(Sorted(sortBy, orderBy, filters, limit, page)) == {"sortBy", "orderBy", "limit", "page"} + Keys(filters)
  {
    var head := [Param("sortBy", Text(sortBy)), Param("orderBy", Text(orderBy))];
    var tail := [Param("limit", Number(limit)), Param("page", Number(page))];
    KeysConcat(head, filters);
    KeysConcat(head + filters, tail);
    assert Keys(head) == {"sortBy", "orderBy"} by {
      assert head[0].key == "sortBy" && head[1].key == "orderBy";
    }
    assert Keys(tail) == {"limit", "page"} by {
      assert tail[0].key == "limit" && tail[1].key == "page";
    }
  }

  /** When no filter reuses a fixed key, the request asks for exactly the sort,
      the order, the page size and the page it was built from. */
  lemma SortedSends(sortBy: string, orderBy: string, filters: seq<Param>, limit: int, page: int)
    requires Keys(filters) * FixedKeys == {}
    ensures SendsOnly(Sorted(sortBy, orderBy, filters, limit, page), "sortBy", Text(sortBy))
    ensures SendsOnly(Sorted(sortBy, orderBy, filters, limit, page), "orderBy", Text(orderBy))
    ensures SendsOnly(Sorted(sortBy, orderBy, filters, limit, page), "limit", Number(limit))
    ensures SendsOnly(Sorted(sortBy, orderBy, filters, limit, page), "page", Number(page))
  {
    var r := Sorted(sortBy, orderBy, filters, limit, page);
    var n := |filters|;
    assert r[0] == Param("sortBy", Text(sortBy)) && r[1] == Param("orderBy", Text(orderBy));
    assert r[n + 2] == Param("limit", Number(limit)) && r[n + 3] == Param("page", Number(page));
    forall i | 2 <= i < n + 2 ensures r[i].key !in FixedKeys {
      var k := filters[i - 2].key;
      assert r[i] == filters[i - 2];
      assert k in Keys(filters);
      assert k !in Keys(filters) * FixedKeys;
    }
  }

  /** A sorted request with an optional lower and an optional upper bound,
      each sent only when it is filled in. */
  function SortedWithBounds(sortBy: string, orderBy: string, lowKey: string, low: string,
                            highKey: string, high: string, limit: int, page: int): (r: seq<Param>)
    requires lowKey !in FixedKeys && highKey !in FixedKeys && lowKey != highKey
    ensures Keys(r) == {"sortBy", "orderBy", "limit", "page"}
      + (if low == "" then {} else {lowKey})
      + (if high == "" then {} else {highKey})
    ensures SendsOnly(r, "sortBy", Text(sortBy)) && SendsOnly(r, "orderBy", Text(orderBy))
    ensures SendsOnly(r, "limit", Number(limit)) && SendsOnly(r, "page", Number(page))
    ensures low != "" ==> SendsOnly(r, lowKey, Text(low))
    ensures high != "" ==> SendsOnly(r, highKey, Text(high))
  {
    var filters := IfNotEmpty(lowKey, low) + IfNotEmpty(highKey, high);
    SortedKeys(sortBy, orderBy, filters, limit, page);
    KeysConcat(IfNotEmpty(lowKey, low), IfNotEmpty(highKey, high));
    KeysOfOne(lowKey, low);
    KeysOfOne(highKey, high);
    SortedSends(sortBy, orderBy, filters, limit, page);
    BoundsSent(sortBy, orderBy, lowKey, low, highKey, high, limit, page);
    Sorted(sortBy, orderBy, filters, limit, page)
  }

  /** Each bound that is filled in is the only value sent under its key. */
  lemma BoundsSent(sortBy: string, orderBy: string, lowKey: string, low: string,
                   highKey: string, high: string, limit: int, page: int)
    requires lowKey !in FixedKeys && highKey !in FixedKeys && lowKey != highKey
    ensures var r := Sorted(sortBy, orderBy, IfNotEmpty(lowKey, low) + IfNotEmpty(highKey, high), limit, page);
      && (low != "" ==> SendsOnly(r, lowKey, Text(low)))
      && (high != "" ==> SendsOnly(r, highKey, Text(high)))
  {
    var a, b := IfNotEmpty(lowKey, low), IfNotEmpty(highKey, high);
    var filters := a + b;
    var r := Sorted(sortBy, orderBy, filters, limit, page);
    var n := |filters|;
    assert r[0].key == "sortBy" && r[1].key == "orderBy";
    assert r[n + 2].key == "limit" && r[n + 3].key == "page";
    forall i | 2 <= i < n + 2 ensures r[i] == filters[i - 2] {
    }
    forall i | 0 <= i < |a| ensures filters[i] == a[i] {
    }
    forall i | |a| <= i < n ensures filters[i] == b[i - |a|] {
    }
    if low != "" {
      assert r[2] == Param(lowKey, Text(low));
    }
    if high != "" {
      assert r[2 + |a|] == Param(highKey, Text(high));
    }
  }

  lemma KeysOfOne(key: string, v: string)
    ensures Keys(IfNotEmpty(key, v)) == if v == "" then {} else {key}
  {
    if v != "" {
      assert IfNotEmpty(key, v)[0].key == key;
    }
  }
}
