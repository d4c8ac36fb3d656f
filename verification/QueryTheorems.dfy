/** The laws of query canonicalization: printing and reading are inverse, the canonical form is a
    fixed point, and it identifies exactly the queries with the same decoded multimap. */
module QueryTheorems {
  import opened Wrappers
  import opened Strings
  import opened Escaping
  import opened CanonicalQuery

  /** IndexOf is determined by what it finds. */
  lemma {:induction false} IndexOfIs(s: bytes, c: byte, i: nat)
    requires i <= |s| && c !in s[..i] && (i < |s| ==> s[i] == c)
    ensures IndexOf(s, c) == i
  {
    if i > 0 {
      assert s[..i] == [s[0]] + s[1..][..i - 1];
      IndexOfIs(s[1..], c, i - 1);
    }
  }

  /** A segment without '&' followed by more query is read before the rest. */
  lemma CutSegment(seg: bytes, rest: bytes)
    requires '&' !in seg
    ensures Segment(seg) == seg && AfterSegment(seg) == []
    ensures Segment(seg + ['&'] + rest) == seg && AfterSegment(seg + ['&'] + rest) == rest
  {
    var q := seg + ['&'] + rest;
    assert seg[..|seg|] == seg && q[..|seg|] == seg && q[|seg| + 1..] == rest;
    IndexOfIs(seg, '&', |seg|);
    IndexOfIs(q, '&', |seg|);
  }

  /** Escaped text holds no separator. */
  lemma NoSeparator(s: bytes)
    ensures '&' !in QueryEscape(s) && '=' !in QueryEscape(s) && ';' !in QueryEscape(s)
  {
    forall c: byte | c in QueryEscape(s) ensures c != '&' && c != '=' && c != ';' { EscapeIsPlain(s, c); }
  }

  /** A printed pair is one segment and reads back as that pair. */
  lemma ReadItem(p: Pair)
    ensures '&' !in Item(p)
    ensures ReadSegment(Item(p)) == Decoded(p)
  {
    var k, v := QueryEscape(p.0), QueryEscape(p.1);
    NoSeparator(p.0);
    NoSeparator(p.1);
    var seg := Item(p);
    assert seg[..|k|] == k && seg[|k| + 1..] == v;
    IndexOfIs(seg, '=', |k|);
    UnescapeEscape(p.0);
    UnescapeEscape(p.1);
  }

  /** The first segment is read on its own. */
  lemma ParseSegment(seg: bytes, rest: bytes)
    requires '&' !in seg
    ensures ParsePairs(seg + ['&'] + rest) == ParsePairs(seg) + ParsePairs(rest)
  {
    CutSegment(seg, rest);
    assert ParsePairs([]) == [];
  }

  lemma ErrorSegment(err: Option<QueryError>, seg: bytes, rest: bytes)
    requires '&' !in seg
    ensures ErrorFrom(err, seg + ['&'] + rest) == ErrorFrom(ErrorFrom(err, seg), rest)
  {
    CutSegment(seg, rest);
    assert forall e :: ErrorFrom(e, []) == e;
  }

  lemma ItemAlone(p: Pair, err: Option<QueryError>)
    ensures '&' !in Item(p) && ParsePairs(Item(p)) == [p] && ErrorFrom(err, Item(p)) == err
  {
    ReadItem(p);
    CutSegment(Item(p), []);
    assert ParsePairs([]) == [] && ErrorFrom(err, []) == err;
  }

  /** Reading a printed pair list gives the list back, and reports no error of its own. */
  lemma {:induction false} ParseJoin(ps: seq<Pair>, err: Option<QueryError>)
    ensures ParsePairs(Join(ps)) == ps
    ensures ErrorFrom(err, Join(ps)) == err
  {
    if |ps| > 0 {
      ItemAlone(ps[0], err);
      assert ps == [ps[0]] + ps[1..];
    }
    if |ps| > 1 {
      ParseJoin(ps[1..], err);
      ParseSegment(Item(ps[0]), Join(ps[1..]));
      ErrorSegment(err, Item(ps[0]), Join(ps[1..]));
    }
  }

  lemma {:induction false} ValuesOfConcat(a: seq<Pair>, b: seq<Pair>, k: bytes)
    ensures ValuesOf(a + b, k) == ValuesOf(a, k) + ValuesOf(b, k)
    decreases |a|
  {
    if |a| == 0 {
      assert a + b == b;
    } else {
      assert (a + b)[1..] == a[1..] + b;
      ValuesOfConcat(a[1..], b, k);
    }
  }

  lemma {:induction false} ValuesOfKeyPairs(key: bytes, vs: seq<bytes>, k: bytes)
    ensures ValuesOf(KeyPairs(key, vs), k) == if k == key then vs else []
  {
    var ps := KeyPairs(key, vs);
    if |vs| > 0 {
      assert ps[1..] == KeyPairs(key, vs[1..]);
      ValuesOfKeyPairs(key, vs[1..], k);
      assert vs == [vs[0]] + vs[1..];
    }
  }

  ghost predicate Distinct(keys: seq<bytes>) {
    forall i, j | 0 <= i < j < |keys| :: keys[i] != keys[j]
  }

  lemma {:induction false} ValuesOfPairsFor(m: Values, keys: seq<bytes>, k: bytes)
    requires forall x | x in keys :: x in m
    requires Distinct(keys)
    ensures ValuesOf(PairsFor(m, keys), k) == if k in keys then m[k] else []
  {
    if |keys| > 0 {
      ValuesOfConcat(KeyPairs(keys[0], m[keys[0]]), PairsFor(m, keys[1..]), k);
      ValuesOfKeyPairs(keys[0], m[keys[0]], k);
      ValuesOfPairsFor(m, keys[1..], k);
      assert keys == [keys[0]] + keys[1..];
    }
  }

  lemma {:induction false} DistinctByCount(s: seq<bytes>)
    requires forall x :: multiset(s)[x] <= 1
    ensures Distinct(s)
  {
    if |s| > 0 {
      assert s == [s[0]] + s[1..];
      forall x ensures multiset(s[1..])[x] <= 1 && (x == s[0] ==> x !in s[1..]) {
        assert multiset(s)[x] <= 1;
        assert multiset(s)[x] == multiset{s[0]}[x] + multiset(s[1..])[x];
      }
      DistinctByCount(s[1..]);
      assert multiset(s[1..])[s[0]] <= 1;
      forall j | 0 < j < |s| ensures s[j] != s[0] {
        assert s[j] == s[1..][j - 1] && s[j] in s[1..];
      }
    }
  }

  lemma SortedKeysDistinct(m: Values)
    ensures Distinct(SortedKeys(m))
  {
    DistinctByCount(SortedKeys(m));
  }

  /** Two multimaps with the same list at every key are the same. */
  lemma SameLists(a: Values, b: Values)
    requires forall k :: k in a <==> k in b
    requires forall k :: At(a, k) == At(b, k)
    ensures a == b
  {
    forall k | k in a ensures a[k] == b[k] {
      assert At(a, k) == At(b, k);
    }
  }

  /** Round trip: printing a multimap and reading it back loses and invents nothing. */
  lemma RoundTrip(m: Values)
    requires NonEmptyLists(m)
    ensures Decode(Encode(m)) == m
    ensures ErrorFrom(None, Encode(m)) == None
    ensures Canonical(Encode(m)) == Encode(m)
  {
    var keys := SortedKeys(m);
    var ps := PairsFor(m, keys);
    ParseJoin(ps, None);
    SortedKeysDistinct(m);
    forall k ensures At(Decode(Encode(m)), k) == At(m, k) && (k in Decode(Encode(m)) <==> k in m) {
      GroupOntoAt(map[], ps, k);
      ValuesOfPairsFor(m, keys, k);
    }
    SameLists(Decode(Encode(m)), m);
  }

  /** Canonicalizing is idempotent on every raw query, erroneous ones included. */
  lemma CanonicalIdempotent(q: bytes)
    ensures Canonical(Canonical(q)) == Canonical(q)
    ensures ErrorFrom(None, Canonical(q)) == None
  {
    DecodeNonEmpty(q);
    RoundTrip(Decode(q));
  }

  /** Two raw queries canonicalize alike exactly when they decode to the same multimap. */
  lemma CanonicalDecides(q1: bytes, q2: bytes)
    ensures Canonical(q1) == Canonical(q2) <==> Decode(q1) == Decode(q2)
  {
    DecodeNonEmpty(q1);
    DecodeNonEmpty(q2);
    RoundTrip(Decode(q1));
    RoundTrip(Decode(q2));
  }

  /** The decoded multimap holds, at every key, the values the query gives it, in order. */
  lemma DecodeAt(q: bytes, k: bytes)
    ensures At(Decode(q), k) == ValuesOf(ParsePairs(q), k)
    ensures k in Decode(q) <==> ValuesOf(ParsePairs(q), k) != []
  {
    GroupOntoAt(map[], ParsePairs(q), k);
  }

  ghost predicate SamePerKey(a: seq<Pair>, b: seq<Pair>) {
    forall k :: ValuesOf(a, k) == ValuesOf(b, k)
  }

  /** ... that is, exactly when every key is given the same values in the same order. */
  lemma CanonicalPerKey(q1: bytes, q2: bytes)
    ensures Canonical(q1) == Canonical(q2) <==> SamePerKey(ParsePairs(q1), ParsePairs(q2))
  {
    CanonicalDecides(q1, q2);
    var d1, d2 := Decode(q1), Decode(q2);
    forall k
      ensures At(d1, k) == ValuesOf(ParsePairs(q1), k) && At(d2, k) == ValuesOf(ParsePairs(q2), k)
      ensures k in d1 <==> At(d1, k) != []
      ensures k in d2 <==> At(d2, k) != []
    {
      DecodeAt(q1, k);
      DecodeAt(q2, k);
    }
    if SamePerKey(ParsePairs(q1), ParsePairs(q2)) {
      SameLists(d1, d2);
    }
  }

  lemma Regroup(a: seq<Pair>, b: seq<Pair>, c: seq<Pair>)
    ensures a + (b + c) == (a + b) + c
  {
  }

  lemma FirstSegment(x: bytes, y: bytes)
    requires '&' in x
    ensures '&' !in Segment(x) && |AfterSegment(x)| < |x|
    ensures x == Segment(x) + ['&'] + AfterSegment(x)
    ensures x + ['&'] + y == Segment(x) + ['&'] + (AfterSegment(x) + ['&'] + y)
  {
  }

  lemma ParseThrough(seg: bytes, rest: bytes, tail: bytes, y: bytes)
    requires '&' !in seg && ParsePairs(tail) == ParsePairs(rest) + ParsePairs(y)
    ensures ParsePairs(seg + ['&'] + tail) == ParsePairs(seg + ['&'] + rest) + ParsePairs(y)
  {
    ParseSegment(seg, rest);
    ParseSegment(seg, tail);
    Regroup(ParsePairs(seg), ParsePairs(rest), ParsePairs(y));
  }

  lemma ParseFirst(x: bytes, y: bytes)
    requires '&' in x && ParsePairs(AfterSegment(x) + ['&'] + y) == ParsePairs(AfterSegment(x)) + ParsePairs(y)
    ensures ParsePairs(x + ['&'] + y) == ParsePairs(x) + ParsePairs(y)
  {
    FirstSegment(x, y);
    ParseThrough(Segment(x), AfterSegment(x), AfterSegment(x) + ['&'] + y, y);
  }

  /** '&' separates: the pairs of a joined query are those of its halves. */
  lemma {:induction false} ParseConcat(x: bytes, y: bytes)
    ensures ParsePairs(x + ['&'] + y) == ParsePairs(x) + ParsePairs(y)
    decreases |x|
  {
    if '&' in x {
      FirstSegment(x, y);
      ParseConcat(AfterSegment(x), y);
      ParseFirst(x, y);
    } else {
      ParseSegment(x, y);
    }
  }

  lemma SwapPairs(px: seq<Pair>, pa: seq<Pair>, pb: seq<Pair>, py: seq<Pair>)
    requires |pa| <= 1 && |pb| <= 1
    requires |pa| == 1 && |pb| == 1 ==> pa[0].0 != pb[0].0
    ensures SamePerKey(px + (pa + (pb + py)), px + (pb + (pa + py)))
  {
    forall k ensures ValuesOf(px + (pa + (pb + py)), k) == ValuesOf(px + (pb + (pa + py)), k) {
      ValuesOfConcat(px, pa + (pb + py), k);
      ValuesOfConcat(px, pb + (pa + py), k);
      ValuesOfConcat(pa, pb + py, k);
      ValuesOfConcat(pb, pa + py, k);
      ValuesOfConcat(pa, py, k);
      ValuesOfConcat(pb, py, k);
    }
  }

  /** A query with two neighbouring segments singled out. */
  function Around(x: bytes, a: bytes, b: bytes, y: bytes): bytes {
    x + ['&'] + (a + ['&'] + (b + ['&'] + y))
  }

  lemma ParseAround(x: bytes, a: bytes, b: bytes, y: bytes)
    requires '&' !in a && '&' !in b
    ensures ParsePairs(Around(x, a, b, y)) ==
            ParsePairs(x) + (PairOf(ReadSegment(a)) + (PairOf(ReadSegment(b)) + ParsePairs(y)))
  {
    CutSegment(a, y);
    CutSegment(b, y);
    ParseConcat(b, y);
    ParseConcat(a, b + ['&'] + y);
    ParseConcat(x, a + ['&'] + (b + ['&'] + y));
    assert ParsePairs(a) == PairOf(ReadSegment(a)) && ParsePairs(b) == PairOf(ReadSegment(b));
  }

  lemma SwapSamePerKey(x: bytes, a: bytes, b: bytes, y: bytes)
    requires '&' !in a && '&' !in b
    requires ReadSegment(a).Decoded? && ReadSegment(b).Decoded? ==> ReadSegment(a).pair.0 != ReadSegment(b).pair.0
    ensures SamePerKey(ParsePairs(Around(x, a, b, y)), ParsePairs(Around(x, b, a, y)))
  {
    ParseAround(x, a, b, y);
    ParseAround(x, b, a, y);
    SwapPairs(ParsePairs(x), PairOf(ReadSegment(a)), PairOf(ReadSegment(b)), ParsePairs(y));
  }

  /** Exchanging neighbouring segments that do not give the same key keeps the canonical form. */
  lemma SwapKeepsCanonical(x: bytes, a: bytes, b: bytes, y: bytes)
    requires '&' !in a && '&' !in b
    requires ReadSegment(a).Decoded? && ReadSegment(b).Decoded? ==> ReadSegment(a).pair.0 != ReadSegment(b).pair.0
    ensures Canonical(Around(x, a, b, y)) == Canonical(Around(x, b, a, y))
  {
    SwapSamePerKey(x, a, b, y);
    CanonicalPerKey(Around(x, a, b, y), Around(x, b, a, y));
  }

  /* ---- The canonical form, said outright ---- */

  /** A pair as printed: key and value escaped, an equals sign between. */
  ghost predicate Prints(text: bytes, k: bytes, v: bytes) { text == QueryEscape(k) + ['='] + QueryEscape(v) }

  /** The texts, with an ampersand between any two. */
  function Ampersands(texts: seq<bytes>): bytes {
    if |texts| == 0 then [] else if |texts| == 1 then texts[0] else texts[0] + ['&'] + Ampersands(texts[1..])
  }

  lemma {:induction false} JoinIsAmpersands(ps: seq<Pair>)
    ensures Join(ps) == Ampersands(seq(|ps|, i requires 0 <= i < |ps| => Item(ps[i])))
  {
    var texts := seq(|ps|, i requires 0 <= i < |ps| => Item(ps[i]));
    if |ps| > 1 {
      JoinIsAmpersands(ps[1..]);
      assert texts[1..] == seq(|ps[1..]|, i requires 0 <= i < |ps[1..]| => Item(ps[1..][i]));
    }
  }

  /** The pairs of a multimap, keys ascending. */
  ghost predicate Ascending(ps: seq<Pair>) {
    forall i, j | 0 <= i < j < |ps| :: ps[i].0 == ps[j].0 || (Before(ps[i].0, ps[j].0) && ps[i].0 != ps[j].0)
  }

  lemma {:induction false} PairsAscend(m: Values, keys: seq<bytes>)
    requires (forall k | k in keys :: k in m) && SortedBy((k: bytes) => k, keys) && Distinct(keys)
    ensures Ascending(PairsFor(m, keys)) && forall p | p in PairsFor(m, keys) :: p.0 in keys
  {
    if |keys| > 0 {
      var first, rest := KeyPairs(keys[0], m[keys[0]]), PairsFor(m, keys[1..]);
      PairsAscend(m, keys[1..]);
      var all: seq<Pair> := first + rest;
      forall i, j | 0 <= i < j < |all| ensures all[i].0 == all[j].0 || (Before(all[i].0, all[j].0) && all[i].0 != all[j].0)
      {
        if i < |first| <= j {
          var b := rest[j - |first|].0;
          assert rest[j - |first|] in rest && b in keys[1..];
          var n :| 0 <= n < |keys[1..]| && keys[1..][n] == b;
          assert keys[n + 1] == b && Leq(keys[0], keys[n + 1]);
          LeqExact(keys[0], b);
        }
      }
    }
  }

  /** The canonical form of a query: pairs escaped and joined, keys strictly ascending byte by byte, and every
      key's values those the query gives it, in the order given. */
  lemma CanonicalAscends(q: bytes) returns (ps: seq<Pair>, texts: seq<bytes>)
    ensures |texts| == |ps| && (forall i | 0 <= i < |ps| :: Prints(texts[i], ps[i].0, ps[i].1))
    ensures Canonical(q) == Ampersands(texts) && Ascending(ps)
    ensures forall k :: ValuesOf(ps, k) == ValuesOf(ParsePairs(q), k)
  {
    var m := Decode(q);
    var keys := SortedKeys(m);
    ps := PairsFor(m, keys);
    texts := seq(|ps|, i requires 0 <= i < |ps| => Item(ps[i]));
    JoinIsAmpersands(ps);
    SortedKeysDistinct(m);
    PairsAscend(m, keys);
    forall k ensures ValuesOf(ps, k) == ValuesOf(ParsePairs(q), k) {
      ValuesOfPairsFor(m, keys, k);
      DecodeAt(q, k);
    }
  }

  /** Key text and value text: unescaped, the value empty without an equals sign. */
  function PairRead(key: bytes, value: bytes): seq<Pair> {
    if QueryUnescape(key).Some? && QueryUnescape(value).Some? then [(QueryUnescape(key).value, QueryUnescape(value).value)]
    else []
  }

  /** One segment gives its one pair, cut at the first equals sign; nothing when it is empty, holds a semicolon
      or cannot be unescaped. */
  lemma SegmentExact(key: bytes, value: bytes)
    requires '&' !in key && '=' !in key && '&' !in value
    ensures ParsePairs(key + ['='] + value) == if ';' in key || ';' in value then [] else PairRead(key, value)
    ensures ParsePairs(key) == if ';' in key || key == [] then [] else PairRead(key, [])
  {
    PairSegment(key, value);
    IndexOfIs(key, '=', |key|);
    assert key[..|key|] == key;
    CutSegment(key, []);
    assert ParsePairs([]) == [];
  }

  lemma PairSegment(key: bytes, value: bytes)
    requires '&' !in key && '=' !in key && '&' !in value
    ensures ParsePairs(key + ['='] + value) == if ';' in key || ';' in value then [] else PairRead(key, value)
  {
    var seg := key + ['='] + value;
    assert seg[..|key|] == key && seg[|key| + 1..] == value;
    IndexOfIs(seg, '=', |key|);
    CutSegment(seg, []);
    assert ParsePairs([]) == [];
  }

  /* ---- Errors ---- */

  /** A segment of the query that cannot be read. */
  ghost predicate BadSegment(q: bytes)
    decreases |q|
  {
    |q| > 0 && ((ReadSegment(Segment(q)).Rejected? && ';' !in Segment(q)) || BadSegment(AfterSegment(q)))
  }

  lemma SemicolonSplits(q: bytes)
    requires |q| > 0
    ensures ';' in q <==> ';' in Segment(q) || ';' in AfterSegment(q)
  {
    var i := IndexOf(q, '&');
    if i < |q| { assert q == q[..i] + ['&'] + q[i + 1..]; } else { assert q == q[..i]; }
  }

  lemma {:induction false} ErrorIs(err: Option<QueryError>, q: bytes)
    ensures ErrorFrom(err, q) == if ';' in q then Some(SemicolonSeparator)
                                 else if err.Some? then err
                                 else if BadSegment(q) then Some(InvalidEscape) else None
    decreases |q|
  {
    if |q| > 0 {
      SemicolonSplits(q);
      var r := ReadSegment(Segment(q));
      var next := if r == Rejected(SemicolonSeparator) || (r.Rejected? && err.None?) then Some(r.error) else err;
      ErrorIs(next, AfterSegment(q));
    }
  }

  /** A query is in error exactly when it holds a semicolon, whatever else is wrong with it, or a segment with a
      malformed escape. */
  lemma ErrorExact(q: bytes)
    ensures ErrorFrom(None, q) == Some(SemicolonSeparator) <==> ';' in q
    ensures ErrorFrom(None, q) == Some(InvalidEscape) <==> ';' !in q && BadSegment(q)
  {
    ErrorIs(None, q);
  }
}
