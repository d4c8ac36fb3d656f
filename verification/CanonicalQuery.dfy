/** What canonicalizing a query means: the raw query is read into a multimap, and a multimap is
    printed as its key-sorted list of escaped pairs. */
module CanonicalQuery {
  import opened Wrappers
  import opened Strings
  import opened Escaping

  type Pair = (bytes, bytes)
  type Values = map<bytes, seq<bytes>>
  datatype QueryError = SemicolonSeparator | InvalidEscape

  /* ---- Reading ---- */

  /** The position of the first c in s, or |s|. */
  function IndexOf(s: bytes, c: byte): (i: nat)
    ensures i <= |s| && c !in s[..i] && (i < |s| ==> s[i] == c)
  {
    if |s| == 0 || s[0] == c then 0
    else
      var i := 1 + IndexOf(s[1..], c);
      assert s[..i] == [s[0]] + s[1..][..i - 1];
      i
  }

  function Segment(q: bytes): bytes { q[..IndexOf(q, '&')] }

  function AfterSegment(q: bytes): (r: bytes)
    ensures |q| > 0 ==> |r| < |q|
  {
    var i := IndexOf(q, '&');
    if i < |q| then q[i + 1..] else []
  }

  function CutKey(seg: bytes): bytes { seg[..IndexOf(seg, '=')] }

  function CutValue(seg: bytes): bytes {
    var i := IndexOf(seg, '=');
    if i < |seg| then seg[i + 1..] else []
  }

  /** One '&'-separated segment: skipped, rejected, or a decoded pair. */
  datatype Segmented = Skipped | Rejected(error: QueryError) | Decoded(pair: Pair)

  function ReadSegment(seg: bytes): Segmented {
    if ';' in seg then Rejected(SemicolonSeparator)
    else if |seg| == 0 then Skipped
    else
      var key := QueryUnescape(CutKey(seg));
      var value := QueryUnescape(CutValue(seg));
      if key.None? || value.None? then Rejected(InvalidEscape)
      else Decoded((key.value, value.value))
  }

  function PairOf(r: Segmented): seq<Pair> {
    if r.Decoded? then [r.pair] else []
  }

  function ParsePairs(q: bytes): seq<Pair>
    decreases |q|
  {
    if |q| == 0 then [] else PairOf(ReadSegment(Segment(q))) + ParsePairs(AfterSegment(q))
  }

  /** The reported error: a bad escape is kept only while nothing was reported before it, a
      semicolon replaces whatever was. */
  function ErrorFrom(err: Option<QueryError>, q: bytes): Option<QueryError>
    decreases |q|
  {
    if |q| == 0 then err
    else
      var r := ReadSegment(Segment(q));
      var next := if r == Rejected(SemicolonSeparator) || (r.Rejected? && err.None?) then Some(r.error) else err;
      ErrorFrom(next, AfterSegment(q))
  }

  function At(m: Values, k: bytes): seq<bytes> {
    if k in m then m[k] else []
  }

  function Append(m: Values, p: Pair): Values {
    m[p.0 := At(m, p.0) + [p.1]]
  }

  function GroupOnto(m: Values, ps: seq<Pair>): Values
    decreases |ps|
  {
    if |ps| == 0 then m else GroupOnto(Append(m, ps[0]), ps[1..])
  }

  /** The multimap a raw query decodes to. */
  function Decode(q: bytes): Values { GroupOnto(map[], ParsePairs(q)) }

  /** The values given to key k, in order. */
  function ValuesOf(ps: seq<Pair>, k: bytes): seq<bytes> {
    if |ps| == 0 then []
    else (if ps[0].0 == k then [ps[0].1] else []) + ValuesOf(ps[1..], k)
  }

  ghost predicate NonEmptyLists(m: Values) {
    forall k | k in m :: m[k] != []
  }

  /** Grouping keeps each key's values in order and adds nothing else. */
  lemma {:induction false} GroupOntoAt(m: Values, ps: seq<Pair>, k: bytes)
    ensures At(GroupOnto(m, ps), k) == At(m, k) + ValuesOf(ps, k)
    ensures k in GroupOnto(m, ps) <==> k in m || ValuesOf(ps, k) != []
    decreases |ps|
  {
    if |ps| > 0 {
      GroupOntoAt(Append(m, ps[0]), ps[1..], k);
    }
  }

  lemma DecodeNonEmpty(q: bytes)
    ensures NonEmptyLists(Decode(q))
  {
    forall k | k in Decode(q) ensures Decode(q)[k] != [] {
      GroupOntoAt(map[], ParsePairs(q), k);
    }
  }

  /* ---- Printing ---- */

  function Item(p: Pair): (r: bytes)
    ensures |r| > 0
  {
    QueryEscape(p.0) + ['='] + QueryEscape(p.1)
  }

  function Join(ps: seq<Pair>): bytes {
    if |ps| == 0 then []
    else if |ps| == 1 then Item(ps[0])
    else Item(ps[0]) + ['&'] + Join(ps[1..])
  }

  function KeyPairs(k: bytes, vs: seq<bytes>): (r: seq<Pair>)
    ensures |r| == |vs| && forall i | 0 <= i < |r| :: r[i] == (k, vs[i])
  {
    seq(|vs|, i requires 0 <= i < |vs| => (k, vs[i]))
  }

  function PairsFor(m: Values, keys: seq<bytes>): seq<Pair>
    requires forall k | k in keys :: k in m
  {
    if |keys| == 0 then [] else KeyPairs(keys[0], m[keys[0]]) + PairsFor(m, keys[1..])
  }

  ghost function SetToSeq(s: set<bytes>): (r: seq<bytes>)
    ensures multiset(r) == multiset(s)
  {
    if s == {} then [] else
      var x :| x in s;
      [x] + SetToSeq(s - {x})
  }

  /** sort.Strings on a list of keys. */
  function SortKeys(keys: seq<bytes>): (r: seq<bytes>)
    ensures SortedBy((k: bytes) => k, r)
    ensures multiset(r) == multiset(keys)
  {
    SortBy((k: bytes) => k, keys)
  }

  ghost function SortedKeys(m: Values): (r: seq<bytes>)
    ensures SortedBy((k: bytes) => k, r)
    ensures multiset(r) == multiset(m.Keys)
    ensures forall k :: k in r <==> k in m
  {
    var r := SortKeys(SetToSeq(m.Keys));
    assert forall k :: k in r <==> k in multiset(r);
    assert forall k :: k in multiset(m.Keys) <==> k in m;
    r
  }

  /** The canonical form of a multimap. */
  ghost function Encode(m: Values): bytes { Join(PairsFor(m, SortedKeys(m))) }

  ghost function Canonical(q: bytes): bytes { Encode(Decode(q)) }

  /** Whatever order the keys were collected in, sorting them gives SortedKeys. */
  lemma KeyOrderIrrelevant(m: Values, keys: seq<bytes>)
    requires multiset(keys) == multiset(m.Keys)
    ensures SortKeys(keys) == SortedKeys(m)
  {
    SortedUnique((k: bytes) => k, SortKeys(keys), SortedKeys(m));
  }
}
