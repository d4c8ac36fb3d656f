/** Request signing: the loops that canonicalize a query, and the framing of the signed message. */
module Auth {
  import opened Wrappers
  import opened Escaping
  import opened CanonicalQuery
  import opened QueryTheorems

  /** strings.IndexAny(s, "&"), strings.Cut(s, "="): the scan for one separator. */
  method FindByte(s: bytes, c: byte) returns (i: nat)
    ensures i == IndexOf(s, c)
  {
    i := 0;
    while i < |s| && s[i] != c
      invariant i <= |s| && c !in s[..i]
    {
      i := i + 1;
    }
    IndexOfIs(s, c, i);
  }

  /** Splits off everything up to the next '&'. */
  method NextSegment(query: bytes) returns (segment: bytes, rest: bytes)
    requires query != []
    ensures segment == Segment(query) && rest == AfterSegment(query)
  {
    var i := FindByte(query, '&');
    segment := query[..i];
    rest := if i < |query| then query[i + 1..] else [];
  }

  /** Cuts a segment at '=' and unescapes both halves; None when either is malformed. */
  method UnescapePair(segment: bytes) returns (pair: Option<Pair>)
    requires segment != [] && ';' !in segment
    ensures ReadSegment(segment) == if pair.Some? then Decoded(pair.value) else Rejected(InvalidEscape)
  {
    var cut := FindByte(segment, '=');
    var key := QueryUnescape(segment[..cut]);
    if key.None? {
      return None;
    }
    var value := QueryUnescape(if cut < |segment| then segment[cut + 1..] else []);
    pair := if value.None? then None else Some((key.value, value.value));
  }

  /** What one pass over the loop body must do to the two accumulators. */
  lemma ReadStep(values: Values, err: Option<QueryError>, q: bytes)
    requires q != []
    ensures var r := ReadSegment(Segment(q));
            GroupOnto(values, ParsePairs(q)) ==
            GroupOnto(if r.Decoded? then Append(values, r.pair) else values, ParsePairs(AfterSegment(q)))
    ensures var r := ReadSegment(Segment(q));
            ErrorFrom(err, q) == ErrorFrom(
              if r == Rejected(SemicolonSeparator) || (r.Rejected? && err.None?) then Some(r.error) else err,
              AfterSegment(q))
  {
    var r, rest := ReadSegment(Segment(q)), ParsePairs(AfterSegment(q));
    if r.Decoded? {
      assert ([r.pair] + rest)[1..] == rest;
    } else {
      assert [] + rest == rest;
    }
  }

  method CanonicalizeQuery(rawQuery: bytes) returns (canonical: bytes, err: Option<QueryError>)
    ensures canonical == Canonical(rawQuery)
    ensures err == ErrorFrom(None, rawQuery)
  {
    var query := rawQuery;
    var values: Values := map[];
    err := None;
    while query != []
      invariant GroupOnto(values, ParsePairs(query)) == Decode(rawQuery)
      invariant ErrorFrom(err, query) == ErrorFrom(None, rawQuery)
      decreases |query|
    {
      ReadStep(values, err, query);
      var segment;
      segment, query := NextSegment(query);
      if ';' in segment {
        err := Some(SemicolonSeparator);
        continue;
      }
      if segment == [] {
        continue;
      }
      var pair := UnescapePair(segment);
      if pair.None? {
        if err.None? {
          err := Some(InvalidEscape);
        }
        continue;
      }
      values := Append(values, pair.value);
    }
    canonical := EncodeQuery(values);
  }

  /** Collects the keys in whatever order the map yields them, then sorts. */
  method CollectKeys(values: Values) returns (keys: seq<bytes>)
    ensures keys == SortedKeys(values)
  {
    keys := [];
    var unread := values.Keys;
    while unread != {}
      invariant unread <= values.Keys
      invariant multiset(keys) + multiset(unread) == multiset(values.Keys)
    {
      var k :| k in unread;
      assert multiset(unread) == multiset(unread - {k}) + multiset{k};
      keys, unread := keys + [k], unread - {k};
    }
    KeyOrderIrrelevant(values, keys);
    keys := SortKeys(keys);
  }

  lemma TakeSnoc<T>(s: seq<T>, i: nat)
    requires i < |s|
    ensures s[..i + 1] == s[..i] + [s[i]]
  {
  }

  method EncodeQuery(values: Values) returns (buf: bytes)
    ensures buf == Encode(values)
  {
    var keys := CollectKeys(values);
    buf := [];
    ghost var written: seq<Pair> := [];
    for i := 0 to |keys|
      invariant written == PairsFor(values, keys[..i])
      invariant buf == Join(written)
    {
      buf := WriteKey(buf, keys[i], values[keys[i]], written);
      PairsForSnoc(values, keys[..i], keys[i]);
      TakeSnoc(keys, i);
      written := written + KeyPairs(keys[i], values[keys[i]]);
    }
    assert keys[..|keys|] == keys;
  }

  /** The inner loop: one key's values in order, '&' before every pair but the first. */
  method WriteKey(buf0: bytes, key: bytes, vs: seq<bytes>, ghost written: seq<Pair>) returns (buf: bytes)
    requires buf0 == Join(written)
    ensures buf == Join(written + KeyPairs(key, vs))
  {
    buf := buf0;
    var keyEscaped := QueryEscape(key);
    assert written + KeyPairs(key, vs)[..0] == written;
    for j := 0 to |vs|
      invariant buf == Join(written + KeyPairs(key, vs)[..j])
    {
      ghost var sofar := written + KeyPairs(key, vs)[..j];
      JoinSnoc(sofar, (key, vs[j]));
      assert written + KeyPairs(key, vs)[..j + 1] == sofar + [(key, vs[j])];
      if |buf| > 0 {
        buf := buf + ['&'];
      }
      buf := buf + (keyEscaped + ['='] + QueryEscape(vs[j]));
    }
    assert KeyPairs(key, vs)[..|vs|] == KeyPairs(key, vs);
  }

  lemma {:induction false} JoinSnoc(ps: seq<Pair>, p: Pair)
    ensures Join(ps + [p]) == (if |Join(ps)| > 0 then Join(ps) + ['&'] else []) + Item(p)
    ensures |Join(ps)| > 0 <==> |ps| > 0
  {
    if |ps| > 0 {
      JoinSnoc(ps[1..], p);
      assert (ps + [p])[1..] == ps[1..] + [p];
      if |ps| > 1 {
        assert Join(ps + [p]) == Item(ps[0]) + ['&'] + (Join(ps[1..]) + ['&'] + Item(p));
      }
    }
  }

  lemma {:induction false} PairsForSnoc(m: Values, keys: seq<bytes>, k: bytes)
    requires k in m && forall x | x in keys :: x in m
    ensures PairsFor(m, keys + [k]) == PairsFor(m, keys) + KeyPairs(k, m[k])
  {
    if |keys| == 0 {
      assert keys + [k] == [k] && [k][1..] == [];
    } else {
      assert (keys + [k])[1..] == keys[1..] + [k];
      PairsForSnoc(m, keys[1..], k);
    }
  }

  /* ---- The signed message ---- */

  datatype Request = Request(path: bytes, rawQuery: bytes, verb: bytes, timestamp: bytes)

  /** The bytes that are signed, for a request whose query canonicalizes without an error. */
  ghost function Message(r: Request): bytes {
    Framed(r.path, Canonical(r.rawQuery), r.verb, r.timestamp)
  }

  ghost predicate Signable(r: Request) { ErrorFrom(None, r.rawQuery) == None }

  /** WriteString(text + "\n"). */
  function Line(buf: bytes, text: bytes): bytes { buf + text + ['\n'] }

  function Framed(path: bytes, query: bytes, verb: bytes, timestamp: bytes): bytes {
    Line(Line(Line(Line([], path), query), verb), timestamp)
  }

  method GenerateMessage(r: Request) returns (message: bytes, err: Option<QueryError>)
    ensures err == ErrorFrom(None, r.rawQuery)
    ensures message == if Signable(r) then Message(r) else []
  {
    message := Line([], r.path);
    var canonical;
    canonical, err := CanonicalizeQuery(r.rawQuery);
    if err.Some? {
      return [], err;
    }
    message := Line(message, canonical);
    message := Line(message, r.verb);
    message := Line(message, r.timestamp);
  }

  /** The signed bytes: path, canonical query, verb and timestamp, a newline after each. */
  lemma MessageExact(r: Request)
    ensures Message(r) == r.path + ['\n'] + Canonical(r.rawQuery) + ['\n'] + r.verb + ['\n'] + r.timestamp + ['\n']
  {
    assert [] + r.path == r.path;
  }

  lemma {:induction false} JoinHasNoNewline(ps: seq<Pair>)
    ensures '\n' !in Join(ps)
  {
    if |ps| > 0 {
      var k, v := QueryEscape(ps[0].0), QueryEscape(ps[0].1);
      forall c: byte | c in k || c in v ensures c != '\n' {
        if c in k { EscapeIsPlain(ps[0].0, c); } else { EscapeIsPlain(ps[0].1, c); }
      }
      JoinHasNoNewline(ps[1..]);
    }
  }

  /** Reading from the end: the last line is determined, and so is everything before it. */
  lemma LastLine(a: bytes, x: bytes, b: bytes, y: bytes)
    requires '\n' !in x && '\n' !in y
    requires a == [] || a[|a| - 1] == '\n'
    requires b == [] || b[|b| - 1] == '\n'
    requires Line(a, x) == Line(b, y)
    ensures a == b && x == y
  {
    var s := Line(a, x);
    assert |a| <= |b| by {
      assert |a| > 0 ==> s[|a| - 1] == '\n';
      assert forall i | |b| <= i < |s| - 1 :: s[i] == y[i - |b|];
    }
    assert |b| <= |a| by {
      assert |b| > 0 ==> s[|b| - 1] == '\n';
      assert forall i | |a| <= i < |s| - 1 :: s[i] == x[i - |a|];
    }
    assert s[..|a|] == a && s[..|b|] == b && s[|a|..|s| - 1] == x && s[|b|..|s| - 1] == y;
  }

  lemma FramedInjective(p1: bytes, q1: bytes, v1: bytes, t1: bytes, p2: bytes, q2: bytes, v2: bytes, t2: bytes)
    requires '\n' !in q1 && '\n' !in v1 && '\n' !in t1
    requires '\n' !in q2 && '\n' !in v2 && '\n' !in t2
    requires Framed(p1, q1, v1, t1) == Framed(p2, q2, v2, t2)
    ensures p1 == p2 && q1 == q2 && v1 == v2 && t1 == t2
  {
    var a1, a2 := Line([], p1), Line([], p2);
    var b1, b2 := Line(a1, q1), Line(a2, q2);
    LastLine(Line(b1, v1), t1, Line(b2, v2), t2);
    LastLine(b1, v1, b2, v2);
    LastLine(a1, q1, a2, q2);
    assert a1[..|p1|] == p1 && a2[..|p2|] == p2;
  }

  /** The framing is unambiguous: with a newline-free verb and timestamp, two requests are signed
      alike exactly when path, decoded query, verb and timestamp all agree. The path itself may
      contain newlines. */
  lemma MessageDecides(r1: Request, r2: Request)
    requires '\n' !in r1.verb && '\n' !in r1.timestamp && '\n' !in r2.verb && '\n' !in r2.timestamp
    ensures Message(r1) == Message(r2) <==>
            r1.path == r2.path && Decode(r1.rawQuery) == Decode(r2.rawQuery) &&
            r1.verb == r2.verb && r1.timestamp == r2.timestamp
  {
    CanonicalDecides(r1.rawQuery, r2.rawQuery);
    JoinHasNoNewline(PairsFor(Decode(r1.rawQuery), SortedKeys(Decode(r1.rawQuery))));
    JoinHasNoNewline(PairsFor(Decode(r2.rawQuery), SortedKeys(Decode(r2.rawQuery))));
    if Message(r1) == Message(r2) {
      FramedInjective(r1.path, Canonical(r1.rawQuery), r1.verb, r1.timestamp,
                      r2.path, Canonical(r2.rawQuery), r2.verb, r2.timestamp);
    }
  }
}
