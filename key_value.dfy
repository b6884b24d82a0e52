/** Configured key/value lists and the two ways the REST API plugin applies
    them: as query parameters (filtered, order and duplicates kept) and as a
    header object (folded left, last writer wins), plus the default
    User-Agent header. */
module KeyValue {
  import opened Wrappers

  /** A configured key/value pair; any of its fields may be missing. */
  datatype Property = Property(key: Option<string>, value: Option<string>, enabled: Option<bool>)

  /** One slot of a configured list; `None` is a `null` or `undefined` slot. */
  type Entry = Option<Property>

  /** JavaScript's conversion of a possibly undefined string to a string,
      as done by a template literal or by `URLSearchParams.append`. */
  function Stringify(s: Option<string>): string {
    match s
    case Some(v) => v
    case None => "undefined"
  }

  // ---------------------------------------------------------------------
  // Query parameters
  // ---------------------------------------------------------------------

  /** A name/value pair of a URL's query list. */
  datatype QueryPair = QueryPair(name: string, value: string)

  /** An entry is applied as a query parameter when it is present and the
      validity predicate (`paramHasKeyValue`) accepts it. */
  predicate IsEffective(valid: Property -> bool, e: Entry) {
    e.Some? && valid(e.value)
  }

  /** The query pair `URLSearchParams.append(p.key, p.value)` adds. */
  function ToQueryPair(p: Property): QueryPair {
    QueryPair(Stringify(p.key), Stringify(p.value))
  }

  /** The query pairs appended for a parameter list, in list order. */
  function EffectiveParams(valid: Property -> bool, es: seq<Entry>): (r: seq<QueryPair>)
    ensures |r| <= |es|
  {
    if es == [] then []
    else
      var last := es[|es| - 1];
      EffectiveParams(valid, es[..|es| - 1])
        + (if IsEffective(valid, last) then [ToQueryPair(last.value)] else [])
  }

  /** The pairs of a concatenated list are those of the first list followed
      by those of the second: datasource parameters come first. */
  lemma {:induction false} EffectiveParamsConcat(valid: Property -> bool, a: seq<Entry>, b: seq<Entry>)
    ensures EffectiveParams(valid, a + b) == EffectiveParams(valid, a) + EffectiveParams(valid, b)
    decreases |b|
  {
    if b == [] {
      assert a + b == a;
    } else {
      var b' := b[..|b| - 1];
      assert (a + b)[..|a + b| - 1] == a + b';
      assert (a + b)[|a + b| - 1] == b[|b| - 1];
      EffectiveParamsConcat(valid, a, b');
    }
  }

  /** A pair is appended exactly when some effective entry produces it. */
  lemma {:induction false} EffectiveParamsMember(valid: Property -> bool, es: seq<Entry>, q: QueryPair)
    ensures q in EffectiveParams(valid, es)
        <==> exists i :: 0 <= i < |es| && IsEffective(valid, es[i]) && ToQueryPair(es[i].value) == q
  {
    if es != [] {
      var init := es[..|es| - 1];
      EffectiveParamsMember(valid, init, q);
      if exists i :: 0 <= i < |es| && IsEffective(valid, es[i]) && ToQueryPair(es[i].value) == q {
        var i :| 0 <= i < |es| && IsEffective(valid, es[i]) && ToQueryPair(es[i].value) == q;
        if i < |es| - 1 {
          assert init[i] == es[i];
        }
      }
      if exists i :: 0 <= i < |init| && IsEffective(valid, init[i]) && ToQueryPair(init[i].value) == q {
        var i :| 0 <= i < |init| && IsEffective(valid, init[i]) && ToQueryPair(init[i].value) == q;
        assert es[i] == init[i];
      }
    }
  }

  /** When every entry is effective nothing is dropped, merged or reordered:
      duplicated keys are all appended. */
  lemma {:induction false} EffectiveParamsKeepAll(valid: Property -> bool, es: seq<Entry>)
    requires forall i :: 0 <= i < |es| ==> es[i].Some? && valid(es[i].value)
    ensures |EffectiveParams(valid, es)| == |es|
    ensures forall i :: 0 <= i < |es| ==> EffectiveParams(valid, es)[i] == ToQueryPair(es[i].value)
  {
    if es != [] {
      var init := es[..|es| - 1];
      EffectiveParamsKeepAll(valid, init);
    }
  }

  // ---------------------------------------------------------------------
  // Headers
  // ---------------------------------------------------------------------

  /** The header object: case-sensitive keys; a value may be `undefined`. */
  type HeaderMap = map<string, Option<string>>

  /** The header fold skips a slot that is `null`/`undefined` or whose key is
      missing or empty (falsy); it neither consults the validity predicate
      nor the `enabled` flag. */
  predicate IsSkipped(e: Entry) {
    e.None? || e.value.key.None? || e.value.key.value == ""
  }

  /** The entry writes key `k` into the header object. */
  predicate Writes(e: Entry, k: string) {
    !IsSkipped(e) && e.value.key.value == k
  }

  /** One step of the header fold: `o[p.key] = p?.value`, unless skipped. */
  function SetHeader(o: HeaderMap, e: Entry): (r: HeaderMap)
    ensures IsSkipped(e) ==> r == o
    ensures !IsSkipped(e) ==> r.Keys == o.Keys + {e.value.key.value} && r[e.value.key.value] == e.value.value
    ensures forall k :: k in o && !Writes(e, k) ==> k in r && r[k] == o[k]
  {
    if IsSkipped(e) then o else o[e.value.key.value := e.value.value]
  }

  /** The header object the fold builds from an empty object; an empty key
      never enters it. */
  function FoldHeaders(es: seq<Entry>): (r: HeaderMap)
    ensures "" !in r
  {
    if es == [] then map[] else SetHeader(FoldHeaders(es[..|es| - 1]), es[|es| - 1])
  }

  /** Folding a concatenation is the right-biased union of the two folds:
      a key set by the action level overrides the datasource level, and
      every other key keeps its datasource value. */
  lemma {:induction false} FoldHeadersConcat(a: seq<Entry>, b: seq<Entry>)
    ensures FoldHeaders(a + b) == FoldHeaders(a) + FoldHeaders(b)
    decreases |b|
  {
    if b == [] {
      assert a + b == a;
    } else {
      var b' := b[..|b| - 1];
      var e := b[|b| - 1];
      assert (a + b)[..|a + b| - 1] == a + b';
      assert (a + b)[|a + b| - 1] == e;
      FoldHeadersConcat(a, b');
      var m1, m2 := FoldHeaders(a), FoldHeaders(b');
      if !IsSkipped(e) {
        assert (m1 + m2)[e.value.key.value := e.value.value] == m1 + m2[e.value.key.value := e.value.value];
      }
    }
  }

  /** A key is in the header object exactly when some entry writes it, and
      its value is that of the last entry writing it (exact, case-sensitive
      key match). */
  lemma {:induction false} FoldHeadersLastWins(es: seq<Entry>, k: string)
    ensures k in FoldHeaders(es) <==> exists i :: 0 <= i < |es| && Writes(es[i], k)
    ensures forall i :: 0 <= i < |es| && Writes(es[i], k) && (forall j :: i < j < |es| ==> !Writes(es[j], k))
                        ==> k in FoldHeaders(es) && FoldHeaders(es)[k] == es[i].value.value
  {
    if es != [] {
      var init := es[..|es| - 1];
      var e := es[|es| - 1];
      FoldHeadersLastWins(init, k);
      if exists i :: 0 <= i < |init| && Writes(init[i], k) {
        var i :| 0 <= i < |init| && Writes(init[i], k);
        assert Writes(es[i], k);
      }
      forall i | 0 <= i < |es| && Writes(es[i], k) && (forall j :: i < j < |es| ==> !Writes(es[j], k))
        ensures k in FoldHeaders(es) && FoldHeaders(es)[k] == es[i].value.value
      {
        if i < |es| - 1 {
          assert init[i] == es[i];
          forall j | i < j < |init| ensures !Writes(init[j], k) {
            assert init[j] == es[j];
          }
        }
      }
    }
  }

  /** Two entries that agree on slot presence, key and value fold the same:
      the header object does not depend on the `enabled` flag. */
  predicate SameKeyValue(e: Entry, e': Entry) {
    e.Some? == e'.Some? && (e.Some? ==> e.value.key == e'.value.key && e.value.value == e'.value.value)
  }

  lemma {:induction false} FoldHeadersIgnoresEnabled(es: seq<Entry>, es': seq<Entry>)
    requires |es| == |es'|
    requires forall i :: 0 <= i < |es| ==> SameKeyValue(es[i], es'[i])
    ensures FoldHeaders(es) == FoldHeaders(es')
  {
    if es != [] {
      FoldHeadersIgnoresEnabled(es[..|es| - 1], es'[..|es'| - 1]);
    }
  }

  // ---------------------------------------------------------------------
  // Default User-Agent
  // ---------------------------------------------------------------------

  /** The key under which the default User-Agent is stored. */
  const UserAgentHeader: string := "User-Agent"

  /** `String.prototype.toLowerCase` on ASCII letters. */
  function LowerChar(c: char): char {
    if 'A' <= c <= 'Z' then (c as int + 32) as char else c
  }

  function Lower(s: string): string {
    if s == [] then [] else [LowerChar(s[0])] + Lower(s[1..])
  }

  /** A header key names the User-Agent header in any letter case. */
  predicate IsUserAgentKey(k: string) {
    Lower(k) == "user-agent"
  }

  predicate HasUserAgent(h: HeaderMap) {
    exists k :: k in h && IsUserAgentKey(k)
  }

  /** Adds `User-Agent` with the default value unless some key already
      names the User-Agent header in any letter case. */
  function WithDefaultUserAgent(h: HeaderMap, defaultUserAgent: string): (r: HeaderMap)
    ensures HasUserAgent(r)
    ensures HasUserAgent(h) ==> r == h
    ensures !HasUserAgent(h) ==>
              && UserAgentHeader !in h
              && r.Keys == h.Keys + {UserAgentHeader}
              && r[UserAgentHeader] == Some(defaultUserAgent)
              && forall k :: k in h ==> r[k] == h[k]
  {
    assert IsUserAgentKey(UserAgentHeader);
    if HasUserAgent(h) then h else h[UserAgentHeader := Some(defaultUserAgent)]
  }

  /** The default is added exactly when no entry of the header list writes a
      key that names the User-Agent header in any letter case. */
  lemma UserAgentDefaultedIff(es: seq<Entry>)
    ensures HasUserAgent(FoldHeaders(es))
        <==> exists i :: 0 <= i < |es| && !IsSkipped(es[i]) && IsUserAgentKey(es[i].value.key.value)
  {
    if HasUserAgent(FoldHeaders(es)) {
      var k :| k in FoldHeaders(es) && IsUserAgentKey(k);
      FoldHeadersLastWins(es, k);
    }
    if exists i :: 0 <= i < |es| && !IsSkipped(es[i]) && IsUserAgentKey(es[i].value.key.value) {
      var i :| 0 <= i < |es| && !IsSkipped(es[i]) && IsUserAgentKey(es[i].value.key.value);
      FoldHeadersLastWins(es, es[i].value.key.value);
    }
  }
}
