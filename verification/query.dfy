/**
 * Query-string serialisation of request options (`Capture::to_query_string`).
 *
 * The options are a `HashMap`, whose iteration order is unspecified; the model takes that
 * order as an explicit enumeration of the map's keys, and every property below holds for
 * every enumeration.
 */
module Query {
  import opened Wrappers
  import opened Json
  import opened Strings
  import opened Primitives

  /** `RequestOptions`: option name to JSON value. */
  type RequestOptions = map<string, Value>

  predicate Distinct(ks: seq<string>) {
    forall i, j :: 0 <= i < j < |ks| ==> ks[i] != ks[j]
  }

  /** `ks` lists every key of `m` exactly once: one possible iteration order of the map. */
  predicate IsEnumeration(ks: seq<string>, m: RequestOptions) {
    && Distinct(ks)
    && (forall i :: 0 <= i < |ks| ==> ks[i] in m)
    && (forall k :: k in m ==> k in ks)
  }

  /**
   * The `key=value` piece one entry contributes, both sides percent-encoded. Integers and
   * booleans always contribute (as their decimal text and as `true`/`false`), strings unless
   * empty, floats unless their text is empty, and nothing else does.
   */
  function Segment(d: Deps, k: string, v: Value): (r: Option<string>)
    ensures r.None? <==> v.Other? || v == Str("") || (v.Float? && d.formatFloat(v.bits) == "")
    ensures v.Str? && v.s != "" ==> r == Some(d.encode(k) + "=" + d.encode(v.s))
    ensures v.Num? ==> r == Some(d.encode(k) + "=" + d.encode(IntToDecimal(v.n)))
    ensures v.Float? && d.formatFloat(v.bits) != "" ==> r == Some(d.encode(k) + "=" + d.encode(d.formatFloat(v.bits)))
    ensures v.Bool? ==> r == Some(d.encode(k) + "=" + d.encode(if v.b then "true" else "false"))
  {
    match Render(v, d.formatFloat)
    case None => None
    case Some(t) => if t == "" then None else Some(d.encode(k) + "=" + d.encode(t))
  }

  /** The pieces of the entries keyed by `ks`, in that order. */
  function Params(d: Deps, opts: RequestOptions, ks: seq<string>): seq<string>
    requires forall i :: 0 <= i < |ks| ==> ks[i] in opts
  {
    if ks == [] then []
    else
      var rest := Params(d, opts, ks[1..]);
      match Segment(d, ks[0], opts[ks[0]])
      case None => rest
      case Some(p) => [p] + rest
  }

  /**
   * `to_query_string`: the pieces joined with `&`, visiting the keys in the order `order`.
   * The query is empty exactly when no entry contributes a piece; which pieces it holds is
   * stated by QueryPieces, QuerySplits and EntryInQuery.
   */
  function ToQueryString(d: Deps, opts: RequestOptions, order: seq<string>): (r: string)
    requires IsEnumeration(order, opts)
    ensures r == "" <==> Emitted(d, opts) == {}
  {
    var ps := Params(d, opts, order);
    QueryPieces(d, opts, order, "");
    if ps != [] then
      ParamsFromEntries(d, opts, order, 0);
      Join(ps, '&')
    else
      Join(ps, '&')
  }

  /** The keys of `opts` that contribute a piece. */
  ghost function Emitted(d: Deps, opts: RequestOptions): set<string> {
    set k | k in opts && Emits(d, opts, k)
  }

  /** How many entries of `opts` contribute exactly the piece `x`. */
  ghost function Contributors(d: Deps, opts: RequestOptions, x: string): set<string> {
    set k | k in opts && Yields(d, opts, k, x)
  }

  /** The keys a sequence lists. */
  ghost function Elements(ks: seq<string>): set<string> {
    set k | k in ks
  }

  /** The entry keyed by `k` contributes exactly the piece `x`. */
  ghost predicate Yields(d: Deps, opts: RequestOptions, k: string, x: string) {
    k in opts && Segment(d, k, opts[k]) == Some(x)
  }

  /** The entry keyed by `k` contributes some piece. */
  ghost predicate Emits(d: Deps, opts: RequestOptions, k: string) {
    k in opts && Segment(d, k, opts[k]).Some?
  }

  lemma DistinctTail(ks: seq<string>)
    requires Distinct(ks) && ks != []
    ensures Distinct(ks[1..]) && ks[0] !in Elements(ks[1..])
  {
    assert ks == [ks[0]] + ks[1..];
  }

  /** Adding a fresh key to a set of keys adds one to its overlap with `c` exactly when the key is in `c`. */
  lemma OverlapStep(a: string, rest: set<string>, c: set<string>)
    requires a !in rest
    ensures |({a} + rest) * c| == |rest * c| + (if a in c then 1 else 0)
  {
    if a in c {
      assert ({a} + rest) * c == {a} + rest * c;
    } else {
      assert ({a} + rest) * c == rest * c;
    }
  }

  /** One step of `Params`: the head entry's piece, if any, in front of the rest. */
  lemma ParamsStep(d: Deps, opts: RequestOptions, ks: seq<string>)
    requires ks != [] && forall i :: 0 <= i < |ks| ==> ks[i] in opts
    ensures var head := Segment(d, ks[0], opts[ks[0]]);
      Params(d, opts, ks) == (if head.Some? then [head.value] else []) + Params(d, opts, ks[1..])
  {
  }

  lemma {:induction false} ParamsCount(d: Deps, opts: RequestOptions, ks: seq<string>, x: string)
    requires forall i :: 0 <= i < |ks| ==> ks[i] in opts
    requires Distinct(ks)
    ensures multiset(Params(d, opts, ks))[x] == |Elements(ks) * Contributors(d, opts, x)|
  {
    if ks != [] {
      var tail := ks[1..];
      DistinctTail(ks);
      ParamsCount(d, opts, tail, x);
      ParamsStep(d, opts, ks);
      OverlapStep(ks[0], Elements(tail), Contributors(d, opts, x));
      assert Elements(ks) == {ks[0]} + Elements(tail);
    }
  }

  lemma {:induction false} ParamsLength(d: Deps, opts: RequestOptions, ks: seq<string>)
    requires forall i :: 0 <= i < |ks| ==> ks[i] in opts
    requires Distinct(ks)
    ensures |Params(d, opts, ks)| == |Elements(ks) * Emitted(d, opts)|
  {
    if ks != [] {
      var tail := ks[1..];
      DistinctTail(ks);
      ParamsLength(d, opts, tail);
      ParamsStep(d, opts, ks);
      OverlapStep(ks[0], Elements(tail), Emitted(d, opts));
      assert Elements(ks) == {ks[0]} + Elements(tail);
    }
  }

  /**
   * Whatever the iteration order, each piece occurs in the query exactly as many times as
   * there are entries that render to it, and there is one piece per emitting entry.
   */
  lemma QueryPieces(d: Deps, opts: RequestOptions, order: seq<string>, x: string)
    requires IsEnumeration(order, opts)
    ensures multiset(Params(d, opts, order))[x] == |Contributors(d, opts, x)|
    ensures |Params(d, opts, order)| == |Emitted(d, opts)|
  {
    ParamsCount(d, opts, order, x);
    assert Elements(order) * Contributors(d, opts, x) == Contributors(d, opts, x);
    ParamsLength(d, opts, order);
    assert Elements(order) * Emitted(d, opts) == Emitted(d, opts);
  }

  /** Every piece in the list comes from an entry of the map. */
  lemma {:induction false} ParamsFromEntries(d: Deps, opts: RequestOptions, ks: seq<string>, i: nat)
    requires forall j :: 0 <= j < |ks| ==> ks[j] in opts
    requires i < |Params(d, opts, ks)|
    ensures exists k :: k in opts && Segment(d, k, opts[k]) == Some(Params(d, opts, ks)[i])
  {
    var ps := Params(d, opts, ks);
    var head := Segment(d, ks[0], opts[ks[0]]);
    if head.Some? && i == 0 {
      assert Segment(d, ks[0], opts[ks[0]]) == Some(ps[0]);
    } else {
      var j := if head.Some? then i - 1 else i;
      ParamsFromEntries(d, opts, ks[1..], j);
      assert ps[i] == Params(d, opts, ks[1..])[j];
    }
  }

  /** A piece holds exactly one `=`, between the encoded key and the encoded value. */
  lemma SegmentSplits(d: Deps, k: string, v: Value)
    requires EscapesDelimiters(d.encode)
    requires Segment(d, k, v).Some?
    ensures Split(Segment(d, k, v).value, '=') == [d.encode(k), d.encode(Render(v, d.formatFloat).value)]
  {
    var t := Render(v, d.formatFloat).value;
    assert '=' !in d.encode(k) && '=' !in d.encode(t);
    SplitPeel(d.encode(k), d.encode(t), '=');
    SplitNoSeparator(d.encode(t), '=');
  }

  /** A query that has at least one piece splits on `&` back into its pieces. */
  lemma QuerySplits(d: Deps, opts: RequestOptions, order: seq<string>)
    requires EscapesDelimiters(d.encode)
    requires IsEnumeration(order, opts)
    requires Emitted(d, opts) != {}
    ensures Split(ToQueryString(d, opts, order), '&') == Params(d, opts, order)
  {
    var ps := Params(d, opts, order);
    QueryPieces(d, opts, order, "");
    forall i | 0 <= i < |ps|
      ensures '&' !in ps[i]
    {
      ParamsFromEntries(d, opts, order, i);
    }
    SplitJoin(ps, '&');
  }

  /** The query never holds a `?`, so the last `?` of a request URL starts it. */
  lemma QueryHasNoQuestionMark(d: Deps, opts: RequestOptions, order: seq<string>)
    requires EscapesDelimiters(d.encode)
    requires IsEnumeration(order, opts)
    ensures '?' !in ToQueryString(d, opts, order)
  {
    var ps := Params(d, opts, order);
    forall i | 0 <= i < |ps|
      ensures '?' !in ps[i]
    {
      ParamsFromEntries(d, opts, order, i);
    }
    JoinAvoids(ps, '&', '?');
  }

  /** Every piece an entry yields occurs in the query string. */
  lemma EntryInQuery(d: Deps, opts: RequestOptions, order: seq<string>, k: string)
    requires IsEnumeration(order, opts)
    requires k in opts && Segment(d, k, opts[k]).Some?
    ensures IsInfix(Segment(d, k, opts[k]).value, ToQueryString(d, opts, order))
  {
    var piece := Segment(d, k, opts[k]).value;
    var ps := Params(d, opts, order);
    assert k in Contributors(d, opts, piece);
    QueryPieces(d, opts, order, piece);
    assert piece in multiset(ps);
    var i :| 0 <= i < |ps| && ps[i] == piece;
    JoinContains(ps, '&', i);
  }
}
