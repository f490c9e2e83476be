/**
 * The typed option sets and their conversion to generic request options
 * (`ScreenshotOptions`, `PdfOptions`, `ContentOptions`, `MetadataOptions` and their
 * `to_request_options`).
 */
module Options {
  import opened Wrappers
  import opened Json
  import opened Query

  /** Rust's `u32`. */
  type U32 = x: int | 0 <= x < 0x1_0000_0000

  /** The value stored in the map, if `k` is bound. */
  function Lookup(m: RequestOptions, k: string): (r: Option<Value>)
    ensures r.Some? <==> k in m
    ensures r.Some? ==> r.value == m[k]
  {
    if k in m then Some(m[k]) else None
  }

  /** What `k` ends up bound to when `extra` is merged over a map that binds it to `derived`. */
  function Overlay(extra: Option<RequestOptions>, k: string, derived: Option<Value>): Option<Value> {
    if extra.Some? && k in extra.value then Some(extra.value[k]) else derived
  }

  /** The `additional_options` map, empty when unset. */
  function Additional(extra: Option<RequestOptions>): RequestOptions {
    extra.GetOr(map[])
  }

  /** No name of `a` occurs in `b`. */
  predicate Disjoint(a: seq<string>, b: seq<string>) {
    forall i, j :: 0 <= i < |a| && 0 <= j < |b| ==> a[i] != b[j]
  }

  lemma DistinctAppend(a: seq<string>, b: seq<string>)
    requires Distinct(a) && Distinct(b) && Disjoint(a, b)
    ensures Distinct(a + b)
  {
  }

  /** One name's line of a conversion table. */
  lemma OverlayAt(r: RequestOptions, extra: Option<RequestOptions>, es: seq<Entry>, k: string, v: Option<Value>)
    requires forall j :: Lookup(r, j) == Overlay(extra, j, EntryFor(es, j))
    requires EntryFor(es, k) == v
    ensures Lookup(r, k) == Overlay(extra, k, v)
  {
  }

  lemma DisjointAppend(a: seq<string>, b: seq<string>, c: seq<string>)
    requires Disjoint(a, b) && Disjoint(a, c)
    ensures Disjoint(a, b + c)
  {
  }

  function NumField(f: Option<U32>): Option<Value> {
    if f.Some? then Some(Num(f.value)) else None
  }

  function BoolField(f: Option<bool>): Option<Value> {
    if f.Some? then Some(Bool(f.value)) else None
  }

  function StrField(f: Option<string>): Option<Value> {
    if f.Some? then Some(Str(f.value)) else None
  }

  /** A float field counts only when `serde_json::Number::from_f64` accepts it. */
  function FloatField(f: Option<bv64>): Option<Value> {
    if f.Some? then FromF64(f.value) else None
  }

  /** One `options.insert(k, v)`, done only when the field is set. */
  function Put(m: RequestOptions, k: string, v: Option<Value>): (r: RequestOptions)
    ensures forall j :: j != k ==> Lookup(r, j) == Lookup(m, j)
    ensures Lookup(r, k) == if v.Some? then v else Lookup(m, k)
  {
    if v.Some? then m[k := v.value] else m
  }

  /**
   * The loop inserting every entry of `additional_options`; its keys are distinct, so the
   * loop's order does not matter and the result is the right-biased union.
   */
  function Merge(m: RequestOptions, extra: Option<RequestOptions>): (r: RequestOptions)
    ensures forall k :: Lookup(r, k) == Overlay(extra, k, Lookup(m, k))
  {
    if extra.Some? then m + extra.value else m
  }

  /** One fixed field: its wire name and the value it contributes, if set. */
  type Entry = (string, Option<Value>)

  /**
   * The fields' conditional inserts, applied in order: a name ends up bound to the last set
   * entry for it, or stays as it was in `m`.
   */
  function InsertAll(m: RequestOptions, es: seq<Entry>): (r: RequestOptions)
    decreases |es|
  {
    if es == [] then m else InsertAll(Put(m, es[0].0, es[0].1), es[1..])
  }

  lemma {:induction false} InsertAllLookup(m: RequestOptions, es: seq<Entry>, k: string)
    ensures Lookup(InsertAll(m, es), k) == if EntryFor(es, k).Some? then EntryFor(es, k) else Lookup(m, k)
    decreases |es|
  {
    if es != [] {
      InsertAllLookup(Put(m, es[0].0, es[0].1), es[1..], k);
    }
  }

  lemma InsertAllLookups(m: RequestOptions, es: seq<Entry>)
    ensures forall k :: Lookup(InsertAll(m, es), k) == if EntryFor(es, k).Some? then EntryFor(es, k) else Lookup(m, k)
  {
    forall k {
      InsertAllLookup(m, es, k);
    }
  }

  /** The value the last set entry named `k` contributes, if any. */
  function EntryFor(es: seq<Entry>, k: string): Option<Value> {
    if es == [] then None
    else
      var later := EntryFor(es[1..], k);
      if later.Some? then later else if es[0].0 == k && es[0].1.Some? then es[0].1 else None
  }

  predicate DistinctNames(es: seq<Entry>) {
    forall i, j :: 0 <= i < j < |es| ==> es[i].0 != es[j].0
  }

  /** Pairs each name with the value at the same position. */
  function Zip(names: seq<string>, values: seq<Option<Value>>): (es: seq<Entry>)
    requires |names| == |values|
    ensures |es| == |names|
    ensures forall i :: 0 <= i < |es| ==> es[i] == (names[i], values[i])
    ensures Distinct(names) ==> DistinctNames(es)
  {
    seq(|names|, i requires 0 <= i < |names| => (names[i], values[i]))
  }

  /** A name no entry carries gets nothing. */
  lemma {:induction false} EntryForAbsent(es: seq<Entry>, k: string)
    requires forall i :: 0 <= i < |es| ==> es[i].0 != k
    ensures EntryFor(es, k) == None
  {
    if es != [] {
      EntryForAbsent(es[1..], k);
    }
  }

  /** With distinct names, the entry for the name `es[i].0` is the `i`-th one. */
  lemma {:induction false} EntryForIndex(es: seq<Entry>, i: nat)
    requires DistinctNames(es)
    requires i < |es|
    ensures EntryFor(es, es[i].0) == es[i].1
  {
    if i == 0 {
      EntryForAbsent(es[1..], es[0].0);
    } else {
      EntryForIndex(es[1..], i - 1);
    }
  }


  /** Options for an image capture; every field is optional. */
  datatype ScreenshotOptions = ScreenshotOptions(
    vw: Option<U32>,
    vh: Option<U32>,
    scaleFactor: Option<bv64>,
    full: Option<bool>,
    delay: Option<U32>,
    waitFor: Option<string>,
    waitForId: Option<string>,
    darkMode: Option<bool>,
    transparent: Option<bool>,
    selector: Option<string>,
    selectorId: Option<string>,
    blockCookieBanners: Option<bool>,
    blockAds: Option<bool>,
    bypassBotDetection: Option<bool>,
    imageType: Option<string>,
    bestFormat: Option<bool>,
    resizeWidth: Option<U32>,
    resizeHeight: Option<U32>,
    httpAuth: Option<string>,
    userAgent: Option<string>,
    freshCapture: Option<bool>,
    additionalOptions: Option<RequestOptions>)

  /** The wire names of the fixed fields of `ScreenshotOptions`, in the source's order. */
  const ScreenshotWireNameList: seq<string> := [
    "vw", "vh", "scaleFactor", "full", "delay", "waitFor", "waitForId", "darkMode", "transparent", "selector", "selectorId", "blockCookieBanners", "blockAds", "bypassBotDetection", "type", "bestFormat", "resizeWidth", "resizeHeight", "httpAuth", "userAgent", "fresh"
  ]

  /** The same names, as a set. */
  const ScreenshotWireNames: set<string> := set k | k in ScreenshotWireNameList

  /** The values the fixed fields of `ScreenshotOptions` derive, in the same order. */
  function ScreenshotValues(o: ScreenshotOptions): seq<Option<Value>> {
    [
      NumField(o.vw),
      NumField(o.vh),
      FloatField(o.scaleFactor),
      BoolField(o.full),
      NumField(o.delay),
      StrField(o.waitFor),
      StrField(o.waitForId),
      BoolField(o.darkMode),
      BoolField(o.transparent),
      StrField(o.selector),
      StrField(o.selectorId),
      BoolField(o.blockCookieBanners),
      BoolField(o.blockAds),
      BoolField(o.bypassBotDetection),
      StrField(o.imageType),
      BoolField(o.bestFormat),
      NumField(o.resizeWidth),
      NumField(o.resizeHeight),
      StrField(o.httpAuth),
      StrField(o.userAgent),
      BoolField(o.freshCapture)
    ]
  }

  function ScreenshotEntries(o: ScreenshotOptions): seq<Entry> {
    Zip(ScreenshotWireNameList, ScreenshotValues(o))
  }

  /**
   * `ScreenshotOptions::to_request_options`: each set field inserted under its wire name, in the
   * source's order, then `additionalOptions` merged over the result.
   */
  function ScreenshotToRequestOptions(o: ScreenshotOptions): (r: RequestOptions)
    ensures forall k :: Lookup(r, k) == Overlay(o.additionalOptions, k, EntryFor(ScreenshotEntries(o), k))
  {
    InsertAllLookups(map[], ScreenshotEntries(o));
    Merge(InsertAll(map[], ScreenshotEntries(o)), o.additionalOptions)
  }

  lemma ScreenshotEntriesDistinct(o: ScreenshotOptions)
    ensures DistinctNames(ScreenshotEntries(o))
  {
    NamesDistinctScreenshot();
  }

  lemma ScreenshotChunkDistinct0()
    ensures Distinct(["vw", "vh", "scaleFactor", "full"])
  {
  }

  lemma ScreenshotChunkDistinct1()
    ensures Distinct(["delay", "waitFor", "waitForId", "darkMode"])
  {
  }

  lemma ScreenshotChunkDistinct2()
    ensures Distinct(["transparent", "selector", "selectorId", "blockCookieBanners"])
  {
  }

  lemma ScreenshotChunkDistinct3()
    ensures Distinct(["blockAds", "bypassBotDetection", "type", "bestFormat"])
  {
  }

  lemma ScreenshotChunkDistinct4()
    ensures Distinct(["resizeWidth", "resizeHeight", "httpAuth", "userAgent"])
  {
  }

  lemma ScreenshotChunkDistinct5()
    ensures Distinct(["fresh"])
  {
  }

  lemma ScreenshotChunksDisjoint01()
    ensures Disjoint(["vw", "vh", "scaleFactor", "full"], ["delay", "waitFor", "waitForId", "darkMode"])
  {
  }

  lemma ScreenshotChunksDisjoint02()
    ensures Disjoint(["vw", "vh", "scaleFactor", "full"], ["transparent", "selector", "selectorId", "blockCookieBanners"])
  {
  }

  lemma ScreenshotChunksDisjoint03()
    ensures Disjoint(["vw", "vh", "scaleFactor", "full"], ["blockAds", "bypassBotDetection", "type", "bestFormat"])
  {
  }

  lemma ScreenshotChunksDisjoint04()
    ensures Disjoint(["vw", "vh", "scaleFactor", "full"], ["resizeWidth", "resizeHeight", "httpAuth", "userAgent"])
  {
  }

  lemma ScreenshotChunksDisjoint05()
    ensures Disjoint(["vw", "vh", "scaleFactor", "full"], ["fresh"])
  {
  }

  lemma ScreenshotChunksDisjoint12()
    ensures Disjoint(["delay", "waitFor", "waitForId", "darkMode"], ["transparent", "selector", "selectorId", "blockCookieBanners"])
  {
  }

  lemma ScreenshotChunksDisjoint13()
    ensures Disjoint(["delay", "waitFor", "waitForId", "darkMode"], ["blockAds", "bypassBotDetection", "type", "bestFormat"])
  {
  }

  lemma ScreenshotChunksDisjoint14()
    ensures Disjoint(["delay", "waitFor", "waitForId", "darkMode"], ["resizeWidth", "resizeHeight", "httpAuth", "userAgent"])
  {
  }

  lemma ScreenshotChunksDisjoint15()
    ensures Disjoint(["delay", "waitFor", "waitForId", "darkMode"], ["fresh"])
  {
  }

  lemma ScreenshotChunksDisjoint23()
    ensures Disjoint(["transparent", "selector", "selectorId", "blockCookieBanners"], ["blockAds", "bypassBotDetection", "type", "bestFormat"])
  {
  }

  lemma ScreenshotChunksDisjoint24()
    ensures Disjoint(["transparent", "selector", "selectorId", "blockCookieBanners"], ["resizeWidth", "resizeHeight", "httpAuth", "userAgent"])
  {
  }

  lemma ScreenshotChunksDisjoint25()
    ensures Disjoint(["transparent", "selector", "selectorId", "blockCookieBanners"], ["fresh"])
  {
  }

  lemma ScreenshotChunksDisjoint34()
    ensures Disjoint(["blockAds", "bypassBotDetection", "type", "bestFormat"], ["resizeWidth", "resizeHeight", "httpAuth", "userAgent"])
  {
  }

  lemma ScreenshotChunksDisjoint35()
    ensures Disjoint(["blockAds", "bypassBotDetection", "type", "bestFormat"], ["fresh"])
  {
  }

  lemma ScreenshotChunksDisjoint45()
    ensures Disjoint(["resizeWidth", "resizeHeight", "httpAuth", "userAgent"], ["fresh"])
  {
  }

  /** The wire names of `ScreenshotOptions` are pairwise different, shown chunk by chunk. */
  lemma NamesDistinctScreenshot()
    ensures Distinct(ScreenshotWireNameList)
  {
    var c0 := ["vw", "vh", "scaleFactor", "full"];
    var c1 := ["delay", "waitFor", "waitForId", "darkMode"];
    var c2 := ["transparent", "selector", "selectorId", "blockCookieBanners"];
    var c3 := ["blockAds", "bypassBotDetection", "type", "bestFormat"];
    var c4 := ["resizeWidth", "resizeHeight", "httpAuth", "userAgent"];
    var c5 := ["fresh"];
    ScreenshotChunkDistinct0();
    ScreenshotChunkDistinct1();
    ScreenshotChunkDistinct2();
    ScreenshotChunkDistinct3();
    ScreenshotChunkDistinct4();
    ScreenshotChunkDistinct5();
    ScreenshotChunksDisjoint01();
    ScreenshotChunksDisjoint02();
    ScreenshotChunksDisjoint03();
    ScreenshotChunksDisjoint04();
    ScreenshotChunksDisjoint05();
    ScreenshotChunksDisjoint12();
    ScreenshotChunksDisjoint13();
    ScreenshotChunksDisjoint14();
    ScreenshotChunksDisjoint15();
    ScreenshotChunksDisjoint23();
    ScreenshotChunksDisjoint24();
    ScreenshotChunksDisjoint25();
    ScreenshotChunksDisjoint34();
    ScreenshotChunksDisjoint35();
    ScreenshotChunksDisjoint45();
    var t5 := c5;
    var t4 := c4 + t5;
    var t3 := c3 + t4;
    var t2 := c2 + t3;
    var t1 := c1 + t2;
    var t0 := c0 + t1;
    DistinctAppend(c4, t5);
    DisjointAppend(c3, c4, t5);
    DistinctAppend(c3, t4);
    DisjointAppend(c2, c4, t5);
    DisjointAppend(c2, c3, t4);
    DistinctAppend(c2, t3);
    DisjointAppend(c1, c4, t5);
    DisjointAppend(c1, c3, t4);
    DisjointAppend(c1, c2, t3);
    DistinctAppend(c1, t2);
    DisjointAppend(c0, c4, t5);
    DisjointAppend(c0, c3, t4);
    DisjointAppend(c0, c2, t3);
    DisjointAppend(c0, c1, t2);
    DistinctAppend(c0, t1);
    assert ScreenshotWireNameList == t0;
  }

  lemma ScreenshotEntriesByName0(o: ScreenshotOptions)
    ensures EntryFor(ScreenshotEntries(o), "vw") == NumField(o.vw)
    ensures EntryFor(ScreenshotEntries(o), "vh") == NumField(o.vh)
    ensures EntryFor(ScreenshotEntries(o), "scaleFactor") == FloatField(o.scaleFactor)
    ensures EntryFor(ScreenshotEntries(o), "full") == BoolField(o.full)
  {
    ScreenshotEntriesDistinct(o);
    EntryForIndex(ScreenshotEntries(o), 0);
    EntryForIndex(ScreenshotEntries(o), 1);
    EntryForIndex(ScreenshotEntries(o), 2);
    EntryForIndex(ScreenshotEntries(o), 3);
  }

  lemma ScreenshotEntriesByName1(o: ScreenshotOptions)
    ensures EntryFor(ScreenshotEntries(o), "delay") == NumField(o.delay)
    ensures EntryFor(ScreenshotEntries(o), "waitFor") == StrField(o.waitFor)
    ensures EntryFor(ScreenshotEntries(o), "waitForId") == StrField(o.waitForId)
    ensures EntryFor(ScreenshotEntries(o), "darkMode") == BoolField(o.darkMode)
  {
    ScreenshotEntriesDistinct(o);
    EntryForIndex(ScreenshotEntries(o), 4);
    EntryForIndex(ScreenshotEntries(o), 5);
    EntryForIndex(ScreenshotEntries(o), 6);
    EntryForIndex(ScreenshotEntries(o), 7);
  }

  lemma ScreenshotEntriesByName2(o: ScreenshotOptions)
    ensures EntryFor(ScreenshotEntries(o), "transparent") == BoolField(o.transparent)
    ensures EntryFor(ScreenshotEntries(o), "selector") == StrField(o.selector)
    ensures EntryFor(ScreenshotEntries(o), "selectorId") == StrField(o.selectorId)
    ensures EntryFor(ScreenshotEntries(o), "blockCookieBanners") == BoolField(o.blockCookieBanners)
  {
    ScreenshotEntriesDistinct(o);
    EntryForIndex(ScreenshotEntries(o), 8);
    EntryForIndex(ScreenshotEntries(o), 9);
    EntryForIndex(ScreenshotEntries(o), 10);
    EntryForIndex(ScreenshotEntries(o), 11);
  }

  lemma ScreenshotEntriesByName3(o: ScreenshotOptions)
    ensures EntryFor(ScreenshotEntries(o), "blockAds") == BoolField(o.blockAds)
    ensures EntryFor(ScreenshotEntries(o), "bypassBotDetection") == BoolField(o.bypassBotDetection)
    ensures EntryFor(ScreenshotEntries(o), "type") == StrField(o.imageType)
    ensures EntryFor(ScreenshotEntries(o), "bestFormat") == BoolField(o.bestFormat)
  {
    ScreenshotEntriesDistinct(o);
    EntryForIndex(ScreenshotEntries(o), 12);
    EntryForIndex(ScreenshotEntries(o), 13);
    EntryForIndex(ScreenshotEntries(o), 14);
    EntryForIndex(ScreenshotEntries(o), 15);
  }

  lemma ScreenshotEntriesByName4(o: ScreenshotOptions)
    ensures EntryFor(ScreenshotEntries(o), "resizeWidth") == NumField(o.resizeWidth)
    ensures EntryFor(ScreenshotEntries(o), "resizeHeight") == NumField(o.resizeHeight)
    ensures EntryFor(ScreenshotEntries(o), "httpAuth") == StrField(o.httpAuth)
    ensures EntryFor(ScreenshotEntries(o), "userAgent") == StrField(o.userAgent)
  {
    ScreenshotEntriesDistinct(o);
    EntryForIndex(ScreenshotEntries(o), 16);
    EntryForIndex(ScreenshotEntries(o), 17);
    EntryForIndex(ScreenshotEntries(o), 18);
    EntryForIndex(ScreenshotEntries(o), 19);
  }

  lemma ScreenshotEntriesByName5(o: ScreenshotOptions)
    ensures EntryFor(ScreenshotEntries(o), "fresh") == BoolField(o.freshCapture)
  {
    ScreenshotEntriesDistinct(o);
    EntryForIndex(ScreenshotEntries(o), 20);
  }

  lemma ScreenshotEntriesAbsent(o: ScreenshotOptions)
    ensures forall k :: k !in ScreenshotWireNames ==> EntryFor(ScreenshotEntries(o), k) == None
  {
    var es := ScreenshotEntries(o);
    forall k | k !in ScreenshotWireNames
      ensures EntryFor(es, k) == None
    {
      EntryForAbsent(es, k);
    }
  }

  /** Each fixed field of `ScreenshotOptions` is the entry for its wire name. */
  lemma ScreenshotEntriesByName(o: ScreenshotOptions)
    ensures EntryFor(ScreenshotEntries(o), "vw") == NumField(o.vw)
    ensures EntryFor(ScreenshotEntries(o), "vh") == NumField(o.vh)
    ensures EntryFor(ScreenshotEntries(o), "scaleFactor") == FloatField(o.scaleFactor)
    ensures EntryFor(ScreenshotEntries(o), "full") == BoolField(o.full)
    ensures EntryFor(ScreenshotEntries(o), "delay") == NumField(o.delay)
    ensures EntryFor(ScreenshotEntries(o), "waitFor") == StrField(o.waitFor)
    ensures EntryFor(ScreenshotEntries(o), "waitForId") == StrField(o.waitForId)
    ensures EntryFor(ScreenshotEntries(o), "darkMode") == BoolField(o.darkMode)
    ensures EntryFor(ScreenshotEntries(o), "transparent") == BoolField(o.transparent)
    ensures EntryFor(ScreenshotEntries(o), "selector") == StrField(o.selector)
    ensures EntryFor(ScreenshotEntries(o), "selectorId") == StrField(o.selectorId)
    ensures EntryFor(ScreenshotEntries(o), "blockCookieBanners") == BoolField(o.blockCookieBanners)
    ensures EntryFor(ScreenshotEntries(o), "blockAds") == BoolField(o.blockAds)
    ensures EntryFor(ScreenshotEntries(o), "bypassBotDetection") == BoolField(o.bypassBotDetection)
    ensures EntryFor(ScreenshotEntries(o), "type") == StrField(o.imageType)
    ensures EntryFor(ScreenshotEntries(o), "bestFormat") == BoolField(o.bestFormat)
    ensures EntryFor(ScreenshotEntries(o), "resizeWidth") == NumField(o.resizeWidth)
    ensures EntryFor(ScreenshotEntries(o), "resizeHeight") == NumField(o.resizeHeight)
    ensures EntryFor(ScreenshotEntries(o), "httpAuth") == StrField(o.httpAuth)
    ensures EntryFor(ScreenshotEntries(o), "userAgent") == StrField(o.userAgent)
    ensures EntryFor(ScreenshotEntries(o), "fresh") == BoolField(o.freshCapture)
    ensures forall k :: k !in ScreenshotWireNames ==> EntryFor(ScreenshotEntries(o), k) == None
  {
    ScreenshotEntriesByName0(o);
    ScreenshotEntriesByName1(o);
    ScreenshotEntriesByName2(o);
    ScreenshotEntriesByName3(o);
    ScreenshotEntriesByName4(o);
    ScreenshotEntriesByName5(o);
    ScreenshotEntriesAbsent(o);
  }

  lemma ScreenshotWireNameTable0(o: ScreenshotOptions)
    ensures Lookup(ScreenshotToRequestOptions(o), "vw") == Overlay(o.additionalOptions, "vw", NumField(o.vw))
    ensures Lookup(ScreenshotToRequestOptions(o), "vh") == Overlay(o.additionalOptions, "vh", NumField(o.vh))
    ensures Lookup(ScreenshotToRequestOptions(o), "scaleFactor") == Overlay(o.additionalOptions, "scaleFactor", FloatField(o.scaleFactor))
    ensures Lookup(ScreenshotToRequestOptions(o), "full") == Overlay(o.additionalOptions, "full", BoolField(o.full))
  {
    var r := ScreenshotToRequestOptions(o);
    var es := ScreenshotEntries(o);
    ScreenshotEntriesByName0(o);
    OverlayAt(r, o.additionalOptions, es, "vw", NumField(o.vw));
    OverlayAt(r, o.additionalOptions, es, "vh", NumField(o.vh));
    OverlayAt(r, o.additionalOptions, es, "scaleFactor", FloatField(o.scaleFactor));
    OverlayAt(r, o.additionalOptions, es, "full", BoolField(o.full));
  }

  lemma ScreenshotWireNameTable1(o: ScreenshotOptions)
    ensures Lookup(ScreenshotToRequestOptions(o), "delay") == Overlay(o.additionalOptions, "delay", NumField(o.delay))
    ensures Lookup(ScreenshotToRequestOptions(o), "waitFor") == Overlay(o.additionalOptions, "waitFor", StrField(o.waitFor))
    ensures Lookup(ScreenshotToRequestOptions(o), "waitForId") == Overlay(o.additionalOptions, "waitForId", StrField(o.waitForId))
    ensures Lookup(ScreenshotToRequestOptions(o), "darkMode") == Overlay(o.additionalOptions, "darkMode", BoolField(o.darkMode))
  {
    var r := ScreenshotToRequestOptions(o);
    var es := ScreenshotEntries(o);
    ScreenshotEntriesByName1(o);
    OverlayAt(r, o.additionalOptions, es, "delay", NumField(o.delay));
    OverlayAt(r, o.additionalOptions, es, "waitFor", StrField(o.waitFor));
    OverlayAt(r, o.additionalOptions, es, "waitForId", StrField(o.waitForId));
    OverlayAt(r, o.additionalOptions, es, "darkMode", BoolField(o.darkMode));
  }

  lemma ScreenshotWireNameTable2(o: ScreenshotOptions)
    ensures Lookup(ScreenshotToRequestOptions(o), "transparent") == Overlay(o.additionalOptions, "transparent", BoolField(o.transparent))
    ensures Lookup(ScreenshotToRequestOptions(o), "selector") == Overlay(o.additionalOptions, "selector", StrField(o.selector))
    ensures Lookup(ScreenshotToRequestOptions(o), "selectorId") == Overlay(o.additionalOptions, "selectorId", StrField(o.selectorId))
    ensures Lookup(ScreenshotToRequestOptions(o), "blockCookieBanners") == Overlay(o.additionalOptions, "blockCookieBanners", BoolField(o.blockCookieBanners))
  {
    var r := ScreenshotToRequestOptions(o);
    var es := ScreenshotEntries(o);
    ScreenshotEntriesByName2(o);
    OverlayAt(r, o.additionalOptions, es, "transparent", BoolField(o.transparent));
    OverlayAt(r, o.additionalOptions, es, "selector", StrField(o.selector));
    OverlayAt(r, o.additionalOptions, es, "selectorId", StrField(o.selectorId));
    OverlayAt(r, o.additionalOptions, es, "blockCookieBanners", BoolField(o.blockCookieBanners));
  }

  lemma ScreenshotWireNameTable3(o: ScreenshotOptions)
    ensures Lookup(ScreenshotToRequestOptions(o), "blockAds") == Overlay(o.additionalOptions, "blockAds", BoolField(o.blockAds))
    ensures Lookup(ScreenshotToRequestOptions(o), "bypassBotDetection") == Overlay(o.additionalOptions, "bypassBotDetection", BoolField(o.bypassBotDetection))
    ensures Lookup(ScreenshotToRequestOptions(o), "type") == Overlay(o.additionalOptions, "type", StrField(o.imageType))
    ensures Lookup(ScreenshotToRequestOptions(o), "bestFormat") == Overlay(o.additionalOptions, "bestFormat", BoolField(o.bestFormat))
  {
    var r := ScreenshotToRequestOptions(o);
    var es := ScreenshotEntries(o);
    ScreenshotEntriesByName3(o);
    OverlayAt(r, o.additionalOptions, es, "blockAds", BoolField(o.blockAds));
    OverlayAt(r, o.additionalOptions, es, "bypassBotDetection", BoolField(o.bypassBotDetection));
    OverlayAt(r, o.additionalOptions, es, "type", StrField(o.imageType));
    OverlayAt(r, o.additionalOptions, es, "bestFormat", BoolField(o.bestFormat));
  }

  lemma ScreenshotWireNameTable4(o: ScreenshotOptions)
    ensures Lookup(ScreenshotToRequestOptions(o), "resizeWidth") == Overlay(o.additionalOptions, "resizeWidth", NumField(o.resizeWidth))
    ensures Lookup(ScreenshotToRequestOptions(o), "resizeHeight") == Overlay(o.additionalOptions, "resizeHeight", NumField(o.resizeHeight))
    ensures Lookup(ScreenshotToRequestOptions(o), "httpAuth") == Overlay(o.additionalOptions, "httpAuth", StrField(o.httpAuth))
    ensures Lookup(ScreenshotToRequestOptions(o), "userAgent") == Overlay(o.additionalOptions, "userAgent", StrField(o.userAgent))
  {
    var r := ScreenshotToRequestOptions(o);
    var es := ScreenshotEntries(o);
    ScreenshotEntriesByName4(o);
    OverlayAt(r, o.additionalOptions, es, "resizeWidth", NumField(o.resizeWidth));
    OverlayAt(r, o.additionalOptions, es, "resizeHeight", NumField(o.resizeHeight));
    OverlayAt(r, o.additionalOptions, es, "httpAuth", StrField(o.httpAuth));
    OverlayAt(r, o.additionalOptions, es, "userAgent", StrField(o.userAgent));
  }

  lemma ScreenshotWireNameTable5(o: ScreenshotOptions)
    ensures Lookup(ScreenshotToRequestOptions(o), "fresh") == Overlay(o.additionalOptions, "fresh", BoolField(o.freshCapture))
  {
    var r := ScreenshotToRequestOptions(o);
    var es := ScreenshotEntries(o);
    ScreenshotEntriesByName5(o);
    OverlayAt(r, o.additionalOptions, es, "fresh", BoolField(o.freshCapture));
  }

  lemma ScreenshotWireNameTableRest(o: ScreenshotOptions)
    ensures forall k :: k !in ScreenshotWireNames ==> Lookup(ScreenshotToRequestOptions(o), k) == Lookup(Additional(o.additionalOptions), k)
    ensures forall k :: k in ScreenshotToRequestOptions(o) ==> k in ScreenshotWireNames || k in Additional(o.additionalOptions)
  {
    ScreenshotEntriesAbsent(o);
  }

  /**
   * The wire-name table of `ScreenshotOptions`: each fixed field lands under its wire name when set
   * and contributes nothing when unset, an additional option wins over it, and every
   * other name is bound exactly when, and as, the additional options bind it.
   */
  lemma ScreenshotWireNameTable(o: ScreenshotOptions)
    ensures Lookup(ScreenshotToRequestOptions(o), "vw") == Overlay(o.additionalOptions, "vw", NumField(o.vw))
    ensures Lookup(ScreenshotToRequestOptions(o), "vh") == Overlay(o.additionalOptions, "vh", NumField(o.vh))
    ensures Lookup(ScreenshotToRequestOptions(o), "scaleFactor") == Overlay(o.additionalOptions, "scaleFactor", FloatField(o.scaleFactor))
    ensures Lookup(ScreenshotToRequestOptions(o), "full") == Overlay(o.additionalOptions, "full", BoolField(o.full))
    ensures Lookup(ScreenshotToRequestOptions(o), "delay") == Overlay(o.additionalOptions, "delay", NumField(o.delay))
    ensures Lookup(ScreenshotToRequestOptions(o), "waitFor") == Overlay(o.additionalOptions, "waitFor", StrField(o.waitFor))
    ensures Lookup(ScreenshotToRequestOptions(o), "waitForId") == Overlay(o.additionalOptions, "waitForId", StrField(o.waitForId))
    ensures Lookup(ScreenshotToRequestOptions(o), "darkMode") == Overlay(o.additionalOptions, "darkMode", BoolField(o.darkMode))
    ensures Lookup(ScreenshotToRequestOptions(o), "transparent") == Overlay(o.additionalOptions, "transparent", BoolField(o.transparent))
    ensures Lookup(ScreenshotToRequestOptions(o), "selector") == Overlay(o.additionalOptions, "selector", StrField(o.selector))
    ensures Lookup(ScreenshotToRequestOptions(o), "selectorId") == Overlay(o.additionalOptions, "selectorId", StrField(o.selectorId))
    ensures Lookup(ScreenshotToRequestOptions(o), "blockCookieBanners") == Overlay(o.additionalOptions, "blockCookieBanners", BoolField(o.blockCookieBanners))
    ensures Lookup(ScreenshotToRequestOptions(o), "blockAds") == Overlay(o.additionalOptions, "blockAds", BoolField(o.blockAds))
    ensures Lookup(ScreenshotToRequestOptions(o), "bypassBotDetection") == Overlay(o.additionalOptions, "bypassBotDetection", BoolField(o.bypassBotDetection))
    ensures Lookup(ScreenshotToRequestOptions(o), "type") == Overlay(o.additionalOptions, "type", StrField(o.imageType))
    ensures Lookup(ScreenshotToRequestOptions(o), "bestFormat") == Overlay(o.additionalOptions, "bestFormat", BoolField(o.bestFormat))
    ensures Lookup(ScreenshotToRequestOptions(o), "resizeWidth") == Overlay(o.additionalOptions, "resizeWidth", NumField(o.resizeWidth))
    ensures Lookup(ScreenshotToRequestOptions(o), "resizeHeight") == Overlay(o.additionalOptions, "resizeHeight", NumField(o.resizeHeight))
    ensures Lookup(ScreenshotToRequestOptions(o), "httpAuth") == Overlay(o.additionalOptions, "httpAuth", StrField(o.httpAuth))
    ensures Lookup(ScreenshotToRequestOptions(o), "userAgent") == Overlay(o.additionalOptions, "userAgent", StrField(o.userAgent))
    ensures Lookup(ScreenshotToRequestOptions(o), "fresh") == Overlay(o.additionalOptions, "fresh", BoolField(o.freshCapture))
    ensures forall k :: k !in ScreenshotWireNames ==> Lookup(ScreenshotToRequestOptions(o), k) == Lookup(Additional(o.additionalOptions), k)
    ensures forall k :: k in ScreenshotToRequestOptions(o) ==> k in ScreenshotWireNames || k in Additional(o.additionalOptions)
  {
    ScreenshotWireNameTable0(o);
    ScreenshotWireNameTable1(o);
    ScreenshotWireNameTable2(o);
    ScreenshotWireNameTable3(o);
    ScreenshotWireNameTable4(o);
    ScreenshotWireNameTable5(o);
    ScreenshotWireNameTableRest(o);
  }

  /** Options for a PDF capture. */
  datatype PdfOptions = PdfOptions(
    httpAuth: Option<string>,
    userAgent: Option<string>,
    width: Option<string>,
    height: Option<string>,
    format: Option<string>,
    marginTop: Option<string>,
    marginRight: Option<string>,
    marginBottom: Option<string>,
    marginLeft: Option<string>,
    scale: Option<bv64>,
    landscape: Option<bool>,
    delay: Option<U32>,
    fileName: Option<string>,
    s3Acl: Option<string>,
    s3Redirect: Option<bool>,
    timestamp: Option<bool>,
    additionalOptions: Option<RequestOptions>)

  /** The wire names of the fixed fields of `PdfOptions`, in the source's order. */
  const PdfWireNameList: seq<string> := [
    "httpAuth", "userAgent", "width", "height", "format", "marginTop", "marginRight", "marginBottom", "marginLeft", "scale", "landscape", "delay", "fileName", "s3Acl", "s3Redirect", "timestamp"
  ]

  /** The same names, as a set. */
  const PdfWireNames: set<string> := set k | k in PdfWireNameList

  /** The values the fixed fields of `PdfOptions` derive, in the same order. */
  function PdfValues(o: PdfOptions): seq<Option<Value>> {
    [
      StrField(o.httpAuth),
      StrField(o.userAgent),
      StrField(o.width),
      StrField(o.height),
      StrField(o.format),
      StrField(o.marginTop),
      StrField(o.marginRight),
      StrField(o.marginBottom),
      StrField(o.marginLeft),
      FloatField(o.scale),
      BoolField(o.landscape),
      NumField(o.delay),
      StrField(o.fileName),
      StrField(o.s3Acl),
      BoolField(o.s3Redirect),
      BoolField(o.timestamp)
    ]
  }

  function PdfEntries(o: PdfOptions): seq<Entry> {
    Zip(PdfWireNameList, PdfValues(o))
  }

  /**
   * `PdfOptions::to_request_options`: each set field inserted under its wire name, in the
   * source's order, then `additionalOptions` merged over the result.
   */
  function PdfToRequestOptions(o: PdfOptions): (r: RequestOptions)
    ensures forall k :: Lookup(r, k) == Overlay(o.additionalOptions, k, EntryFor(PdfEntries(o), k))
  {
    InsertAllLookups(map[], PdfEntries(o));
    Merge(InsertAll(map[], PdfEntries(o)), o.additionalOptions)
  }

  lemma PdfEntriesDistinct(o: PdfOptions)
    ensures DistinctNames(PdfEntries(o))
  {
    NamesDistinctPdf();
  }

  lemma PdfChunkDistinct0()
    ensures Distinct(["httpAuth", "userAgent", "width", "height"])
  {
  }

  lemma PdfChunkDistinct1()
    ensures Distinct(["format", "marginTop", "marginRight", "marginBottom"])
  {
  }

  lemma PdfChunkDistinct2()
    ensures Distinct(["marginLeft", "scale", "landscape", "delay"])
  {
  }

  lemma PdfChunkDistinct3()
    ensures Distinct(["fileName", "s3Acl", "s3Redirect", "timestamp"])
  {
  }

  lemma PdfChunksDisjoint01()
    ensures Disjoint(["httpAuth", "userAgent", "width", "height"], ["format", "marginTop", "marginRight", "marginBottom"])
  {
  }

  lemma PdfChunksDisjoint02()
    ensures Disjoint(["httpAuth", "userAgent", "width", "height"], ["marginLeft", "scale", "landscape", "delay"])
  {
  }

  lemma PdfChunksDisjoint03()
    ensures Disjoint(["httpAuth", "userAgent", "width", "height"], ["fileName", "s3Acl", "s3Redirect", "timestamp"])
  {
  }

  lemma PdfChunksDisjoint12()
    ensures Disjoint(["format", "marginTop", "marginRight", "marginBottom"], ["marginLeft", "scale", "landscape", "delay"])
  {
  }

  lemma PdfChunksDisjoint13()
    ensures Disjoint(["format", "marginTop", "marginRight", "marginBottom"], ["fileName", "s3Acl", "s3Redirect", "timestamp"])
  {
  }

  lemma PdfChunksDisjoint23()
    ensures Disjoint(["marginLeft", "scale", "landscape", "delay"], ["fileName", "s3Acl", "s3Redirect", "timestamp"])
  {
  }

  /** The wire names of `PdfOptions` are pairwise different, shown chunk by chunk. */
  lemma NamesDistinctPdf()
    ensures Distinct(PdfWireNameList)
  {
    var c0 := ["httpAuth", "userAgent", "width", "height"];
    var c1 := ["format", "marginTop", "marginRight", "marginBottom"];
    var c2 := ["marginLeft", "scale", "landscape", "delay"];
    var c3 := ["fileName", "s3Acl", "s3Redirect", "timestamp"];
    PdfChunkDistinct0();
    PdfChunkDistinct1();
    PdfChunkDistinct2();
    PdfChunkDistinct3();
    PdfChunksDisjoint01();
    PdfChunksDisjoint02();
    PdfChunksDisjoint03();
    PdfChunksDisjoint12();
    PdfChunksDisjoint13();
    PdfChunksDisjoint23();
    var t3 := c3;
    var t2 := c2 + t3;
    var t1 := c1 + t2;
    var t0 := c0 + t1;
    DistinctAppend(c2, t3);
    DisjointAppend(c1, c2, t3);
    DistinctAppend(c1, t2);
    DisjointAppend(c0, c2, t3);
    DisjointAppend(c0, c1, t2);
    DistinctAppend(c0, t1);
    assert PdfWireNameList == t0;
  }

  lemma PdfEntriesByName0(o: PdfOptions)
    ensures EntryFor(PdfEntries(o), "httpAuth") == StrField(o.httpAuth)
    ensures EntryFor(PdfEntries(o), "userAgent") == StrField(o.userAgent)
    ensures EntryFor(PdfEntries(o), "width") == StrField(o.width)
    ensures EntryFor(PdfEntries(o), "height") == StrField(o.height)
  {
    PdfEntriesDistinct(o);
    EntryForIndex(PdfEntries(o), 0);
    EntryForIndex(PdfEntries(o), 1);
    EntryForIndex(PdfEntries(o), 2);
    EntryForIndex(PdfEntries(o), 3);
  }

  lemma PdfEntriesByName1(o: PdfOptions)
    ensures EntryFor(PdfEntries(o), "format") == StrField(o.format)
    ensures EntryFor(PdfEntries(o), "marginTop") == StrField(o.marginTop)
    ensures EntryFor(PdfEntries(o), "marginRight") == StrField(o.marginRight)
    ensures EntryFor(PdfEntries(o), "marginBottom") == StrField(o.marginBottom)
  {
    PdfEntriesDistinct(o);
    EntryForIndex(PdfEntries(o), 4);
    EntryForIndex(PdfEntries(o), 5);
    EntryForIndex(PdfEntries(o), 6);
    EntryForIndex(PdfEntries(o), 7);
  }

  lemma PdfEntriesByName2(o: PdfOptions)
    ensures EntryFor(PdfEntries(o), "marginLeft") == StrField(o.marginLeft)
    ensures EntryFor(PdfEntries(o), "scale") == FloatField(o.scale)
    ensures EntryFor(PdfEntries(o), "landscape") == BoolField(o.landscape)
    ensures EntryFor(PdfEntries(o), "delay") == NumField(o.delay)
  {
    PdfEntriesDistinct(o);
    EntryForIndex(PdfEntries(o), 8);
    EntryForIndex(PdfEntries(o), 9);
    EntryForIndex(PdfEntries(o), 10);
    EntryForIndex(PdfEntries(o), 11);
  }

  lemma PdfEntriesByName3(o: PdfOptions)
    ensures EntryFor(PdfEntries(o), "fileName") == StrField(o.fileName)
    ensures EntryFor(PdfEntries(o), "s3Acl") == StrField(o.s3Acl)
    ensures EntryFor(PdfEntries(o), "s3Redirect") == BoolField(o.s3Redirect)
    ensures EntryFor(PdfEntries(o), "timestamp") == BoolField(o.timestamp)
  {
    PdfEntriesDistinct(o);
    EntryForIndex(PdfEntries(o), 12);
    EntryForIndex(PdfEntries(o), 13);
    EntryForIndex(PdfEntries(o), 14);
    EntryForIndex(PdfEntries(o), 15);
  }

  lemma PdfEntriesAbsent(o: PdfOptions)
    ensures forall k :: k !in PdfWireNames ==> EntryFor(PdfEntries(o), k) == None
  {
    var es := PdfEntries(o);
    forall k | k !in PdfWireNames
      ensures EntryFor(es, k) == None
    {
      EntryForAbsent(es, k);
    }
  }

  /** Each fixed field of `PdfOptions` is the entry for its wire name. */
  lemma PdfEntriesByName(o: PdfOptions)
    ensures EntryFor(PdfEntries(o), "httpAuth") == StrField(o.httpAuth)
    ensures EntryFor(PdfEntries(o), "userAgent") == StrField(o.userAgent)
    ensures EntryFor(PdfEntries(o), "width") == StrField(o.width)
    ensures EntryFor(PdfEntries(o), "height") == StrField(o.height)
    ensures EntryFor(PdfEntries(o), "format") == StrField(o.format)
    ensures EntryFor(PdfEntries(o), "marginTop") == StrField(o.marginTop)
    ensures EntryFor(PdfEntries(o), "marginRight") == StrField(o.marginRight)
    ensures EntryFor(PdfEntries(o), "marginBottom") == StrField(o.marginBottom)
    ensures EntryFor(PdfEntries(o), "marginLeft") == StrField(o.marginLeft)
    ensures EntryFor(PdfEntries(o), "scale") == FloatField(o.scale)
    ensures EntryFor(PdfEntries(o), "landscape") == BoolField(o.landscape)
    ensures EntryFor(PdfEntries(o), "delay") == NumField(o.delay)
    ensures EntryFor(PdfEntries(o), "fileName") == StrField(o.fileName)
    ensures EntryFor(PdfEntries(o), "s3Acl") == StrField(o.s3Acl)
    ensures EntryFor(PdfEntries(o), "s3Redirect") == BoolField(o.s3Redirect)
    ensures EntryFor(PdfEntries(o), "timestamp") == BoolField(o.timestamp)
    ensures forall k :: k !in PdfWireNames ==> EntryFor(PdfEntries(o), k) == None
  {
    PdfEntriesByName0(o);
    PdfEntriesByName1(o);
    PdfEntriesByName2(o);
    PdfEntriesByName3(o);
    PdfEntriesAbsent(o);
  }

  lemma PdfWireNameTable0(o: PdfOptions)
    ensures Lookup(PdfToRequestOptions(o), "httpAuth") == Overlay(o.additionalOptions, "httpAuth", StrField(o.httpAuth))
    ensures Lookup(PdfToRequestOptions(o), "userAgent") == Overlay(o.additionalOptions, "userAgent", StrField(o.userAgent))
    ensures Lookup(PdfToRequestOptions(o), "width") == Overlay(o.additionalOptions, "width", StrField(o.width))
    ensures Lookup(PdfToRequestOptions(o), "height") == Overlay(o.additionalOptions, "height", StrField(o.height))
  {
    var r := PdfToRequestOptions(o);
    var es := PdfEntries(o);
    PdfEntriesByName0(o);
    OverlayAt(r, o.additionalOptions, es, "httpAuth", StrField(o.httpAuth));
    OverlayAt(r, o.additionalOptions, es, "userAgent", StrField(o.userAgent));
    OverlayAt(r, o.additionalOptions, es, "width", StrField(o.width));
    OverlayAt(r, o.additionalOptions, es, "height", StrField(o.height));
  }

  lemma PdfWireNameTable1(o: PdfOptions)
    ensures Lookup(PdfToRequestOptions(o), "format") == Overlay(o.additionalOptions, "format", StrField(o.format))
    ensures Lookup(PdfToRequestOptions(o), "marginTop") == Overlay(o.additionalOptions, "marginTop", StrField(o.marginTop))
    ensures Lookup(PdfToRequestOptions(o), "marginRight") == Overlay(o.additionalOptions, "marginRight", StrField(o.marginRight))
    ensures Lookup(PdfToRequestOptions(o), "marginBottom") == Overlay(o.additionalOptions, "marginBottom", StrField(o.marginBottom))
  {
    var r := PdfToRequestOptions(o);
    var es := PdfEntries(o);
    PdfEntriesByName1(o);
    OverlayAt(r, o.additionalOptions, es, "format", StrField(o.format));
    OverlayAt(r, o.additionalOptions, es, "marginTop", StrField(o.marginTop));
    OverlayAt(r, o.additionalOptions, es, "marginRight", StrField(o.marginRight));
    OverlayAt(r, o.additionalOptions, es, "marginBottom", StrField(o.marginBottom));
  }

  lemma PdfWireNameTable2(o: PdfOptions)
    ensures Lookup(PdfToRequestOptions(o), "marginLeft") == Overlay(o.additionalOptions, "marginLeft", StrField(o.marginLeft))
    ensures Lookup(PdfToRequestOptions(o), "scale") == Overlay(o.additionalOptions, "scale", FloatField(o.scale))
    ensures Lookup(PdfToRequestOptions(o), "landscape") == Overlay(o.additionalOptions, "landscape", BoolField(o.landscape))
    ensures Lookup(PdfToRequestOptions(o), "delay") == Overlay(o.additionalOptions, "delay", NumField(o.delay))
  {
    var r := PdfToRequestOptions(o);
    var es := PdfEntries(o);
    PdfEntriesByName2(o);
    OverlayAt(r, o.additionalOptions, es, "marginLeft", StrField(o.marginLeft));
    OverlayAt(r, o.additionalOptions, es, "scale", FloatField(o.scale));
    OverlayAt(r, o.additionalOptions, es, "landscape", BoolField(o.landscape));
    OverlayAt(r, o.additionalOptions, es, "delay", NumField(o.delay));
  }

  lemma PdfWireNameTable3(o: PdfOptions)
    ensures Lookup(PdfToRequestOptions(o), "fileName") == Overlay(o.additionalOptions, "fileName", StrField(o.fileName))
    ensures Lookup(PdfToRequestOptions(o), "s3Acl") == Overlay(o.additionalOptions, "s3Acl", StrField(o.s3Acl))
    ensures Lookup(PdfToRequestOptions(o), "s3Redirect") == Overlay(o.additionalOptions, "s3Redirect", BoolField(o.s3Redirect))
    ensures Lookup(PdfToRequestOptions(o), "timestamp") == Overlay(o.additionalOptions, "timestamp", BoolField(o.timestamp))
  {
    var r := PdfToRequestOptions(o);
    var es := PdfEntries(o);
    PdfEntriesByName3(o);
    OverlayAt(r, o.additionalOptions, es, "fileName", StrField(o.fileName));
    OverlayAt(r, o.additionalOptions, es, "s3Acl", StrField(o.s3Acl));
    OverlayAt(r, o.additionalOptions, es, "s3Redirect", BoolField(o.s3Redirect));
    OverlayAt(r, o.additionalOptions, es, "timestamp", BoolField(o.timestamp));
  }

  lemma PdfWireNameTableRest(o: PdfOptions)
    ensures forall k :: k !in PdfWireNames ==> Lookup(PdfToRequestOptions(o), k) == Lookup(Additional(o.additionalOptions), k)
    ensures forall k :: k in PdfToRequestOptions(o) ==> k in PdfWireNames || k in Additional(o.additionalOptions)
  {
    PdfEntriesAbsent(o);
  }

  /**
   * The wire-name table of `PdfOptions`: each fixed field lands under its wire name when set
   * and contributes nothing when unset, an additional option wins over it, and every
   * other name is bound exactly when, and as, the additional options bind it.
   */
  lemma PdfWireNameTable(o: PdfOptions)
    ensures Lookup(PdfToRequestOptions(o), "httpAuth") == Overlay(o.additionalOptions, "httpAuth", StrField(o.httpAuth))
    ensures Lookup(PdfToRequestOptions(o), "userAgent") == Overlay(o.additionalOptions, "userAgent", StrField(o.userAgent))
    ensures Lookup(PdfToRequestOptions(o), "width") == Overlay(o.additionalOptions, "width", StrField(o.width))
    ensures Lookup(PdfToRequestOptions(o), "height") == Overlay(o.additionalOptions, "height", StrField(o.height))
    ensures Lookup(PdfToRequestOptions(o), "format") == Overlay(o.additionalOptions, "format", StrField(o.format))
    ensures Lookup(PdfToRequestOptions(o), "marginTop") == Overlay(o.additionalOptions, "marginTop", StrField(o.marginTop))
    ensures Lookup(PdfToRequestOptions(o), "marginRight") == Overlay(o.additionalOptions, "marginRight", StrField(o.marginRight))
    ensures Lookup(PdfToRequestOptions(o), "marginBottom") == Overlay(o.additionalOptions, "marginBottom", StrField(o.marginBottom))
    ensures Lookup(PdfToRequestOptions(o), "marginLeft") == Overlay(o.additionalOptions, "marginLeft", StrField(o.marginLeft))
    ensures Lookup(PdfToRequestOptions(o), "scale") == Overlay(o.additionalOptions, "scale", FloatField(o.scale))
    ensures Lookup(PdfToRequestOptions(o), "landscape") == Overlay(o.additionalOptions, "landscape", BoolField(o.landscape))
    ensures Lookup(PdfToRequestOptions(o), "delay") == Overlay(o.additionalOptions, "delay", NumField(o.delay))
    ensures Lookup(PdfToRequestOptions(o), "fileName") == Overlay(o.additionalOptions, "fileName", StrField(o.fileName))
    ensures Lookup(PdfToRequestOptions(o), "s3Acl") == Overlay(o.additionalOptions, "s3Acl", StrField(o.s3Acl))
    ensures Lookup(PdfToRequestOptions(o), "s3Redirect") == Overlay(o.additionalOptions, "s3Redirect", BoolField(o.s3Redirect))
    ensures Lookup(PdfToRequestOptions(o), "timestamp") == Overlay(o.additionalOptions, "timestamp", BoolField(o.timestamp))
    ensures forall k :: k !in PdfWireNames ==> Lookup(PdfToRequestOptions(o), k) == Lookup(Additional(o.additionalOptions), k)
    ensures forall k :: k in PdfToRequestOptions(o) ==> k in PdfWireNames || k in Additional(o.additionalOptions)
  {
    PdfWireNameTable0(o);
    PdfWireNameTable1(o);
    PdfWireNameTable2(o);
    PdfWireNameTable3(o);
    PdfWireNameTableRest(o);
  }

  /** Options for a content (HTML, text, markdown) capture. */
  datatype ContentOptions = ContentOptions(
    httpAuth: Option<string>,
    userAgent: Option<string>,
    delay: Option<U32>,
    waitFor: Option<string>,
    waitForId: Option<string>,
    additionalOptions: Option<RequestOptions>)

  /** The wire names of the fixed fields of `ContentOptions`, in the source's order. */
  const ContentWireNameList: seq<string> := [
    "httpAuth", "userAgent", "delay", "waitFor", "waitForId"
  ]

  /** The same names, as a set. */
  const ContentWireNames: set<string> := set k | k in ContentWireNameList

  /** The values the fixed fields of `ContentOptions` derive, in the same order. */
  function ContentValues(o: ContentOptions): seq<Option<Value>> {
    [
      StrField(o.httpAuth),
      StrField(o.userAgent),
      NumField(o.delay),
      StrField(o.waitFor),
      StrField(o.waitForId)
    ]
  }

  function ContentEntries(o: ContentOptions): seq<Entry> {
    Zip(ContentWireNameList, ContentValues(o))
  }

  /**
   * `ContentOptions::to_request_options`: each set field inserted under its wire name, in the
   * source's order, then `additionalOptions` merged over the result.
   */
  function ContentToRequestOptions(o: ContentOptions): (r: RequestOptions)
    ensures forall k :: Lookup(r, k) == Overlay(o.additionalOptions, k, EntryFor(ContentEntries(o), k))
  {
    InsertAllLookups(map[], ContentEntries(o));
    Merge(InsertAll(map[], ContentEntries(o)), o.additionalOptions)
  }

  lemma ContentEntriesDistinct(o: ContentOptions)
    ensures DistinctNames(ContentEntries(o))
  {
    NamesDistinctContent();
  }

  lemma ContentChunkDistinct0()
    ensures Distinct(["httpAuth", "userAgent", "delay", "waitFor"])
  {
  }

  lemma ContentChunkDistinct1()
    ensures Distinct(["waitForId"])
  {
  }

  lemma ContentChunksDisjoint01()
    ensures Disjoint(["httpAuth", "userAgent", "delay", "waitFor"], ["waitForId"])
  {
  }

  /** The wire names of `ContentOptions` are pairwise different, shown chunk by chunk. */
  lemma NamesDistinctContent()
    ensures Distinct(ContentWireNameList)
  {
    var c0 := ["httpAuth", "userAgent", "delay", "waitFor"];
    var c1 := ["waitForId"];
    ContentChunkDistinct0();
    ContentChunkDistinct1();
    ContentChunksDisjoint01();
    var t1 := c1;
    var t0 := c0 + t1;
    DistinctAppend(c0, t1);
    assert ContentWireNameList == t0;
  }

  lemma ContentEntriesByName0(o: ContentOptions)
    ensures EntryFor(ContentEntries(o), "httpAuth") == StrField(o.httpAuth)
    ensures EntryFor(ContentEntries(o), "userAgent") == StrField(o.userAgent)
    ensures EntryFor(ContentEntries(o), "delay") == NumField(o.delay)
    ensures EntryFor(ContentEntries(o), "waitFor") == StrField(o.waitFor)
  {
    ContentEntriesDistinct(o);
    EntryForIndex(ContentEntries(o), 0);
    EntryForIndex(ContentEntries(o), 1);
    EntryForIndex(ContentEntries(o), 2);
    EntryForIndex(ContentEntries(o), 3);
  }

  lemma ContentEntriesByName1(o: ContentOptions)
    ensures EntryFor(ContentEntries(o), "waitForId") == StrField(o.waitForId)
  {
    ContentEntriesDistinct(o);
    EntryForIndex(ContentEntries(o), 4);
  }

  lemma ContentEntriesAbsent(o: ContentOptions)
    ensures forall k :: k !in ContentWireNames ==> EntryFor(ContentEntries(o), k) == None
  {
    var es := ContentEntries(o);
    forall k | k !in ContentWireNames
      ensures EntryFor(es, k) == None
    {
      EntryForAbsent(es, k);
    }
  }

  /** Each fixed field of `ContentOptions` is the entry for its wire name. */
  lemma ContentEntriesByName(o: ContentOptions)
    ensures EntryFor(ContentEntries(o), "httpAuth") == StrField(o.httpAuth)
    ensures EntryFor(ContentEntries(o), "userAgent") == StrField(o.userAgent)
    ensures EntryFor(ContentEntries(o), "delay") == NumField(o.delay)
    ensures EntryFor(ContentEntries(o), "waitFor") == StrField(o.waitFor)
    ensures EntryFor(ContentEntries(o), "waitForId") == StrField(o.waitForId)
    ensures forall k :: k !in ContentWireNames ==> EntryFor(ContentEntries(o), k) == None
  {
    ContentEntriesByName0(o);
    ContentEntriesByName1(o);
    ContentEntriesAbsent(o);
  }

  lemma ContentWireNameTable0(o: ContentOptions)
    ensures Lookup(ContentToRequestOptions(o), "httpAuth") == Overlay(o.additionalOptions, "httpAuth", StrField(o.httpAuth))
    ensures Lookup(ContentToRequestOptions(o), "userAgent") == Overlay(o.additionalOptions, "userAgent", StrField(o.userAgent))
    ensures Lookup(ContentToRequestOptions(o), "delay") == Overlay(o.additionalOptions, "delay", NumField(o.delay))
    ensures Lookup(ContentToRequestOptions(o), "waitFor") == Overlay(o.additionalOptions, "waitFor", StrField(o.waitFor))
  {
    var r := ContentToRequestOptions(o);
    var es := ContentEntries(o);
    ContentEntriesByName0(o);
    OverlayAt(r, o.additionalOptions, es, "httpAuth", StrField(o.httpAuth));
    OverlayAt(r, o.additionalOptions, es, "userAgent", StrField(o.userAgent));
    OverlayAt(r, o.additionalOptions, es, "delay", NumField(o.delay));
    OverlayAt(r, o.additionalOptions, es, "waitFor", StrField(o.waitFor));
  }

  lemma ContentWireNameTable1(o: ContentOptions)
    ensures Lookup(ContentToRequestOptions(o), "waitForId") == Overlay(o.additionalOptions, "waitForId", StrField(o.waitForId))
  {
    var r := ContentToRequestOptions(o);
    var es := ContentEntries(o);
    ContentEntriesByName1(o);
    OverlayAt(r, o.additionalOptions, es, "waitForId", StrField(o.waitForId));
  }

  lemma ContentWireNameTableRest(o: ContentOptions)
    ensures forall k :: k !in ContentWireNames ==> Lookup(ContentToRequestOptions(o), k) == Lookup(Additional(o.additionalOptions), k)
    ensures forall k :: k in ContentToRequestOptions(o) ==> k in ContentWireNames || k in Additional(o.additionalOptions)
  {
    ContentEntriesAbsent(o);
  }

  /**
   * The wire-name table of `ContentOptions`: each fixed field lands under its wire name when set
   * and contributes nothing when unset, an additional option wins over it, and every
   * other name is bound exactly when, and as, the additional options bind it.
   */
  lemma ContentWireNameTable(o: ContentOptions)
    ensures Lookup(ContentToRequestOptions(o), "httpAuth") == Overlay(o.additionalOptions, "httpAuth", StrField(o.httpAuth))
    ensures Lookup(ContentToRequestOptions(o), "userAgent") == Overlay(o.additionalOptions, "userAgent", StrField(o.userAgent))
    ensures Lookup(ContentToRequestOptions(o), "delay") == Overlay(o.additionalOptions, "delay", NumField(o.delay))
    ensures Lookup(ContentToRequestOptions(o), "waitFor") == Overlay(o.additionalOptions, "waitFor", StrField(o.waitFor))
    ensures Lookup(ContentToRequestOptions(o), "waitForId") == Overlay(o.additionalOptions, "waitForId", StrField(o.waitForId))
    ensures forall k :: k !in ContentWireNames ==> Lookup(ContentToRequestOptions(o), k) == Lookup(Additional(o.additionalOptions), k)
    ensures forall k :: k in ContentToRequestOptions(o) ==> k in ContentWireNames || k in Additional(o.additionalOptions)
  {
    ContentWireNameTable0(o);
    ContentWireNameTable1(o);
    ContentWireNameTableRest(o);
  }

  /** Options for a metadata capture: only the generic overrides. */
  datatype MetadataOptions = MetadataOptions(additionalOptions: Option<RequestOptions>)

  /** `MetadataOptions::to_request_options`: exactly the additional options, or nothing. */
  function MetadataToRequestOptions(o: MetadataOptions): (r: RequestOptions)
    ensures o.additionalOptions.None? ==> r == map[]
    ensures o.additionalOptions.Some? ==> r == o.additionalOptions.value
  {
    Merge(map[], o.additionalOptions)
  }
}
