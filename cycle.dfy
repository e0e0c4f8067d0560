/**
 * One evaluation cycle (the source's `mainLoop`): for every trading pair,
 * fetch its ticks, expose the price series and indicator outputs to a
 * local and the global script context, send the optional update, and run
 * the pair's watchers through the edge-trigger cache; then run the global
 * watchers over the global context.
 *
 * A crash (an index out of range, or a script error that ends the program)
 * ends the cycle with `Crashed`; the notifications sent before it stay sent.
 */
module Cycle {
  import opened Wrappers
  import TI = TradeInterval
  import CC = CryptoCompare
  import opened ScriptState
  import opened Series
  import opened Indicators
  import opened Watchers
  import opened Debounce

  /** A configured trading pair. */
  datatype TradingPair = TradingPair(
    name: string, slug: string, coin: string, currency: string, exchange: string,
    interval: string, length: int, update: seq<string>,
    indicators: seq<Indicator>, watchers: seq<Watcher>)

  /** The configuration a cycle reads: the pairs and the global watchers. */
  datatype Config = Config(tradingpairs: seq<TradingPair>, watchers: seq<Watcher>)

  /** Which history query is made. */
  datatype Resolution = PerMinute | PerHour | PerDay

  /** The market-data service as an oracle: resolution, coin, currency,
      aggregate, limit and exchange give the tick list it answers. */
  type Fetcher = (Resolution, string, string, int, int, string) -> seq<CC.Tick>

  /** Why a cycle stopped early. */
  datatype Crash =
    | EmptySeries              // element 0 of an empty reversed series
    | BadParams(indicator: string)   // an indicator parameter that is not there
    | MissingLabel(indicator: string) // an output without a label suffix
    | MissingResult                  // a value key with no (or an empty) result series
    | ScriptError(err: string)       // a Lua or expression error, fatal in the source

  datatype Status = Completed | Crashed(why: Crash)

  /** Result series by name. */
  type Results = map<string, seq<real>>

  /** The global name of local name `x` of the pair with slug `slug`. */
  function Global(slug: string, x: string): (g: string)
    ensures |g| == |slug| + 1 + |x|
  {
    slug + "_" + x
  }

  /** Within one pair, distinct local names have distinct global names. */
  lemma GlobalInjective(slug: string, x: string, y: string)
    requires Global(slug, x) == Global(slug, y)
    ensures x == y
  {
    var p := slug + "_";
    assert Global(slug, x) == p + x && Global(slug, y) == p + y;
    assert x == (p + x)[|p|..];
    assert y == (p + y)[|p|..];
  }

  /** Every local binding is also bound, to the same value, under its global name. */
  ghost predicate Mirrored<V>(global: map<string, V>, local: map<string, V>, slug: string)
  {
    forall x :: x in local ==> Global(slug, x) in global && global[Global(slug, x)] == local[x]
  }

  /** Binding a name locally and its global name globally keeps the mirror. */
  lemma MirrorStep<V>(global: map<string, V>, local: map<string, V>, slug: string, x: string, v: V)
    requires Mirrored(global, local, slug)
    ensures Mirrored(global[Global(slug, x) := v], local[x := v], slug)
  {
    forall y | y in local[x := v]
      ensures Global(slug, y) in global[Global(slug, x) := v]
      ensures global[Global(slug, x) := v][Global(slug, y)] == local[x := v][y]
    {
      if Global(slug, y) == Global(slug, x) {
        GlobalInjective(slug, x, y);
      }
    }
  }

  /** Each result series `x` is exposed to the scripts: the expression value
      is element 0 of its reversal (the newest sample), the Lua value the
      whole reversal; the result itself keeps the fetched order. */
  ghost predicate Exposed(expr: map<string, Value>, lua: map<string, Value>, results: Results)
  {
    forall x :: x in results ==>
      |results[x]| > 0 && x in expr && x in lua
      && expr[x] == Num(Reversed(results[x])[0]) && lua[x] == Series(Reversed(results[x]))
  }

  /** The pair's descriptive values, bound under the same name in both namespaces. */
  function Scalars(t: TradingPair): map<string, Value>
  {
    map["coin" := Str(t.coin), "currency" := Str(t.currency), "interval" := Str(t.interval),
        "length" := Int(t.length)]
  }

  /** A descriptive value still holds unless a result of the same name replaced it. */
  ghost predicate ScalarsKept(expr: map<string, Value>, lua: map<string, Value>, results: Results,
                              t: TradingPair)
  {
    forall x :: x in Scalars(t) && x !in results ==>
      x in expr && x in lua && expr[x] == Scalars(t)[x] && lua[x] == Scalars(t)[x]
  }

  /** What the local context and the local results of a pair satisfy once
      its series and indicators are published, and the global context and
      results mirror them under the pair's slug. */
  ghost predicate Published(g: map<string, Value>, gl: map<string, Value>, gr: Results,
                            l: map<string, Value>, ll: map<string, Value>, lr: Results,
                            t: TradingPair)
  {
    Mirrored(g, l, t.slug) && Mirrored(gl, ll, t.slug) && Mirrored(gr, lr, t.slug)
    && Exposed(l, ll, lr) && ScalarsKept(l, ll, lr, t)
  }

  /** The newest sample of a non-empty series in fetched order. */
  function Last(s: seq<real>): real
    requires |s| > 0
  {
    s[|s| - 1]
  }

  /** The values attached to a notification: for each key, in order, the
      last element of its result series; none when a key has no result or
      an empty one (an index out of range in the source). */
  function Attach(keys: seq<string>, results: Results): (values: Option<map<string, real>>)
  {
    if keys == [] then Some(map[])
    else
      var k := keys[|keys| - 1];
      match Attach(keys[..|keys| - 1], results)
      case None => None
      case Some(m) => if k in results && |results[k]| > 0 then Some(m[k := Last(results[k])]) else None
  }

  /** Values are attached exactly when every key has a non-empty result. */
  lemma {:induction false} AttachSucceeds(keys: seq<string>, results: Results)
    ensures Attach(keys, results).Some?
        <==> forall i :: 0 <= i < |keys| ==> keys[i] in results && |results[keys[i]]| > 0
  {
    if keys != [] {
      var init := keys[..|keys| - 1];
      AttachSucceeds(init, results);
      assert forall i :: 0 <= i < |init| ==> init[i] == keys[i];
    }
  }

  /** Attached values hold one entry per key: the last element of that key's result. */
  lemma {:induction false} AttachEntries(keys: seq<string>, results: Results)
    requires Attach(keys, results).Some?
    ensures var m := Attach(keys, results).value;
            (forall k :: k in m <==> k in keys)
            && forall k :: k in m ==> k in results && |results[k]| > 0 && m[k] == Last(results[k])
  {
    if keys != [] {
      var init := keys[..|keys| - 1];
      AttachEntries(init, results);
      assert keys == init + [keys[|keys| - 1]];
    }
  }

  /** The source's attachment loop. */
  method AttachValues(keys: seq<string>, results: Results) returns (values: Option<map<string, real>>)
    ensures values == Attach(keys, results)
  {
    var m: map<string, real> := map[];
    for i := 0 to |keys|
      invariant Attach(keys[..i], results) == Some(m)
    {
      assert keys[..i + 1][..i] == keys[..i];
      var k := keys[i];
      if !(k in results && |results[k]| > 0) {
        assert Attach(keys[..i + 1], results) == None;
        AttachPrefixFails(keys, i + 1, results);
        return None;
      }
      m := m[k := Last(results[k])];
    }
    assert keys[..|keys|] == keys;
    values := Some(m);
  }

  /** Once a prefix of the keys fails, all the keys fail. */
  lemma {:induction false} AttachPrefixFails(keys: seq<string>, n: nat, results: Results)
    requires n <= |keys| && Attach(keys[..n], results) == None
    ensures Attach(keys, results) == None
    decreases |keys| - n
  {
    if n < |keys| {
      assert keys[..n + 1][..n] == keys[..n];
      AttachPrefixFails(keys, n + 1, results);
    } else {
      assert keys[..n] == keys;
    }
  }

  /** Binds a descriptive value under `x` in the local context and under its
      global name in the global context, in both namespaces of each. */
  method ExposeScalar(g: State, l: State, slug: string, x: string, v: Value)
    requires g != l
    modifies g, l
    ensures g.expr == old(g.expr)[Global(slug, x) := v] && g.lua == old(g.lua)[Global(slug, x) := v]
    ensures l.expr == old(l.expr)[x := v] && l.lua == old(l.lua)[x := v]
  {
    g.SetAll(Global(slug, x), v);
    l.SetAll(x, v);
  }

  /** Publishes series `s` under `x`: the series itself as a result, element 0
      of its reversal for expressions and the whole reversal for Lua, both
      locally and, under the global name, globally. */
  method ExposeSeries(g: State, l: State, gr: Results, lr: Results, slug: string, x: string,
                      s: seq<real>) returns (gr': Results, lr': Results)
    requires g != l && |s| > 0
    modifies g, l
    ensures g.expr == old(g.expr)[Global(slug, x) := Num(Reversed(s)[0])]
    ensures g.lua == old(g.lua)[Global(slug, x) := Series(Reversed(s))]
    ensures l.expr == old(l.expr)[x := Num(Reversed(s)[0])]
    ensures l.lua == old(l.lua)[x := Series(Reversed(s))]
    ensures gr' == gr[Global(slug, x) := s] && lr' == lr[x := s]
  {
    var r := Reverse(s);
    g.SetBoth(Global(slug, x), Num(r[0]), Series(r));
    l.SetBoth(x, Num(r[0]), Series(r));
    gr' := gr[Global(slug, x) := s];
    lr' := lr[x := s];
  }

  /** Publishing one more non-empty series keeps a pair's context published. */
  lemma PublishStep(g: map<string, Value>, gl: map<string, Value>, gr: Results,
                    l: map<string, Value>, ll: map<string, Value>, lr: Results,
                    t: TradingPair, x: string, s: seq<real>)
    requires Published(g, gl, gr, l, ll, lr, t) && |s| > 0
    ensures var gx := Global(t.slug, x);
            var e, v := Num(Reversed(s)[0]), Series(Reversed(s));
            Published(g[gx := e], gl[gx := v], gr[gx := s], l[x := e], ll[x := v], lr[x := s], t)
  {
    var e, v := Num(Reversed(s)[0]), Series(Reversed(s));
    MirrorStep(g, l, t.slug, x, e);
    MirrorStep(gl, ll, t.slug, x, v);
    MirrorStep(gr, lr, t.slug, x, s);
  }

  /** One name a pair's publication binds: the value expressions see, the
      value Lua sees, and the result series recorded under it, if any (the
      descriptive values record none). */
  datatype Binding = Binding(name: string, expr: Value, lua: Value, result: Option<seq<real>>)

  /** A descriptive value: the same value in both namespaces, no result. */
  function ScalarBinding(x: string, v: Value): (b: Binding)
  {
    Binding(x, v, v, None)
  }

  /** A non-empty series: element 0 of its reversal for expressions, the
      whole reversal for Lua, the series in fetched order as the result. */
  function SeriesBinding(x: string, s: seq<real>): (b: Binding)
    requires |s| > 0
  {
    Binding(x, Num(Reversed(s)[0]), Series(Reversed(s)), Some(s))
  }

  /** The global context and results every pair writes to, and the local
      context and results of the pair being processed. */
  datatype Contexts = Contexts(g: map<string, Value>, gl: map<string, Value>, gr: Results,
                               l: map<string, Value>, ll: map<string, Value>, lr: Results)

  /** Makes binding `b`: locally under its name, globally under its global name. */
  function Put(c: Contexts, slug: string, b: Binding): (c': Contexts)
  {
    var x, gx := b.name, Global(slug, b.name);
    Contexts(c.g[gx := b.expr], c.gl[gx := b.lua],
             if b.result.Some? then c.gr[gx := b.result.value] else c.gr,
             c.l[x := b.expr], c.ll[x := b.lua],
             if b.result.Some? then c.lr[x := b.result.value] else c.lr)
  }

  /** Makes the bindings `bs`, in order. */
  function Apply(c: Contexts, slug: string, bs: seq<Binding>): (c': Contexts)
    decreases |bs|
  {
    if bs == [] then c else Put(Apply(c, slug, bs[..|bs| - 1]), slug, bs[|bs| - 1])
  }

  /** One more binding is made on top of the earlier ones. */
  lemma ApplyPush(c: Contexts, slug: string, bs: seq<Binding>, b: Binding)
    ensures Apply(c, slug, bs + [b]) == Put(Apply(c, slug, bs), slug, b)
  {
    assert (bs + [b])[..|bs|] == bs;
  }

  /** The first k + 1 bindings are the first k and then binding k. */
  lemma ApplySnoc(c: Contexts, slug: string, bs: seq<Binding>, k: nat)
    requires k < |bs|
    ensures Apply(c, slug, bs[..k + 1]) == Put(Apply(c, slug, bs[..k]), slug, bs[k])
  {
    assert bs[..k + 1] == bs[..k] + [bs[k]];
    ApplyPush(c, slug, bs[..k], bs[k]);
  }

  /** Making two lists of bindings one after the other is making their concatenation. */
  lemma {:induction false} ApplyConcat(c: Contexts, slug: string, xs: seq<Binding>, ys: seq<Binding>)
    ensures Apply(c, slug, xs + ys) == Apply(Apply(c, slug, xs), slug, ys)
    decreases |ys|
  {
    if ys == [] {
      assert xs + ys == xs;
    } else {
      var init, b := ys[..|ys| - 1], ys[|ys| - 1];
      assert xs + ys == (xs + init) + [b];
      assert ys == init + [b];
      ApplyPush(c, slug, xs + init, b);
      ApplyPush(Apply(c, slug, xs), slug, init, b);
      ApplyConcat(c, slug, xs, init);
    }
  }

  /** `m'` agrees with `m` on `y`: both bind it to the same value, or neither binds it. */
  ghost predicate Kept<V>(m: map<string, V>, m': map<string, V>, y: string)
  {
    (y in m' <==> y in m) && (y in m ==> m'[y] == m[y])
  }

  /** Publication only adds and overwrites: a global name that no binding
      maps to keeps what it had, in both namespaces and in the results. This
      is how the bindings of the pairs published before survive. */
  lemma {:induction false} ApplyFrameGlobal(c: Contexts, slug: string, bs: seq<Binding>, y: string)
    requires forall i :: 0 <= i < |bs| ==> Global(slug, bs[i].name) != y
    ensures var c' := Apply(c, slug, bs);
            Kept(c.g, c'.g, y) && Kept(c.gl, c'.gl, y) && Kept(c.gr, c'.gr, y)
    decreases |bs|
  {
    if bs != [] {
      ApplyFrameGlobal(c, slug, bs[..|bs| - 1], y);
    }
  }

  /** Likewise for a local name that no binding has. */
  lemma {:induction false} ApplyFrameLocal(c: Contexts, slug: string, bs: seq<Binding>, x: string)
    requires forall i :: 0 <= i < |bs| ==> bs[i].name != x
    ensures var c' := Apply(c, slug, bs);
            Kept(c.l, c'.l, x) && Kept(c.ll, c'.ll, x) && Kept(c.lr, c'.lr, x)
    decreases |bs|
  {
    if bs != [] {
      ApplyFrameLocal(c, slug, bs[..|bs| - 1], x);
    }
  }

  /** The last binding of a name decides it: locally under the name,
      globally under its global name, and in the results when it records a
      series. */
  lemma {:induction false} ApplyLastWins(c: Contexts, slug: string, bs: seq<Binding>, i: nat)
    requires i < |bs| && forall j :: i < j < |bs| ==> bs[j].name != bs[i].name
    ensures var c', b := Apply(c, slug, bs), bs[i];
            var gx := Global(slug, b.name);
            b.name in c'.l && c'.l[b.name] == b.expr && b.name in c'.ll && c'.ll[b.name] == b.lua
            && gx in c'.g && c'.g[gx] == b.expr && gx in c'.gl && c'.gl[gx] == b.lua
            && (b.result.Some? ==> b.name in c'.lr && c'.lr[b.name] == b.result.value
                                   && gx in c'.gr && c'.gr[gx] == b.result.value)
    decreases |bs|
  {
    var n := |bs| - 1;
    if i < n {
      ApplyLastWins(c, slug, bs[..n], i);
      if Global(slug, bs[n].name) == Global(slug, bs[i].name) {
        GlobalInjective(slug, bs[n].name, bs[i].name);
      }
    }
  }

  /** The five series of a pair are all non-empty. */
  predicate NonEmpty(src: Ohlcv5)
  {
    |src.open| > 0 && |src.high| > 0 && |src.low| > 0 && |src.close| > 0 && |src.vol| > 0
  }

  /** A pair's descriptive values: coin, currency, interval and length. */
  function ScalarBindings(t: TradingPair): (bs: seq<Binding>)
  {
    [ScalarBinding("coin", Str(t.coin)), ScalarBinding("currency", Str(t.currency)),
     ScalarBinding("interval", Str(t.interval)), ScalarBinding("length", Int(t.length))]
  }

  /** What a pair publishes before its indicators: its descriptive values,
      then the open, high, low, close and volume series. */
  function BaseBindings(t: TradingPair, src: Ohlcv5): (bs: seq<Binding>)
    requires NonEmpty(src)
  {
    ScalarBindings(t) + [SeriesBinding("open", src.open)] + [SeriesBinding("high", src.high)]
    + [SeriesBinding("low", src.low)] + [SeriesBinding("close", src.close)] + [SeriesBinding("vol", src.vol)]
  }

  /** What the first `n` outputs of an indicator publish: output i under
      the indicator's name followed by label i. */
  function OutputPrefix(name: string, d: Dispatch, n: nat): (bs: seq<Binding>)
    requires d.Dispatch? && n <= |d.outputs| && n <= |d.labels|
    requires forall i :: 0 <= i < n ==> |d.outputs[i]| > 0
  {
    seq(n, i requires 0 <= i < n => var o := d.outputs[i]; SeriesBinding(name + d.labels[i], o))
  }

  /** What a surviving indicator publishes: all of its outputs. */
  function OutputBindings(name: string, d: Dispatch): (bs: seq<Binding>)
    requires Survives(d)
  {
    OutputPrefix(name, d, |d.outputs|)
  }

  /** One more output is one more binding. */
  lemma OutputPrefixPush(name: string, d: Dispatch, n: nat)
    requires d.Dispatch? && n < |d.outputs| && n < |d.labels|
    requires forall i :: 0 <= i <= n ==> |d.outputs[i]| > 0
    ensures OutputPrefix(name, d, n + 1) == OutputPrefix(name, d, n) + [SeriesBinding(name + d.labels[n], d.outputs[n])]
  {
  }

  /** The descriptive values of a pair, bound locally and globally. */
  method PublishScalars(g: State, l: State, gr: Results, t: TradingPair)
    requires g != l && l.expr == map[] && l.lua == map[]
    modifies g, l
    ensures Contexts(g.expr, g.lua, gr, l.expr, l.lua, map[])
         == Apply(Contexts(old(g.expr), old(g.lua), gr, map[], map[], map[]), t.slug, ScalarBindings(t))
    ensures Published(g.expr, g.lua, gr, l.expr, l.lua, map[], t)
  {
    ghost var c0 := Contexts(g.expr, g.lua, gr, map[], map[], map[]);
    ghost var done: seq<Binding> := [];
    ghost var g0, gl0 := g.expr, g.lua;
    ExposeScalar(g, l, t.slug, "coin", Str(t.coin));
    ApplyPush(c0, t.slug, done, ScalarBinding("coin", Str(t.coin)));
    done := done + [ScalarBinding("coin", Str(t.coin))];
    MirrorStep(g0, map[], t.slug, "coin", Str(t.coin));
    MirrorStep(gl0, map[], t.slug, "coin", Str(t.coin));
    ghost var g1, gl1, l1 := g.expr, g.lua, l.expr;
    ExposeScalar(g, l, t.slug, "currency", Str(t.currency));
    ApplyPush(c0, t.slug, done, ScalarBinding("currency", Str(t.currency)));
    done := done + [ScalarBinding("currency", Str(t.currency))];
    MirrorStep(g1, l1, t.slug, "currency", Str(t.currency));
    MirrorStep(gl1, l1, t.slug, "currency", Str(t.currency));
    ghost var g2, gl2, l2 := g.expr, g.lua, l.expr;
    ExposeScalar(g, l, t.slug, "interval", Str(t.interval));
    ApplyPush(c0, t.slug, done, ScalarBinding("interval", Str(t.interval)));
    done := done + [ScalarBinding("interval", Str(t.interval))];
    MirrorStep(g2, l2, t.slug, "interval", Str(t.interval));
    MirrorStep(gl2, l2, t.slug, "interval", Str(t.interval));
    ghost var g3, gl3, l3 := g.expr, g.lua, l.expr;
    ExposeScalar(g, l, t.slug, "length", Int(t.length));
    ApplyPush(c0, t.slug, done, ScalarBinding("length", Int(t.length)));
    done := done + [ScalarBinding("length", Int(t.length))];
    MirrorStep(g3, l3, t.slug, "length", Int(t.length));
    MirrorStep(gl3, l3, t.slug, "length", Int(t.length));
    assert done == ScalarBindings(t);
    assert l.expr == Scalars(t) && l.lua == Scalars(t);
  }

  /** Publishes one non-empty series under `x`, keeping the contexts
      published and extending the bindings made so far by one. */
  method PublishSeries(g: State, l: State, gr: Results, lr: Results, t: TradingPair, x: string,
                       s: seq<real>, ghost c0: Contexts, ghost done: seq<Binding>)
    returns (gr': Results, lr': Results, ghost done': seq<Binding>)
    requires g != l && |s| > 0
    requires Published(g.expr, g.lua, gr, l.expr, l.lua, lr, t)
    requires Contexts(g.expr, g.lua, gr, l.expr, l.lua, lr) == Apply(c0, t.slug, done)
    modifies g, l
    ensures done' == done + [SeriesBinding(x, s)]
    ensures gr' == gr[Global(t.slug, x) := s] && lr' == lr[x := s]
    ensures Contexts(g.expr, g.lua, gr', l.expr, l.lua, lr') == Apply(c0, t.slug, done')
    ensures Published(g.expr, g.lua, gr', l.expr, l.lua, lr', t)
  {
    ghost var h, hl, hr, m, ml, mr := g.expr, g.lua, gr, l.expr, l.lua, lr;
    gr', lr' := ExposeSeries(g, l, gr, lr, t.slug, x, s);
    PublishStep(h, hl, hr, m, ml, mr, t, x, s);
    ApplyPush(c0, t.slug, done, SeriesBinding(x, s));
    done' := done + [SeriesBinding(x, s)];
  }

  /** The descriptive values and the five price series of a pair, published
      to a fresh local context and to the global one: the contexts become
      those the base bindings make. */
  method PublishBase(g: State, l: State, gr: Results, t: TradingPair, src: Ohlcv5)
    returns (gr': Results, lr: Results)
    requires g != l && l.expr == map[] && l.lua == map[] && NonEmpty(src)
    modifies g, l
    ensures Contexts(g.expr, g.lua, gr', l.expr, l.lua, lr)
         == Apply(Contexts(old(g.expr), old(g.lua), gr, map[], map[], map[]), t.slug, BaseBindings(t, src))
    ensures Published(g.expr, g.lua, gr', l.expr, l.lua, lr, t)
    ensures lr == map["open" := src.open, "high" := src.high, "low" := src.low,
                      "close" := src.close, "vol" := src.vol]
  {
    ghost var c0 := Contexts(g.expr, g.lua, gr, map[], map[], map[]);
    PublishScalars(g, l, gr, t);
    ghost var done := ScalarBindings(t);
    gr', lr := gr, map[];
    gr', lr, done := PublishSeries(g, l, gr', lr, t, "open", src.open, c0, done);
    gr', lr, done := PublishSeries(g, l, gr', lr, t, "high", src.high, c0, done);
    gr', lr, done := PublishSeries(g, l, gr', lr, t, "low", src.low, c0, done);
    gr', lr, done := PublishSeries(g, l, gr', lr, t, "close", src.close, c0, done);
    gr', lr, done := PublishSeries(g, l, gr', lr, t, "vol", src.vol, c0, done);
  }

  /** An indicator the cycle survives: its parameters are there, every output
      has a label and no output is empty. */
  predicate Survives(d: Dispatch)
  {
    d.Dispatch? && |d.outputs| <= |d.labels| && forall i :: 0 <= i < |d.outputs| ==> |d.outputs[i]| > 0
  }

  /** An indicator of one of the ten unlabelled types, given its parameters,
      never survives: its single output has no label. So a pair configuring
      one crashes in its indicator phase. */
  lemma UnlabelledNeverSurvives(src: Ohlcv5, idc: Indicator, ta: TaLib, f: TaFn)
    requires Unlabelled(f) && idc.kind == KindName(f) && |idc.params| >= ParamCount(f)
    ensures !Survives(ProcessIndicators(src, idc, ta))
  {
    ProcessUnlabelled(src, idc, ta, f);
    var d := ProcessIndicators(src, idc, ta);
    assert |d.outputs| == 1 && |d.labels| == 0;
    assert d.outputs[0] in d.outputs;
  }

  /** An indicator of a labelled type whose outputs are non-empty survives. */
  lemma LabelledSurvives(src: Ohlcv5, idc: Indicator, ta: TaLib, f: TaFn)
    requires !Unlabelled(f) && idc.kind == KindName(f) && |idc.params| >= ParamCount(f)
    requires forall o :: o in ProcessIndicators(src, idc, ta).outputs ==> |o| > 0
    ensures Survives(ProcessIndicators(src, idc, ta))
  {
    LabelsCoverOutputs(src, idc, ta, f);
  }

  /** For a series of two or more samples, the expression value a script sees
      is the series' newest sample, the one attached to notifications; a
      one-sample series is seen as 0. */
  lemma ExposedNewest(expr: map<string, Value>, lua: map<string, Value>, results: Results, x: string)
    requires Exposed(expr, lua, results) && x in results
    ensures |results[x]| >= 2 ==> expr[x] == Num(Last(results[x]))
    ensures |results[x]| == 1 ==> expr[x] == Num(0.0)
  {
    if |results[x]| >= 2 {
      ReversedFirst(results[x]);
    } else if |results[x]| == 1 {
      ReversedShort(results[x][0]);
      assert results[x] == [results[x][0]];
    }
  }

  /** Publishes indicator output `s` under `x` as the source does: the
      expression value and then the Lua value, globally and then locally,
      then the output itself as a result under both names. */
  method ExposeOutput(g: State, l: State, gr: Results, lr: Results, slug: string, x: string,
                      s: seq<real>) returns (gr': Results, lr': Results)
    requires g != l && |s| > 0
    modifies g, l
    ensures Contexts(g.expr, g.lua, gr', l.expr, l.lua, lr')
         == Put(Contexts(old(g.expr), old(g.lua), gr, old(l.expr), old(l.lua), lr), slug, SeriesBinding(x, s))
  {
    var r := Reverse(s);
    g.SetExpr(Global(slug, x), Num(r[0]));
    g.SetLua(Global(slug, x), Series(r));
    l.SetExpr(x, Num(r[0]));
    l.SetLua(x, Series(r));
    gr' := gr[Global(slug, x) := s];
    lr' := lr[x := s];
  }

  /** Publishing output `i` of an indicator extends its bindings so far by
      one and keeps the contexts published. */
  lemma OutputStep(c0: Contexts, c: Contexts, t: TradingPair, name: string, d: Dispatch, i: nat, c': Contexts)
    requires d.Dispatch? && i < |d.outputs| && i < |d.labels|
    requires forall i' :: 0 <= i' <= i ==> |d.outputs[i']| > 0
    requires Published(c.g, c.gl, c.gr, c.l, c.ll, c.lr, t)
    requires c == Apply(c0, t.slug, OutputPrefix(name, d, i))
    requires c' == Put(c, t.slug, SeriesBinding(name + d.labels[i], d.outputs[i]))
    ensures Published(c'.g, c'.gl, c'.gr, c'.l, c'.ll, c'.lr, t)
    ensures c' == Apply(c0, t.slug, OutputPrefix(name, d, i + 1))
  {
    var x := name + d.labels[i];
    PublishStep(c.g, c.gl, c.gr, c.l, c.ll, c.lr, t, x, d.outputs[i]);
    OutputPrefixPush(name, d, i);
    ApplyPush(c0, t.slug, OutputPrefix(name, d, i), SeriesBinding(x, d.outputs[i]));
  }

  /** The outputs of one indicator, output i published under the
      indicator's name followed by label i. This completes exactly when
      every output has a label and is non-empty, and then the contexts are
      those the indicator's bindings make. */
  method PublishOutputs(g: State, l: State, gr: Results, lr: Results, t: TradingPair,
                        name: string, d: Dispatch)
    returns (status: Status, gr': Results, lr': Results)
    requires g != l && d.Dispatch? && Published(g.expr, g.lua, gr, l.expr, l.lua, lr, t)
    modifies g, l
    ensures status.Completed? <==> Survives(d)
    ensures status.Completed? ==>
              Contexts(g.expr, g.lua, gr', l.expr, l.lua, lr')
              == Apply(Contexts(old(g.expr), old(g.lua), gr, old(l.expr), old(l.lua), lr), t.slug,
                       OutputBindings(name, d))
    ensures status.Completed? ==> Published(g.expr, g.lua, gr', l.expr, l.lua, lr', t)
    ensures status == Completed || status == Crashed(MissingLabel(name)) || status == Crashed(EmptySeries)
  {
    ghost var c0 := Contexts(g.expr, g.lua, gr, l.expr, l.lua, lr);
    gr', lr' := gr, lr;
    for i := 0 to |d.outputs|
      invariant Published(g.expr, g.lua, gr', l.expr, l.lua, lr', t)
      invariant i <= |d.labels| && forall i' :: 0 <= i' < i ==> |d.outputs[i']| > 0
      invariant Contexts(g.expr, g.lua, gr', l.expr, l.lua, lr')
                == Apply(c0, t.slug, OutputPrefix(name, d, i))
    {
      var output := d.outputs[i];
      if i >= |d.labels| {
        return Crashed(MissingLabel(name)), gr', lr';
      }
      if |output| == 0 {
        return Crashed(EmptySeries), gr', lr';
      }
      var x := name + d.labels[i];
      ghost var c := Contexts(g.expr, g.lua, gr', l.expr, l.lua, lr');
      gr', lr' := ExposeOutput(g, l, gr', lr', t.slug, x, output);
      OutputStep(c0, c, t, name, d, i, Contexts(g.expr, g.lua, gr', l.expr, l.lua, lr'));
    }
    status := Completed;
  }

  /** Every indicator of the list survives. */
  predicate AllSurvive(src: Ohlcv5, idcs: seq<Indicator>, ta: TaLib)
  {
    forall j :: 0 <= j < |idcs| ==> Survives(ProcessIndicators(src, idcs[j], ta))
  }

  /** What the indicators of the list publish, in order. */
  function IndicatorBindings(src: Ohlcv5, idcs: seq<Indicator>, ta: TaLib): (bs: seq<Binding>)
    requires AllSurvive(src, idcs, ta)
    decreases |idcs|
  {
    if idcs == [] then []
    else
      var idc := idcs[|idcs| - 1];
      var d := ProcessIndicators(src, idc, ta);
      IndicatorBindings(src, idcs[..|idcs| - 1], ta) + OutputBindings(idc.name, d)
  }

  /** One more surviving indicator is its bindings after those of the ones before it. */
  lemma IndicatorBindingsPush(src: Ohlcv5, idcs: seq<Indicator>, ta: TaLib, j: nat)
    requires j < |idcs| && AllSurvive(src, idcs[..j], ta) && Survives(ProcessIndicators(src, idcs[j], ta))
    ensures AllSurvive(src, idcs[..j + 1], ta)
    ensures var d := ProcessIndicators(src, idcs[j], ta);
            IndicatorBindings(src, idcs[..j + 1], ta)
            == IndicatorBindings(src, idcs[..j], ta) + OutputBindings(idcs[j].name, d)
  {
    var p := idcs[..j + 1];
    assert p[..|p| - 1] == idcs[..j] && p[|p| - 1] == idcs[j];
    forall k | 0 <= k < |p|
      ensures Survives(ProcessIndicators(src, p[k], ta))
    {
      if k < j {
        assert p[k] == idcs[..j][k];
      }
    }
  }

  /** The indicators of a pair, in configuration order. The cycle completes
      this phase exactly when every indicator survives, and then the
      contexts are those the indicators' bindings make. */
  method PublishIndicators(g: State, l: State, gr: Results, lr: Results, t: TradingPair,
                           src: Ohlcv5, ta: TaLib)
    returns (status: Status, gr': Results, lr': Results)
    requires g != l && Published(g.expr, g.lua, gr, l.expr, l.lua, lr, t)
    modifies g, l
    ensures status.Completed? <==> AllSurvive(src, t.indicators, ta)
    ensures status.Completed? ==>
              Contexts(g.expr, g.lua, gr', l.expr, l.lua, lr')
              == Apply(Contexts(old(g.expr), old(g.lua), gr, old(l.expr), old(l.lua), lr), t.slug,
                       IndicatorBindings(src, t.indicators, ta))
    ensures status.Completed? ==> Published(g.expr, g.lua, gr', l.expr, l.lua, lr', t)
    ensures status.Crashed? ==> status.why.BadParams? || status.why.MissingLabel? || status.why.EmptySeries?
  {
    ghost var c0 := Contexts(g.expr, g.lua, gr, l.expr, l.lua, lr);
    gr', lr' := gr, lr;
    for j := 0 to |t.indicators|
      invariant Published(g.expr, g.lua, gr', l.expr, l.lua, lr', t)
      invariant AllSurvive(src, t.indicators[..j], ta)
      invariant Contexts(g.expr, g.lua, gr', l.expr, l.lua, lr')
                == Apply(c0, t.slug, IndicatorBindings(src, t.indicators[..j], ta))
    {
      var idc := t.indicators[j];
      var d := ProcessIndicators(src, idc, ta);
      if d.ParamsOutOfRange? {
        assert !Survives(ProcessIndicators(src, t.indicators[j], ta));
        return Crashed(BadParams(idc.name)), gr', lr';
      }
      status, gr', lr' := PublishOutputs(g, l, gr', lr', t, idc.name, d);
      if status.Crashed? {
        return;
      }
      IndicatorBindingsPush(src, t.indicators, ta, j);
      ApplyConcat(c0, t.slug, IndicatorBindings(src, t.indicators[..j], ta), OutputBindings(idc.name, d));
    }
    assert t.indicators[..|t.indicators|] == t.indicators;
    status := Completed;
  }

  /** The cache keys of a list of watchers in one scope (a pair's slug, or "global"). */
  function ScopeKeys(scope: string, ws: seq<Watcher>): set<Key>
  {
    set w | w in ws :: Key(scope, w.name)
  }

  /** No two watchers of the list share a name, so none shares a cache key. */
  predicate DistinctNames(ws: seq<Watcher>)
  {
    forall i, j :: 0 <= i < j < |ws| ==> ws[i].name != ws[j].name
  }

  /** `n` is what watcher `w` sends: `w` fired, and `n` is its verdict's
      notification with the given source and the attached values. */
  predicate SentBy(n: Notification, w: Watcher, e: map<string, Value>, l: map<string, Value>,
                   results: Results, source: string, interp: Interpreters)
  {
    var v := Verdict(w, e, l, interp);
    v.Ran? && v.fired && Attach(w.values, results) == Some(n.values)
    && n == v.n.(source := source, values := n.values)
  }

  /** One watcher of a scope: run it against `state`, record its verdict in
      the cache and return the notification it sends, if any. */
  method RunWatcher(cache: Cache, state: State, results: Results, w: Watcher,
                    scope: string, source: string, interp: Interpreters)
    returns (status: Status, sent: Option<Notification>)
    modifies cache, state
    ensures state.expr == old(state.expr)
    ensures state.lua == old(state.lua) || state.lua == old(state.lua)["alert" := AlertHook]
    ensures var v := Verdict(w, old(state.expr), old(state.lua)["alert" := AlertHook], interp);
            var k := Key(scope, w.name);
            var c := Count(old(cache.counters), k);
            (status.Completed? <==> v.Ran? && !(v.fired && c == 0 && Attach(w.values, results).None?))
            && (status.Crashed? ==> cache.counters == old(cache.counters))
            && (status.Completed? ==>
                  cache.counters == old(cache.counters)[k := if v.fired then c + 1 else 0]
                  && (sent.Some? <==> v.fired && c == 0)
                  && (sent.Some? ==> SentBy(sent.value, w, old(state.expr), old(state.lua)["alert" := AlertHook],
                                            results, source, interp)))
    ensures status.Crashed? ==> status.why.ScriptError? || status.why == MissingResult
    ensures sent.Some? ==> sent.value.source == source
  {
    sent := None;
    var out := ExecuteWatcher(state, w, interp);
    if out.Fatal? {
      return Crashed(ScriptError(out.err)), None;
    }
    var k := Key(scope, w.name);
    if out.fired && cache.Get(k) == 0 {
      var values := AttachValues(w.values, results);
      if values.None? {
        return Crashed(MissingResult), None;
      }
      sent := Some(out.n.(source := source, values := values.value));
    }
    var _ := cache.Record(k, out.fired);
    status := Completed;
  }

  /** Extending the list of watchers run so far by one adds its key and no other. */
  lemma ScopeKeysStep(scope: string, ws: seq<Watcher>, i: nat, k: Key)
    requires i < |ws|
    ensures k in ScopeKeys(scope, ws[..i + 1]) <==> k in ScopeKeys(scope, ws[..i]) || k == Key(scope, ws[i].name)
  {
    assert ws[..i + 1] == ws[..i] + [ws[i]];
    if k in ScopeKeys(scope, ws[..i + 1]) && k != Key(scope, ws[i].name) {
      var w :| w in ws[..i + 1] && k == Key(scope, w.name);
      assert w in ws[..i];
    }
  }

  /** With distinct names, watcher i's key is not among those of the watchers before it. */
  lemma FreshKey(scope: string, ws: seq<Watcher>, i: nat)
    requires i < |ws| && DistinctNames(ws)
    ensures Key(scope, ws[i].name) !in ScopeKeys(scope, ws[..i])
  {
  }

  /** `sent` is what the first `n` watchers of a scope sent: one
      notification, labelled `source`, from each watcher in `senders`, by
      increasing index. */
  predicate SentFrom(sent: seq<Notification>, senders: seq<nat>, ws: seq<Watcher>, n: nat,
                     e: map<string, Value>, l: map<string, Value>, results: Results, source: string,
                     interp: Interpreters)
    requires n <= |ws|
  {
    |senders| == |sent|
    && (forall j :: 0 <= j < |sent| ==>
          senders[j] < n && sent[j].source == source
          && SentBy(sent[j], ws[senders[j]], e, l, results, source, interp))
    && (forall j, j' :: 0 <= j < j' < |sent| ==> senders[j] < senders[j'])
  }

  /** Watcher `i` sending `one`, or nothing, extends `SentFrom` to it. */
  lemma SentFromNext(sent: seq<Notification>, senders: seq<nat>, ws: seq<Watcher>, i: nat,
                     e: map<string, Value>, l: map<string, Value>, results: Results, source: string,
                     interp: Interpreters, one: Option<Notification>)
    requires i < |ws| && SentFrom(sent, senders, ws, i, e, l, results, source, interp)
    requires one.Some? ==> one.value.source == source && SentBy(one.value, ws[i], e, l, results, source, interp)
    ensures one.None? ==> SentFrom(sent, senders, ws, i + 1, e, l, results, source, interp)
    ensures one.Some? ==> SentFrom(sent + [one.value], senders + [i], ws, i + 1, e, l, results, source, interp)
  {
    if one.Some? {
      var sent', senders' := sent + [one.value], senders + [i];
      assert forall j :: 0 <= j < |sent| ==> sent'[j] == sent[j] && senders'[j] == senders[j];
    }
  }

  /** Watcher `w` can end the cycle: its interpreter reports an error (a
      `log.Fatal`), or it fires and one of its value keys has no result (the
      index -1 panic). */
  ghost predicate MayCrash(w: Watcher, e: map<string, Value>, l: map<string, Value>, results: Results,
                           interp: Interpreters)
  {
    var v := Verdict(w, e, l, interp);
    !v.Ran? || (v.fired && Attach(w.values, results).None?)
  }

  /** From counters `c0`, watcher `w` runs to completion: its interpreter
      does not fail, and when it fires with its counter at 0 its values can
      be attached. */
  ghost predicate WatcherOk(w: Watcher, scope: string, e: map<string, Value>, l: map<string, Value>,
                            results: Results, interp: Interpreters, c0: map<Key, nat>)
  {
    var v := Verdict(w, e, l, interp);
    v.Ran? && !(v.fired && Count(c0, Key(scope, w.name)) == 0 && Attach(w.values, results).None?)
  }

  /** Watcher `w`, at index `i` of its scope, ran to completion from counters
      `c0`: it is among `senders` exactly when it fired with its counter at
      0, and its counter in `c` has stepped once. */
  ghost predicate StepOk(w: Watcher, i: nat, scope: string, e: map<string, Value>, l: map<string, Value>,
                         results: Results, interp: Interpreters, c0: map<Key, nat>, c: map<Key, nat>,
                         senders: seq<nat>)
  {
    var v := Verdict(w, e, l, interp);
    var before := Count(c0, Key(scope, w.name));
    WatcherOk(w, scope, e, l, results, interp, c0)
    && v.Ran? && (i in senders <==> v.fired && before == 0)
    && Count(c, Key(scope, w.name)) == if v.fired then before + 1 else 0
  }

  /** The first `n` watchers of a scope have each run and stepped. */
  ghost predicate Stepped(ws: seq<Watcher>, n: nat, scope: string, e: map<string, Value>, l: map<string, Value>,
                          results: Results, interp: Interpreters, c0: map<Key, nat>, c: map<Key, nat>,
                          senders: seq<nat>)
    requires n <= |ws|
  {
    forall i :: 0 <= i < n ==> StepOk(ws[i], i, scope, e, l, results, interp, c0, c, senders)
  }

  /** How a scope's watcher phase over `e`, `l` and `results` ended, from
      counters `c0` to `c`: it crashed only at a watcher that can crash, and
      completed when none can. With distinct names it completed exactly
      when every watcher runs to completion from `c0`, and then every
      watcher stepped as `Record` says. */
  ghost predicate WatchPhase(status: Status, ws: seq<Watcher>, scope: string, e: map<string, Value>,
                             l: map<string, Value>, results: Results, interp: Interpreters,
                             c0: map<Key, nat>, c: map<Key, nat>, senders: seq<nat>)
  {
    (status.Crashed? ==> exists i :: 0 <= i < |ws| && MayCrash(ws[i], e, l, results, interp))
    && ((forall i :: 0 <= i < |ws| ==> !MayCrash(ws[i], e, l, results, interp)) ==> status.Completed?)
    && (DistinctNames(ws) ==>
          (status.Completed? <==> forall i :: 0 <= i < |ws| ==> WatcherOk(ws[i], scope, e, l, results, interp, c0))
          && (status.Completed? ==> Stepped(ws, |ws|, scope, e, l, results, interp, c0, c, senders)))
  }

  /** Running watcher `i` to completion and recording its verdict extends
      `Stepped` to it, provided names are distinct. */
  lemma SteppedNext(ws: seq<Watcher>, i: nat, scope: string, e: map<string, Value>, l: map<string, Value>,
                    results: Results, interp: Interpreters, c0: map<Key, nat>, before: map<Key, nat>,
                    after: map<Key, nat>, senders: seq<nat>, sends: bool)
    requires i < |ws| && DistinctNames(ws)
    requires Stepped(ws, i, scope, e, l, results, interp, c0, before, senders)
    requires forall k :: k !in ScopeKeys(scope, ws[..i]) ==> Count(before, k) == Count(c0, k)
    requires forall j :: 0 <= j < |senders| ==> senders[j] < i
    requires var v := Verdict(ws[i], e, l, interp);
             var k := Key(scope, ws[i].name);
             v.Ran? && !(v.fired && Count(before, k) == 0 && Attach(ws[i].values, results).None?)
             && after == before[k := if v.fired then Count(before, k) + 1 else 0]
             && (sends <==> v.fired && Count(before, k) == 0)
    ensures Stepped(ws, i + 1, scope, e, l, results, interp, c0, after, if sends then senders + [i] else senders)
  {
    var k := Key(scope, ws[i].name);
    FreshKey(scope, ws, i);
    assert Count(before, k) == Count(c0, k);
    var senders' := if sends then senders + [i] else senders;
    assert i in senders' <==> sends;
    forall i' | 0 <= i' < i
      ensures StepOk(ws[i'], i', scope, e, l, results, interp, c0, after, senders')
    {
      assert StepOk(ws[i'], i', scope, e, l, results, interp, c0, before, senders);
      assert ws[i'] in ws[..i];
      var k' := Key(scope, ws[i'].name);
      assert k' != k;
      assert Count(after, k') == Count(before, k');
      assert i' in senders' <==> i' in senders;
    }
  }

  /** The watcher phase of one scope: each watcher in turn is run against
      `state`, its verdict goes through the cache, and a notification is sent
      when it fired with its counter at 0. `senders` names, for each
      notification, the index of the watcher that sent it. */
  method RunWatchers(cache: Cache, state: State, results: Results, ws: seq<Watcher>,
                     scope: string, source: string, interp: Interpreters)
    returns (status: Status, sent: seq<Notification>, ghost senders: seq<nat>)
    modifies cache, state
    ensures state.expr == old(state.expr)
    ensures status.Crashed? ==> status.why.ScriptError? || status.why == MissingResult
    ensures forall k :: k !in ScopeKeys(scope, ws) ==> Count(cache.counters, k) == Count(old(cache.counters), k)
    ensures SentFrom(sent, senders, ws, |ws|, old(state.expr), old(state.lua)["alert" := AlertHook],
                     results, source, interp)
    ensures WatchPhase(status, ws, scope, old(state.expr), old(state.lua)["alert" := AlertHook], results, interp,
                       old(cache.counters), cache.counters, senders)
  {
    ghost var e0, l0, c0 := state.expr, state.lua, cache.counters;
    ghost var lh := l0["alert" := AlertHook];
    sent, senders := [], [];
    for i := 0 to |ws|
      invariant state.expr == e0
      invariant state.lua == l0 || state.lua == lh
      invariant forall k :: k !in ScopeKeys(scope, ws[..i]) ==> Count(cache.counters, k) == Count(c0, k)
      invariant SentFrom(sent, senders, ws, i, e0, lh, results, source, interp)
      invariant DistinctNames(ws) ==> Stepped(ws, i, scope, e0, lh, results, interp, c0, cache.counters, senders)
    {
      assert state.lua["alert" := AlertHook] == lh;
      ghost var before := cache.counters;
      var st, one := RunWatcher(cache, state, results, ws[i], scope, source, interp);
      if st.Crashed? {
        assert MayCrash(ws[i], e0, lh, results, interp);
        if DistinctNames(ws) {
          FreshKey(scope, ws, i);
          assert !WatcherOk(ws[i], scope, e0, lh, results, interp, c0);
        }
        return st, sent, senders;
      }
      ghost var sendersBefore := senders;
      SentFromNext(sent, senders, ws, i, e0, lh, results, source, interp, one);
      if one.Some? {
        sent := sent + [one.value];
        senders := senders + [i];
      }
      forall k | k !in ScopeKeys(scope, ws[..i + 1])
        ensures Count(cache.counters, k) == Count(c0, k)
      {
        ScopeKeysStep(scope, ws, i, k);
      }
      if DistinctNames(ws) {
        SteppedNext(ws, i, scope, e0, lh, results, interp, c0, before, cache.counters, sendersBefore, one.Some?);
      }
    }
    assert ws[..|ws|] == ws;
    status := Completed;
    if DistinctNames(ws) {
      assert forall i :: 0 <= i < |ws| ==> StepOk(ws[i], i, scope, e0, lh, results, interp, c0, cache.counters, senders);
    }
  }

  /** The history query a pair makes: its interval in minutes, hours or days
      picks the resolution and gives the aggregate. */
  function Ticks(t: TradingPair, fetch: Fetcher): (data: seq<CC.Tick>)
    ensures var iv := TI.Parse(t.interval);
            (iv.unit == TI.Minute && iv.num < 60 ==>
               data == fetch(PerMinute, t.coin, t.currency, iv.num, t.length, t.exchange))
            && (iv.unit == TI.Minute && iv.num >= 60 ==>
                  data == fetch(PerHour, t.coin, t.currency, iv.num / 60, t.length, t.exchange))
            && (iv.unit == TI.Day ==> data == fetch(PerDay, t.coin, t.currency, iv.num, t.length, t.exchange))
            && (iv.unit == TI.Week ==> data == fetch(PerDay, t.coin, t.currency, 7 * iv.num, t.length, t.exchange))
            && (iv.unit == TI.Month ==> data == fetch(PerDay, t.coin, t.currency, 30 * iv.num, t.length, t.exchange))
  {
    var iv := TI.MinHourDay(TI.Parse(t.interval));
    var res := if iv.unit == TI.Minute then PerMinute else if iv.unit == TI.Hour then PerHour else PerDay;
    fetch(res, t.coin, t.currency, iv.num, t.length, t.exchange)
  }

  /** The label of a pair in its notifications. */
  function PairSource(t: TradingPair): string
  {
    t.name + " " + t.interval
  }

  /** The five series of a tick list, in tick order. */
  function Ohlcv(data: seq<CC.Tick>): (src: Ohlcv5)
    ensures |src.open| == |src.high| == |src.low| == |src.close| == |src.vol| == |data|
  {
    Ohlcv5(seq(|data|, i requires 0 <= i < |data| => data[i].open),
           seq(|data|, i requires 0 <= i < |data| => data[i].high),
           seq(|data|, i requires 0 <= i < |data| => data[i].low),
           seq(|data|, i requires 0 <= i < |data| => data[i].close),
           seq(|data|, i requires 0 <= i < |data| => data[i].volumeFrom))
  }

  /** The publication phase of a pair completes: it has ticks and every
      indicator survives. */
  predicate Publishes(t: TradingPair, fetch: Fetcher, ta: TaLib)
  {
    |Ticks(t, fetch)| > 0 && AllSurvive(Ohlcv(Ticks(t, fetch)), t.indicators, ta)
  }

  /** Everything a pair publishes, in order: its base bindings, then its
      indicators' outputs. */
  function PairBindings(t: TradingPair, fetch: Fetcher, ta: TaLib): (bs: seq<Binding>)
    requires Publishes(t, fetch, ta)
  {
    var src := Ohlcv(Ticks(t, fetch));
    BaseBindings(t, src) + IndicatorBindings(src, t.indicators, ta)
  }

  /** The publication phase of one pair: a fresh local context, the fetch,
      the base series and the indicators. It completes exactly when the
      pair publishes, and then the contexts are those the pair's bindings
      make. */
  method PublishPair(g: State, gr: Results, t: TradingPair, fetch: Fetcher, ta: TaLib)
    returns (status: Status, gr': Results, l: State, lr: Results)
    modifies g
    ensures fresh(l)
    ensures status.Completed? <==> Publishes(t, fetch, ta)
    ensures |Ticks(t, fetch)| == 0 ==> status == Crashed(EmptySeries)
    ensures status.Completed? ==>
              Contexts(g.expr, g.lua, gr', l.expr, l.lua, lr)
              == Apply(Contexts(old(g.expr), old(g.lua), gr, map[], map[], map[]), t.slug, PairBindings(t, fetch, ta))
              && Published(g.expr, g.lua, gr', l.expr, l.lua, lr, t)
  {
    l := new State.Init();
    var data := Ticks(t, fetch);
    var open := CC.Open(data);
    var high := CC.High(data);
    var low := CC.Low(data);
    var close := CC.Close(data);
    var vol := CC.VolumeFrom(data);
    gr', lr := gr, map[];
    if |data| == 0 {
      return Crashed(EmptySeries), gr', l, lr;
    }
    var src := Ohlcv5(open, high, low, close, vol);
    assert src == Ohlcv(data);
    ghost var c0 := Contexts(g.expr, g.lua, gr, map[], map[], map[]);
    gr', lr := PublishBase(g, l, gr, t, src);
    ghost var c1 := Contexts(g.expr, g.lua, gr', l.expr, l.lua, lr);
    status, gr', lr := PublishIndicators(g, l, gr', lr, t, src, ta);
    if status.Completed? {
      ApplyConcat(c0, t.slug, BaseBindings(t, src), IndicatorBindings(src, t.indicators, ta));
    }
  }

  /** `sent` is what a pair sends after publishing local context `e`, `l`
      and results `results`: the update notification first, when the pair
      asks for one, then one notification from each watcher in `senders`, by
      increasing index in `t.watchers`. */
  predicate PairNotified(sent: seq<Notification>, senders: seq<nat>, t: TradingPair,
                         e: map<string, Value>, l: map<string, Value>, results: Results, interp: Interpreters)
  {
    var off := if |t.update| > 0 then 1 else 0;
    off <= |sent|
    && (off == 1 ==> Attach(t.update, results).Some?
                     && sent[0] == Notification("Update", PairSource(t), "", Attach(t.update, results).value))
    && SentFrom(sent[off..], senders, t.watchers, |t.watchers|, e, l["alert" := AlertHook], results, PairSource(t), interp)
  }


  /** The update notification, when there is one, followed by what the
      pair's watchers sent is what `PairNotified` describes. */
  lemma PairNotifiedJoin(first: seq<Notification>, fromWatchers: seq<Notification>, senders: seq<nat>,
                         t: TradingPair, e: map<string, Value>, l: map<string, Value>, results: Results,
                         interp: Interpreters)
    requires |t.update| == 0 ==> first == []
    requires |t.update| > 0 ==> Attach(t.update, results).Some?
                                && first == [Notification("Update", PairSource(t), "", Attach(t.update, results).value)]
    requires SentFrom(fromWatchers, senders, t.watchers, |t.watchers|, e, l["alert" := AlertHook], results,
                      PairSource(t), interp)
    ensures PairNotified(first + fromWatchers, senders, t, e, l, results, interp)
    ensures forall j :: 0 <= j < |first + fromWatchers| ==> (first + fromWatchers)[j].source == PairSource(t)
  {
    var sent := first + fromWatchers;
    assert |first| == if |t.update| > 0 then 1 else 0;
    assert sent[|first|..] == fromWatchers;
    forall j | 0 <= j < |sent|
      ensures sent[j].source == PairSource(t)
    {
      if j < |first| {
        assert sent[j] == first[0];
      } else {
        assert sent[j] == fromWatchers[j - |first|];
      }
    }
  }

  /** The notification phase of one pair: the update notification, when
      the pair asks for one, then the pair's watchers against its local
      context. `senders` names, for each watcher notification, the index of
      the watcher in `t.watchers` that sent it. */
  method NotifyPair(cache: Cache, l: State, lr: Results, t: TradingPair, interp: Interpreters)
    returns (status: Status, sent: seq<Notification>, ghost senders: seq<nat>)
    modifies cache, l
    ensures |t.update| > 0 && Attach(t.update, lr).None? ==>
              status == Crashed(MissingResult) && sent == [] && cache.counters == old(cache.counters)
    ensures |t.update| == 0 || Attach(t.update, lr).Some? ==>
              PairNotified(sent, senders, t, old(l.expr), old(l.lua), lr, interp)
              && WatchPhase(status, t.watchers, t.slug, old(l.expr), old(l.lua)["alert" := AlertHook], lr, interp,
                            old(cache.counters), cache.counters, senders)
    ensures forall j :: 0 <= j < |sent| ==> sent[j].source == PairSource(t)
    ensures forall k :: k !in ScopeKeys(t.slug, t.watchers) ==> Count(cache.counters, k) == Count(old(cache.counters), k)
  {
    var first: seq<Notification> := [];
    if |t.update| > 0 {
      var values := AttachValues(t.update, lr);
      if values.None? {
        return Crashed(MissingResult), [], [];
      }
      first := [Notification("Update", PairSource(t), "", values.value)];
    }
    var fromWatchers;
    status, fromWatchers, senders := RunWatchers(cache, l, lr, t.watchers, t.slug, PairSource(t), interp);
    sent := first + fromWatchers;
    PairNotifiedJoin(first, fromWatchers, senders, t, old(l.expr), old(l.lua), lr, interp);
  }


  /** How one pair's processing ended, from the global context `g`, `gl`,
      `gr` and counters `c0` to counters `c`. A pair that does not publish
      crashes (with EmptySeries when it has no ticks) and sends nothing. A
      pair that publishes, over the local context its bindings make, crashes
      with nothing sent when an update key has no result; otherwise it sends
      the update notification and its watchers' notifications, and its
      watcher phase ends as `WatchPhase` says. Every notification carries
      the pair's source, and only the pair's watcher keys change. */
  ghost predicate PairOutcome(t: TradingPair, fetch: Fetcher, ta: TaLib, interp: Interpreters,
                              g: map<string, Value>, gl: map<string, Value>, gr: Results,
                              status: Status, sent: seq<Notification>, senders: seq<nat>,
                              c0: map<Key, nat>, c: map<Key, nat>)
  {
    (|Ticks(t, fetch)| == 0 ==> status == Crashed(EmptySeries))
    && (!Publishes(t, fetch, ta) ==> status.Crashed? && sent == [] && c == c0)
    && (Publishes(t, fetch, ta) ==>
          var p := Apply(Contexts(g, gl, gr, map[], map[], map[]), t.slug, PairBindings(t, fetch, ta));
          if |t.update| > 0 && Attach(t.update, p.lr).None? then
            status == Crashed(MissingResult) && sent == [] && c == c0
          else
            PairNotified(sent, senders, t, p.l, p.ll, p.lr, interp)
            && WatchPhase(status, t.watchers, t.slug, p.l, p.ll["alert" := AlertHook], p.lr, interp, c0, c, senders))
    && (forall j :: 0 <= j < |sent| ==> sent[j].source == PairSource(t))
    && (forall k :: k !in ScopeKeys(t.slug, t.watchers) ==> Count(c, k) == Count(c0, k))
  }

  /** One trading pair: publish, then notify. The ghost outputs are the
      local context and results the watchers saw, and the index in
      `t.watchers` of each watcher that sent a notification. */
  method ProcessPair(cache: Cache, g: State, gr: Results, t: TradingPair, fetch: Fetcher, ta: TaLib,
                     interp: Interpreters)
    returns (status: Status, gr': Results, sent: seq<Notification>,
             ghost le: map<string, Value>, ghost ll: map<string, Value>, ghost lr: Results,
             ghost senders: seq<nat>)
    modifies cache, g
    ensures Publishes(t, fetch, ta) ==>
              Contexts(g.expr, g.lua, gr', le, ll, lr)
              == Apply(Contexts(old(g.expr), old(g.lua), gr, map[], map[], map[]), t.slug, PairBindings(t, fetch, ta))
              && Published(g.expr, g.lua, gr', le, ll, lr, t)
    ensures PairOutcome(t, fetch, ta, interp, old(g.expr), old(g.lua), gr, status, sent, senders,
                        old(cache.counters), cache.counters)
  {
    var l: State, lres: Results;
    status, gr', l, lres := PublishPair(g, gr, t, fetch, ta);
    le, ll, lr := l.expr, l.lua, lres;
    sent, senders := [], [];
    if status.Crashed? {
      return;
    }
    status, sent, senders := NotifyPair(cache, l, lres, t, interp);
  }

  /** Pair `t` can end the cycle over the global context `g`, `gl`, `gr`:
      it does not publish, or over the local context its bindings make an
      update key has no result or one of its watchers can crash. */
  ghost predicate PairMayCrash(t: TradingPair, fetch: Fetcher, ta: TaLib, interp: Interpreters,
                               g: map<string, Value>, gl: map<string, Value>, gr: Results)
  {
    !Publishes(t, fetch, ta)
    || (var p := Apply(Contexts(g, gl, gr, map[], map[], map[]), t.slug, PairBindings(t, fetch, ta));
        (|t.update| > 0 && Attach(t.update, p.lr).None?)
        || exists i :: 0 <= i < |t.watchers| && MayCrash(t.watchers[i], p.l, p.ll["alert" := AlertHook], p.lr, interp))
  }

  /** A pair crashes only when it can crash; a pair that cannot crash
      completes. */
  lemma PairCrashReason(t: TradingPair, fetch: Fetcher, ta: TaLib, interp: Interpreters,
                        g: map<string, Value>, gl: map<string, Value>, gr: Results,
                        status: Status, sent: seq<Notification>, senders: seq<nat>,
                        c0: map<Key, nat>, c: map<Key, nat>)
    requires PairOutcome(t, fetch, ta, interp, g, gl, gr, status, sent, senders, c0, c)
    ensures status.Crashed? ==> PairMayCrash(t, fetch, ta, interp, g, gl, gr)
    ensures !PairMayCrash(t, fetch, ta, interp, g, gl, gr) ==> status.Completed?
  {
  }

  /** The labels of all configured pairs. */
  function PairSources(pairs: seq<TradingPair>): set<string>
  {
    set t | t in pairs :: PairSource(t)
  }

  /** The cache keys of every watcher the configuration names: the pairs'
      watchers under their slugs and the global watchers under "global". */
  function PairKeys(pairs: seq<TradingPair>): set<Key>
  {
    set t, w | t in pairs && w in t.watchers :: Key(t.slug, w.name)
  }

  /** Every pair's publication phase completes. */
  predicate AllPublish(pairs: seq<TradingPair>, fetch: Fetcher, ta: TaLib)
  {
    forall i :: 0 <= i < |pairs| ==> Publishes(pairs[i], fetch, ta)
  }

  /** The global context and results once the given pairs have published in
      order, each from a fresh local context. */
  function SharedAfter(pairs: seq<TradingPair>, fetch: Fetcher, ta: TaLib): (c: Contexts)
    requires AllPublish(pairs, fetch, ta)
    decreases |pairs|
  {
    if pairs == [] then Contexts(map[], map[], map[], map[], map[], map[])
    else
      var prev := SharedAfter(pairs[..|pairs| - 1], fetch, ta);
      var t := pairs[|pairs| - 1];
      Apply(Contexts(prev.g, prev.gl, prev.gr, map[], map[], map[]), t.slug, PairBindings(t, fetch, ta))
  }

  /** Appending notifications labelled `source` keeps every label among `sources`. */
  lemma SourcesJoin(done: seq<Notification>, more: seq<Notification>, sources: set<string>, source: string)
    requires source in sources
    requires forall j :: 0 <= j < |done| ==> done[j].source in sources
    requires forall j :: 0 <= j < |more| ==> more[j].source == source
    ensures forall j :: 0 <= j < |done + more| ==> (done + more)[j].source in sources
  {
    forall j | |done| <= j < |done + more|
      ensures (done + more)[j].source in sources
    {
      assert (done + more)[j] == more[j - |done|];
    }
  }

  /** Extending the pairs processed so far by one that publishes applies its bindings. */
  lemma SharedAfterStep(pairs: seq<TradingPair>, i: nat, fetch: Fetcher, ta: TaLib)
    requires i < |pairs| && AllPublish(pairs[..i], fetch, ta) && Publishes(pairs[i], fetch, ta)
    ensures AllPublish(pairs[..i + 1], fetch, ta)
    ensures var s := SharedAfter(pairs[..i], fetch, ta);
            SharedAfter(pairs[..i + 1], fetch, ta)
            == Apply(Contexts(s.g, s.gl, s.gr, map[], map[], map[]), pairs[i].slug, PairBindings(pairs[i], fetch, ta))
  {
    var p := pairs[..i + 1];
    assert p[..|p| - 1] == pairs[..i];
    assert p[|p| - 1] == pairs[i];
    forall j | 0 <= j < |p|
      ensures Publishes(p[j], fetch, ta)
    {
      if j < i {
        assert p[j] == pairs[..i][j];
      }
    }
  }

  /** What one pair's run did: how it ended, the notifications it sent, the
      index in its watcher list of each watcher that sent one, and the
      debounce counters before and after. */
  datatype PairRun = PairRun(status: Status, sent: seq<Notification>, senders: seq<nat>,
                             before: map<Key, nat>, after: map<Key, nat>)

  /** The notifications of several runs, one run after the other. */
  function Concat(runs: seq<PairRun>): (all: seq<Notification>)
    decreases |runs|
  {
    if runs == [] then [] else Concat(runs[..|runs| - 1]) + runs[|runs| - 1].sent
  }

  /** Appending a run appends its notifications. */
  lemma ConcatSnoc(runs: seq<PairRun>, r: PairRun)
    ensures Concat(runs + [r]) == Concat(runs) + r.sent
  {
    assert (runs + [r])[..|runs|] == runs;
  }

  /** The counters after the given runs, starting from `c0`. */
  function After(c0: map<Key, nat>, runs: seq<PairRun>): map<Key, nat>
  {
    if runs == [] then c0 else runs[|runs| - 1].after
  }

  /** Pair `pairs[p]` ran as `r` says, from the global context the pairs
      before it left (they all publish). */
  ghost predicate PairRan(pairs: seq<TradingPair>, p: nat, fetch: Fetcher, ta: TaLib, interp: Interpreters, r: PairRun)
    requires p < |pairs|
  {
    AllPublish(pairs[..p], fetch, ta)
    && (var s := SharedAfter(pairs[..p], fetch, ta);
        PairOutcome(pairs[p], fetch, ta, interp, s.g, s.gl, s.gr, r.status, r.sent, r.senders, r.before, r.after))
  }

  /** Each run starts from the counters the one before it left, the first
      from `c0`. */
  ghost predicate Chained(c0: map<Key, nat>, runs: seq<PairRun>)
  {
    (|runs| > 0 ==> runs[0].before == c0)
    && forall p, q :: 0 <= p && q == p + 1 && q < |runs| ==> runs[q].before == runs[p].after
  }

  /** The first `|runs|` pairs ran in order, chained from the counters `c0`. */
  ghost predicate PairsRan(pairs: seq<TradingPair>, fetch: Fetcher, ta: TaLib, interp: Interpreters,
                           c0: map<Key, nat>, runs: seq<PairRun>)
  {
    |runs| <= |pairs| && Chained(c0, runs)
    && forall p {:trigger PairRan(pairs, p, fetch, ta, interp, runs[p])} ::
         0 <= p < |runs| ==> PairRan(pairs, p, fetch, ta, interp, runs[p])
  }

  /** The pair phase ended with `status` after `runs`: every run but the last
      completed; a completed phase ran every pair, a crashed one stopped at
      the pair whose run crashed. */
  ghost predicate PairsOutcome(pairs: seq<TradingPair>, fetch: Fetcher, ta: TaLib, interp: Interpreters,
                               c0: map<Key, nat>, status: Status, runs: seq<PairRun>)
  {
    PairsRan(pairs, fetch, ta, interp, c0, runs)
    && (forall p :: 0 <= p < |runs| - 1 ==> runs[p].status == Completed)
    && (status.Completed? ==> |runs| == |pairs| && forall p :: 0 <= p < |runs| ==> runs[p].status == Completed)
    && (status.Crashed? ==> |runs| > 0 && runs[|runs| - 1].status == status)
  }

  /** Appending a run keeps the runs before it as they were. */
  lemma PairsRanPrefix(pairs: seq<TradingPair>, fetch: Fetcher, ta: TaLib, interp: Interpreters,
                       c0: map<Key, nat>, runs: seq<PairRun>, r: PairRun)
    requires PairsRan(pairs, fetch, ta, interp, c0, runs) && |runs| < |pairs|
    ensures forall p :: 0 <= p < |runs| ==> PairRan(pairs, p, fetch, ta, interp, (runs + [r])[p])
  {
    forall p | 0 <= p < |runs|
      ensures PairRan(pairs, p, fetch, ta, interp, (runs + [r])[p])
    {
      assert (runs + [r])[p] == runs[p];
    }
  }

  /** A run that starts from the counters the others left keeps them chained. */
  lemma ChainedNext(c0: map<Key, nat>, runs: seq<PairRun>, r: PairRun)
    requires Chained(c0, runs) && r.before == After(c0, runs)
    ensures Chained(c0, runs + [r])
  {
    var runs' := runs + [r];
    forall p, q | 0 <= p && q == p + 1 && q < |runs'|
      ensures runs'[q].before == runs'[p].after
    {
      assert runs'[p] == runs[p];
    }
  }

  /** One more pair, run after the others from the counters they left,
      extends `PairsRan`. */
  lemma PairsRanNext(pairs: seq<TradingPair>, fetch: Fetcher, ta: TaLib, interp: Interpreters,
                     c0: map<Key, nat>, runs: seq<PairRun>, r: PairRun)
    requires PairsRan(pairs, fetch, ta, interp, c0, runs) && |runs| < |pairs|
    requires r.before == After(c0, runs) && PairRan(pairs, |runs|, fetch, ta, interp, r)
    ensures PairsRan(pairs, fetch, ta, interp, c0, runs + [r])
  {
    PairsRanPrefix(pairs, fetch, ta, interp, c0, runs, r);
    ChainedNext(c0, runs, r);
    assert (runs + [r])[|runs|] == r;
  }

  /** A pair run from the global context the pairs before it left, and from
      the counters they left, extends `PairsRan`. */
  lemma PairsRanStep(pairs: seq<TradingPair>, fetch: Fetcher, ta: TaLib, interp: Interpreters,
                     c0: map<Key, nat>, runs: seq<PairRun>, g: map<string, Value>, gl: map<string, Value>,
                     gr: Results, r: PairRun)
    requires PairsRan(pairs, fetch, ta, interp, c0, runs) && |runs| < |pairs|
    requires AllPublish(pairs[..|runs|], fetch, ta)
    requires var s := SharedAfter(pairs[..|runs|], fetch, ta); g == s.g && gl == s.gl && gr == s.gr
    requires r.before == After(c0, runs)
    requires PairOutcome(pairs[|runs|], fetch, ta, interp, g, gl, gr, r.status, r.sent, r.senders, r.before, r.after)
    ensures PairsRan(pairs, fetch, ta, interp, c0, runs + [r])
  {
    assert PairRan(pairs, |runs|, fetch, ta, interp, r);
    PairsRanNext(pairs, fetch, ta, interp, c0, runs, r);
  }

  /** Every prefix of the runs ran as `PairsRan` says. */
  lemma PairsRanTake(pairs: seq<TradingPair>, fetch: Fetcher, ta: TaLib, interp: Interpreters,
                     c0: map<Key, nat>, runs: seq<PairRun>, n: nat)
    requires PairsRan(pairs, fetch, ta, interp, c0, runs) && n <= |runs|
    ensures PairsRan(pairs, fetch, ta, interp, c0, runs[..n])
  {
    forall p | 0 <= p < n
      ensures PairRan(pairs, p, fetch, ta, interp, runs[..n][p])
    {
      assert runs[..n][p] == runs[p];
      assert PairRan(pairs, p, fetch, ta, interp, runs[p]);
    }
    forall p, q | 0 <= p && q == p + 1 && q < n
      ensures runs[..n][q].before == runs[..n][p].after
    {
      assert runs[..n][q] == runs[q] && runs[..n][p] == runs[p];
    }
  }

  /** The keys of one pair's watchers are among the pairs' keys. */
  lemma ScopeKeysIn(pairs: seq<TradingPair>, i: nat)
    requires i < |pairs|
    ensures ScopeKeys(pairs[i].slug, pairs[i].watchers) <= PairKeys(pairs)
  {
    forall k | k in ScopeKeys(pairs[i].slug, pairs[i].watchers)
      ensures k in PairKeys(pairs)
    {
      var w :| w in pairs[i].watchers && k == Key(pairs[i].slug, w.name);
      assert pairs[i] in pairs;
    }
  }

  /** Every notification of the pair runs carries the label of a configured
      pair. */
  lemma {:induction false} RunsSources(pairs: seq<TradingPair>, fetch: Fetcher, ta: TaLib, interp: Interpreters,
                                       c0: map<Key, nat>, runs: seq<PairRun>)
    requires PairsRan(pairs, fetch, ta, interp, c0, runs)
    ensures forall j :: 0 <= j < |Concat(runs)| ==> Concat(runs)[j].source in PairSources(pairs)
    decreases |runs|
  {
    if runs != [] {
      var n := |runs| - 1;
      PairsRanTake(pairs, fetch, ta, interp, c0, runs, n);
      RunsSources(pairs, fetch, ta, interp, c0, runs[..n]);
      assert PairRan(pairs, n, fetch, ta, interp, runs[n]);
      assert pairs[n] in pairs;
      SourcesJoin(Concat(runs[..n]), runs[n].sent, PairSources(pairs), PairSource(pairs[n]));
    }
  }

  /** The pair runs change no debounce counter but those of the pairs'
      watchers. */
  lemma {:induction false} RunsKeys(pairs: seq<TradingPair>, fetch: Fetcher, ta: TaLib, interp: Interpreters,
                                    c0: map<Key, nat>, runs: seq<PairRun>)
    requires PairsRan(pairs, fetch, ta, interp, c0, runs)
    ensures forall k :: k !in PairKeys(pairs) ==> Count(After(c0, runs), k) == Count(c0, k)
    decreases |runs|
  {
    if runs != [] {
      var n := |runs| - 1;
      PairsRanTake(pairs, fetch, ta, interp, c0, runs, n);
      RunsKeys(pairs, fetch, ta, interp, c0, runs[..n]);
      assert PairRan(pairs, n, fetch, ta, interp, runs[n]);
      ScopeKeysIn(pairs, n);
      if n > 0 {
        assert runs[n].before == runs[n - 1].after;
        assert runs[..n][n - 1] == runs[n - 1];
      }
    }
  }

  /** How the pair phase ends once the loop stops after `runs`, with
      `status`: its outcome, the labels of what it sent and the counters it
      left alone. */
  lemma PairsEnd(pairs: seq<TradingPair>, fetch: Fetcher, ta: TaLib, interp: Interpreters,
                 c0: map<Key, nat>, runs: seq<PairRun>, status: Status)
    requires PairsRan(pairs, fetch, ta, interp, c0, runs)
    requires forall p :: 0 <= p < |runs| - 1 ==> runs[p].status == Completed
    requires status.Completed? ==> |runs| == |pairs| && forall p :: 0 <= p < |runs| ==> runs[p].status == Completed
    requires status.Crashed? ==> |runs| > 0 && runs[|runs| - 1].status == status
    ensures PairsOutcome(pairs, fetch, ta, interp, c0, status, runs)
    ensures forall j :: 0 <= j < |Concat(runs)| ==> Concat(runs)[j].source in PairSources(pairs)
    ensures forall k :: k !in PairKeys(pairs) ==> Count(After(c0, runs), k) == Count(c0, k)
  {
    RunsSources(pairs, fetch, ta, interp, c0, runs);
    RunsKeys(pairs, fetch, ta, interp, c0, runs);
  }

  /** The pair loop so far: the pairs of `runs` ran and completed, leaving
      the notifications `sent`, the counters `counters` and the global
      context and results `ge`, `gl`, `gr`. */
  ghost predicate PhaseSoFar(pairs: seq<TradingPair>, fetch: Fetcher, ta: TaLib, interp: Interpreters,
                             c0: map<Key, nat>, runs: seq<PairRun>, sent: seq<Notification>, counters: map<Key, nat>,
                             ge: map<string, Value>, gl: map<string, Value>, gr: Results)
  {
    PairsRan(pairs, fetch, ta, interp, c0, runs)
    && (forall p :: 0 <= p < |runs| ==> runs[p].status == Completed)
    && sent == Concat(runs) && counters == After(c0, runs)
    && AllPublish(pairs[..|runs|], fetch, ta)
    && (var s := SharedAfter(pairs[..|runs|], fetch, ta); ge == s.g && gl == s.gl && gr == s.gr)
  }

  /** The pair loop after every pair completed ends the pair phase. */
  lemma PhaseDone(pairs: seq<TradingPair>, fetch: Fetcher, ta: TaLib, interp: Interpreters,
                  c0: map<Key, nat>, runs: seq<PairRun>, sent: seq<Notification>, counters: map<Key, nat>,
                  ge: map<string, Value>, gl: map<string, Value>, gr: Results)
    requires PhaseSoFar(pairs, fetch, ta, interp, c0, runs, sent, counters, ge, gl, gr) && |runs| == |pairs|
    ensures PairsOutcome(pairs, fetch, ta, interp, c0, Completed, runs)
    ensures forall j :: 0 <= j < |sent| ==> sent[j].source in PairSources(pairs)
    ensures forall k :: k !in PairKeys(pairs) ==> Count(counters, k) == Count(c0, k)
    ensures AllPublish(pairs, fetch, ta)
    ensures ge == SharedAfter(pairs, fetch, ta).g && gl == SharedAfter(pairs, fetch, ta).gl
    ensures gr == SharedAfter(pairs, fetch, ta).gr
  {
    assert pairs[..|pairs|] == pairs;
    PairsEnd(pairs, fetch, ta, interp, c0, runs, Completed);
  }

  /** A completed run after completed runs leaves them all completed. */
  lemma CompletedSnoc(runs: seq<PairRun>, r: PairRun)
    requires forall p :: 0 <= p < |runs| ==> runs[p].status == Completed
    requires r.status.Completed?
    ensures forall p :: 0 <= p < |runs + [r]| ==> (runs + [r])[p].status == Completed
  {
  }

  /** The global context after one more published pair is the one that
      pair's bindings make from the context before it. */
  lemma SharedNext(pairs: seq<TradingPair>, i: nat, n: nat, fetch: Fetcher, ta: TaLib,
                   ge: map<string, Value>, gl: map<string, Value>, gr: Results,
                   ge': map<string, Value>, gl': map<string, Value>, gr': Results)
    requires i < |pairs| && n == i + 1 && AllPublish(pairs[..i], fetch, ta) && Publishes(pairs[i], fetch, ta)
    requires var s := SharedAfter(pairs[..i], fetch, ta); ge == s.g && gl == s.gl && gr == s.gr
    requires var p := Apply(Contexts(ge, gl, gr, map[], map[], map[]), pairs[i].slug, PairBindings(pairs[i], fetch, ta));
             ge' == p.g && gl' == p.gl && gr' == p.gr
    ensures AllPublish(pairs[..n], fetch, ta)
    ensures var s' := SharedAfter(pairs[..n], fetch, ta); ge' == s'.g && gl' == s'.gl && gr' == s'.gr
  {
    SharedAfterStep(pairs, i, fetch, ta);
    var s := SharedAfter(pairs[..i], fetch, ta);
    assert Contexts(ge, gl, gr, map[], map[], map[]) == Contexts(s.g, s.gl, s.gr, map[], map[], map[]);
  }

  /** The counters after one more run are those it left. */
  lemma AfterSnoc(c0: map<Key, nat>, runs: seq<PairRun>, r: PairRun)
    ensures After(c0, runs + [r]) == r.after
  {
    assert (runs + [r])[|runs|] == r;
  }

  /** `PhaseSoFar` from its parts. */
  lemma PhaseIntro(pairs: seq<TradingPair>, fetch: Fetcher, ta: TaLib, interp: Interpreters,
                   c0: map<Key, nat>, runs: seq<PairRun>, sent: seq<Notification>, counters: map<Key, nat>,
                   ge: map<string, Value>, gl: map<string, Value>, gr: Results)
    requires PairsRan(pairs, fetch, ta, interp, c0, runs)
    requires forall p :: 0 <= p < |runs| ==> runs[p].status == Completed
    requires sent == Concat(runs) && counters == After(c0, runs)
    requires AllPublish(pairs[..|runs|], fetch, ta)
    requires var s := SharedAfter(pairs[..|runs|], fetch, ta); ge == s.g && gl == s.gl && gr == s.gr
    ensures PhaseSoFar(pairs, fetch, ta, interp, c0, runs, sent, counters, ge, gl, gr)
  {
  }

  /** A completed pair run after the completed `runs`, from the global
      context they left, continues the loop with the context the pair
      published. */
  lemma PhaseNext(pairs: seq<TradingPair>, fetch: Fetcher, ta: TaLib, interp: Interpreters,
                  c0: map<Key, nat>, runs: seq<PairRun>, sent: seq<Notification>,
                  ge: map<string, Value>, gl: map<string, Value>, gr: Results, r: PairRun,
                  ge': map<string, Value>, gl': map<string, Value>, gr': Results)
    requires |runs| < |pairs| && PairsRan(pairs, fetch, ta, interp, c0, runs + [r])
    requires forall p :: 0 <= p < |runs| ==> runs[p].status == Completed
    requires r.status.Completed? && sent == Concat(runs)
    requires AllPublish(pairs[..|runs|], fetch, ta) && Publishes(pairs[|runs|], fetch, ta)
    requires var s := SharedAfter(pairs[..|runs|], fetch, ta); ge == s.g && gl == s.gl && gr == s.gr
    requires var p := Apply(Contexts(ge, gl, gr, map[], map[], map[]), pairs[|runs|].slug,
                            PairBindings(pairs[|runs|], fetch, ta));
             ge' == p.g && gl' == p.gl && gr' == p.gr
    ensures PhaseSoFar(pairs, fetch, ta, interp, c0, runs + [r], sent + r.sent, r.after, ge', gl', gr')
  {
    ConcatSnoc(runs, r);
    SharedNext(pairs, |runs|, |runs + [r]|, fetch, ta, ge, gl, gr, ge', gl', gr');
    CompletedSnoc(runs, r);
    AfterSnoc(c0, runs, r);
    PhaseIntro(pairs, fetch, ta, interp, c0, runs + [r], sent + r.sent, r.after, ge', gl', gr');
  }

  /** A crashed pair run after the completed `runs` ends the pair phase. */
  lemma PhaseCrash(pairs: seq<TradingPair>, fetch: Fetcher, ta: TaLib, interp: Interpreters,
                   c0: map<Key, nat>, runs: seq<PairRun>, sent: seq<Notification>, r: PairRun)
    requires PairsRan(pairs, fetch, ta, interp, c0, runs + [r])
    requires forall p :: 0 <= p < |runs| ==> runs[p].status == Completed
    requires r.status.Crashed? && sent == Concat(runs)
    ensures PairsOutcome(pairs, fetch, ta, interp, c0, r.status, runs + [r])
    ensures sent + r.sent == Concat(runs + [r]) && r.after == After(c0, runs + [r])
    ensures forall j :: 0 <= j < |sent + r.sent| ==> (sent + r.sent)[j].source in PairSources(pairs)
    ensures forall k :: k !in PairKeys(pairs) ==> Count(r.after, k) == Count(c0, k)
  {
    ConcatSnoc(runs, r);
    assert (runs + [r])[|runs|] == r;
    PairsEnd(pairs, fetch, ta, interp, c0, runs + [r], r.status);
  }

  /** A pair whose run crashed can crash over the global context the pairs
      before it left. */
  lemma PairRanCrash(pairs: seq<TradingPair>, p: nat, fetch: Fetcher, ta: TaLib, interp: Interpreters, r: PairRun)
    requires p < |pairs| && PairRan(pairs, p, fetch, ta, interp, r) && r.status.Crashed?
    ensures AllPublish(pairs[..p], fetch, ta)
    ensures var s := SharedAfter(pairs[..p], fetch, ta);
            PairMayCrash(pairs[p], fetch, ta, interp, s.g, s.gl, s.gr)
  {
    var s := SharedAfter(pairs[..p], fetch, ta);
    PairCrashReason(pairs[p], fetch, ta, interp, s.g, s.gl, s.gr, r.status, r.sent, r.senders, r.before, r.after);
  }

  /** A crashed pair phase stopped at the last pair that ran, after every
      earlier pair published, and that pair can crash over the global
      context they left. */
  lemma PairsCrashAt(pairs: seq<TradingPair>, fetch: Fetcher, ta: TaLib, interp: Interpreters,
                     c0: map<Key, nat>, status: Status, runs: seq<PairRun>)
    requires PairsOutcome(pairs, fetch, ta, interp, c0, status, runs) && status.Crashed?
    ensures 0 < |runs| <= |pairs| && AllPublish(pairs[..|runs| - 1], fetch, ta)
    ensures var s := SharedAfter(pairs[..|runs| - 1], fetch, ta);
            PairMayCrash(pairs[|runs| - 1], fetch, ta, interp, s.g, s.gl, s.gr)
  {
    var p := |runs| - 1;
    assert PairRan(pairs, p, fetch, ta, interp, runs[p]);
    PairRanCrash(pairs, p, fetch, ta, interp, runs[p]);
  }

  /** When no pair can crash over the global context the pairs before it
      left, the pair phase completes. */
  lemma PairsComplete(pairs: seq<TradingPair>, fetch: Fetcher, ta: TaLib, interp: Interpreters,
                      c0: map<Key, nat>, status: Status, runs: seq<PairRun>)
    requires PairsOutcome(pairs, fetch, ta, interp, c0, status, runs)
    requires forall p :: 0 <= p < |pairs| && AllPublish(pairs[..p], fetch, ta) ==>
               var s := SharedAfter(pairs[..p], fetch, ta);
               !PairMayCrash(pairs[p], fetch, ta, interp, s.g, s.gl, s.gr)
    ensures status.Completed?
  {
    if status.Crashed? {
      PairsCrashAt(pairs, fetch, ta, interp, c0, status, runs);
      assert false;
    }
  }

  /** One turn of the pair loop: pair `pairs[i]` runs after `runs`, from
      the global context and counters they left. Its run extends them; when
      it crashes, that ends the pair phase. */
  method RunPair(cache: Cache, g: State, gr: Results, pairs: seq<TradingPair>, i: nat, sent: seq<Notification>,
                 fetch: Fetcher, ta: TaLib, interp: Interpreters, ghost c0: map<Key, nat>, ghost runs: seq<PairRun>)
    returns (status: Status, gr': Results, sent': seq<Notification>, ghost r: PairRun)
    requires i == |runs| < |pairs| && PhaseSoFar(pairs, fetch, ta, interp, c0, runs, sent, cache.counters, g.expr, g.lua, gr)
    modifies cache, g
    ensures r.status == status
    ensures status.Completed? ==>
              PhaseSoFar(pairs, fetch, ta, interp, c0, runs + [r], sent', cache.counters, g.expr, g.lua, gr')
    ensures status.Crashed? ==>
              PairsOutcome(pairs, fetch, ta, interp, c0, status, runs + [r])
              && sent' == Concat(runs + [r]) && cache.counters == After(c0, runs + [r])
              && (forall j :: 0 <= j < |sent'| ==> sent'[j].source in PairSources(pairs))
              && (forall k :: k !in PairKeys(pairs) ==> Count(cache.counters, k) == Count(c0, k))
  {
    ghost var before, ge, gl := cache.counters, g.expr, g.lua;
    var st, gr1, fromPair, _, _, _, snd := ProcessPair(cache, g, gr, pairs[i], fetch, ta, interp);
    status, gr', sent' := st, gr1, sent + fromPair;
    r := PairRun(status, fromPair, snd, before, cache.counters);
    PairsRanStep(pairs, fetch, ta, interp, c0, runs, ge, gl, gr, r);
    if status.Completed? {
      PhaseNext(pairs, fetch, ta, interp, c0, runs, sent, ge, gl, gr, r, g.expr, g.lua, gr');
    } else {
      PhaseCrash(pairs, fetch, ta, interp, c0, runs, sent, r);
    }
  }

  /** The pair phase of `mainLoop`: a fresh global context, then each pair
      in configuration order until one crashes. The ghost output holds one
      run per pair that ran. */
  method RunPairs(cache: Cache, pairs: seq<TradingPair>, fetch: Fetcher, ta: TaLib, interp: Interpreters)
    returns (status: Status, g: State, gr: Results, sent: seq<Notification>, ghost runs: seq<PairRun>)
    modifies cache
    ensures fresh(g)
    ensures PairsOutcome(pairs, fetch, ta, interp, old(cache.counters), status, runs)
    ensures sent == Concat(runs)
    ensures cache.counters == After(old(cache.counters), runs)
    ensures forall j :: 0 <= j < |sent| ==> sent[j].source in PairSources(pairs)
    ensures status.Completed? ==>
              AllPublish(pairs, fetch, ta)
              && g.expr == SharedAfter(pairs, fetch, ta).g
              && g.lua == SharedAfter(pairs, fetch, ta).gl
              && gr == SharedAfter(pairs, fetch, ta).gr
    ensures forall k :: k !in PairKeys(pairs) ==> Count(cache.counters, k) == Count(old(cache.counters), k)
  {
    ghost var c0 := cache.counters;
    g := new State.Init();
    gr := map[];
    sent := [];
    runs := [];
    assert pairs[..0] == [];
    for i := 0 to |pairs|
      invariant fresh(g) && |runs| == i
      invariant PhaseSoFar(pairs, fetch, ta, interp, c0, runs, sent, cache.counters, g.expr, g.lua, gr)
    {
      var st;
      ghost var r;
      st, gr, sent, r := RunPair(cache, g, gr, pairs, i, sent, fetch, ta, interp, c0, runs);
      runs := runs + [r];
      if st.Crashed? {
        return st, g, gr, sent, runs;
      }
    }
    status := Completed;
    PhaseDone(pairs, fetch, ta, interp, c0, runs, sent, cache.counters, g.expr, g.lua, gr);
  }

  /** The source's `mainLoop`: the pairs in configuration order, then the
      global watchers against the global context. Notifications are returned
      in the order they are sent; those from index `globalFrom` on come from
      global watchers. The ghost outputs are the pair runs as in `RunPairs`;
      whether the global watchers ran; the global context and results they
      saw; and the index in `cfg.watchers` of each global watcher that sent
      a notification. */
  method MainLoop(cache: Cache, cfg: Config, fetch: Fetcher, ta: TaLib, interp: Interpreters)
    returns (status: Status, sent: seq<Notification>, ghost globalFrom: nat, ghost runs: seq<PairRun>,
             ghost globalRan: bool, ghost ge: map<string, Value>, ghost gl: map<string, Value>, ghost gres: Results,
             ghost gsenders: seq<nat>)
    modifies cache
    ensures globalFrom <= |sent| && sent[..globalFrom] == Concat(runs)
    ensures PairsOutcome(cfg.tradingpairs, fetch, ta, interp, old(cache.counters),
                         if globalRan then Completed else status, runs)
    ensures forall j :: 0 <= j < globalFrom ==> sent[j].source in PairSources(cfg.tradingpairs)
    ensures forall j :: globalFrom <= j < |sent| ==> sent[j].source == ""
    ensures status.Completed? ==> globalRan
    ensures !globalRan ==> globalFrom == |sent| && cache.counters == After(old(cache.counters), runs)
    ensures globalRan ==>
              AllPublish(cfg.tradingpairs, fetch, ta)
              && ge == SharedAfter(cfg.tradingpairs, fetch, ta).g
              && gl == SharedAfter(cfg.tradingpairs, fetch, ta).gl
              && gres == SharedAfter(cfg.tradingpairs, fetch, ta).gr
              && WatchPhase(status, cfg.watchers, "global", ge, gl["alert" := AlertHook], gres, interp,
                            After(old(cache.counters), runs), cache.counters, gsenders)
    ensures SentFrom(sent[globalFrom..], gsenders, cfg.watchers, |cfg.watchers|, ge, gl["alert" := AlertHook], gres, "", interp)
    ensures forall k :: k !in PairKeys(cfg.tradingpairs) && k !in ScopeKeys("global", cfg.watchers) ==>
              Count(cache.counters, k) == Count(old(cache.counters), k)
  {
    var g: State, gr: Results;
    status, g, gr, sent, runs := RunPairs(cache, cfg.tradingpairs, fetch, ta, interp);
    globalFrom, gsenders := |sent|, [];
    assert sent[..globalFrom] == sent;
    if status.Crashed? {
      return status, sent, globalFrom, runs, false, map[], map[], map[], gsenders;
    }
    globalRan, ge, gl, gres := true, g.expr, g.lua, gr;
    var fromGlobal;
    status, fromGlobal, gsenders := RunWatchers(cache, g, gr, cfg.watchers, "global", "", interp);
    ghost var local := sent;
    sent := sent + fromGlobal;
    assert sent[..globalFrom] == local;
    assert sent[globalFrom..] == fromGlobal;
  }
}
