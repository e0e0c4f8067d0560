/**
 * The indicator dispatch table: an indicator's type string selects a
 * technical-analysis function, the price series and parameters it is given,
 * how many output series it yields and the label suffix each output gets.
 * The numerical library itself is foreign; it is an oracle `TaLib` here.
 */
module Indicators {
  import opened Wrappers

  /** A configured indicator: its name, its type string and its parameters. */
  datatype Indicator = Indicator(name: string, kind: string, params: seq<int>)

  /** The library functions the table can select. */
  datatype TaFn =
    | Sma | Ema | Dema | Tema | Wma | Rsi
    | StochRsi | Stoch | Macd
    | Mom | Mfi | Adx | Roc | Obv | Atr | Natr | LinearReg | Max | Min

  /** The five un-reversed series of one trading pair, in the order open,
      high, low, close, volume (slots 0 to 4 of the source's array). */
  datatype Ohlcv5 = Ohlcv5(open: seq<real>, high: seq<real>, low: seq<real>,
                           close: seq<real>, vol: seq<real>)

  /** The library as an oracle: function, input series, parameters and the
      index of the wanted output give that output series. */
  type TaLib = (TaFn, seq<seq<real>>, seq<int>, nat) -> seq<real>

  /** What one indicator yields: its outputs with their label suffixes, or
      the index-out-of-range crash of reading a parameter that is not there. */
  datatype Dispatch = Dispatch(outputs: seq<seq<real>>, labels: seq<string>) | ParamsOutOfRange

  /** The type string that selects each function. */
  function KindName(f: TaFn): string
  {
    match f
    case Sma => "sma"
    case Ema => "ema"
    case Dema => "dema"
    case Tema => "tema"
    case Wma => "wma"
    case Rsi => "rsi"
    case StochRsi => "stochrsi"
    case Stoch => "stoch"
    case Macd => "macd"
    case Mom => "mom"
    case Mfi => "mfi"
    case Adx => "adx"
    case Roc => "roc"
    case Obv => "obv"
    case Atr => "atr"
    case Natr => "natr"
    case LinearReg => "linearreg"
    case Max => "max"
    case Min => "min"
  }

  /** The switch on the type string: the selected function, or none for a
      type the table does not know. */
  function Classify(kind: string): (f: Option<TaFn>)
  {
    if kind == "sma" then Some(Sma)
    else if kind == "ema" then Some(Ema)
    else if kind == "dema" then Some(Dema)
    else if kind == "tema" then Some(Tema)
    else if kind == "wma" then Some(Wma)
    else if kind == "rsi" then Some(Rsi)
    else if kind == "stochrsi" then Some(StochRsi)
    else if kind == "stoch" then Some(Stoch)
    else if kind == "macd" then Some(Macd)
    else if kind == "mom" then Some(Mom)
    else if kind == "mfi" then Some(Mfi)
    else if kind == "adx" then Some(Adx)
    else if kind == "roc" then Some(Roc)
    else if kind == "obv" then Some(Obv)
    else if kind == "atr" then Some(Atr)
    else if kind == "natr" then Some(Natr)
    else if kind == "linearreg" then Some(LinearReg)
    else if kind == "max" then Some(Max)
    else if kind == "min" then Some(Min)
    else None
  }

  /** How many leading parameters each function reads. */
  function ParamCount(f: TaFn): nat
  {
    match f
    case StochRsi | Stoch | Macd => 3
    case Obv => 0
    case _ => 1
  }

  /** The series each function is given, in argument order. */
  function Inputs(f: TaFn, src: Ohlcv5): seq<seq<real>>
  {
    match f
    case Stoch | Adx | Atr | Natr => [src.high, src.low, src.close]
    case Mfi => [src.high, src.low, src.close, src.vol]
    case Obv => [src.close, src.vol]
    case _ => [src.close]
  }

  /** The output series each function yields, in the library's order. */
  function Outputs(f: TaFn, ins: seq<seq<real>>, args: seq<int>, ta: TaLib): seq<seq<real>>
  {
    match f
    case StochRsi | Stoch => [ta(f, ins, args, 0), ta(f, ins, args, 1)]
    case Macd => [ta(f, ins, args, 0), ta(f, ins, args, 1), ta(f, ins, args, 2)]
    case _ => [ta(f, ins, args, 0)]
  }

  /** The label suffixes appended for each function. */
  function Labels(f: TaFn): seq<string>
  {
    match f
    case Sma | Ema | Dema | Tema | Wma | Rsi => [""]
    case StochRsi | Stoch => ["_K", "_D"]
    case Macd => ["", "_Sig", "_Hist"]
    case _ => []
  }

  /** The source's `processIndicators`. */
  function ProcessIndicators(src: Ohlcv5, idc: Indicator, ta: TaLib): (d: Dispatch)
    ensures Classify(idc.kind).None? ==> d == Dispatch([], [])
    ensures d.Dispatch? && Classify(idc.kind).Some? ==>
              1 <= |d.outputs| <= 3 && (d.labels == [] || |d.labels| == |d.outputs|)
  {
    match Classify(idc.kind)
    case None => Dispatch([], [])
    case Some(f) =>
      if |idc.params| < ParamCount(f) then ParamsOutOfRange
      else
        Dispatch(Outputs(f, Inputs(f, src), idc.params[..ParamCount(f)], ta), Labels(f))
  }

  /** Every function's type string selects that function. */
  lemma ClassifyKindName(f: TaFn)
    ensures Classify(KindName(f)) == Some(f)
  {
    match f
    case Sma =>
    case Ema =>
    case Dema =>
    case Tema =>
    case Wma =>
    case Rsi =>
    case StochRsi =>
    case Stoch =>
    case Macd =>
    case Mom =>
    case Mfi =>
    case Adx =>
    case Roc =>
    case Obv =>
    case Atr =>
    case Natr =>
    case LinearReg =>
    case Max =>
    case Min =>
  }

  /** Only a function's own type string selects it. */
  lemma ClassifySelectsByName(kind: string)
    requires Classify(kind).Some?
    ensures kind == KindName(Classify(kind).value)
  {
  }

  /** A type string the table does not list selects nothing. */
  lemma ClassifyUnknown(kind: string)
    requires forall f: TaFn :: kind != KindName(f)
    ensures Classify(kind) == None
  {
    if Classify(kind).Some? {
      ClassifySelectsByName(kind);
    }
  }

  /** An unknown type string yields no outputs and no labels. */
  lemma ProcessUnknown(src: Ohlcv5, idc: Indicator, ta: TaLib)
    requires forall f: TaFn :: idc.kind != KindName(f)
    ensures ProcessIndicators(src, idc, ta) == Dispatch([], [])
  {
    ClassifyUnknown(idc.kind);
  }

  /** A known type crashes exactly when it has fewer parameters than its
      function reads. */
  lemma ProcessCrashes(src: Ohlcv5, idc: Indicator, ta: TaLib, f: TaFn)
    requires idc.kind == KindName(f)
    ensures ProcessIndicators(src, idc, ta).ParamsOutOfRange? <==> |idc.params| < ParamCount(f)
  {
    ClassifyKindName(f);
  }

  /** sma, ema, dema, tema, wma and rsi: one output, computed from the close
      series with the first parameter, labelled with the empty suffix. */
  lemma ProcessCloseAverages(src: Ohlcv5, idc: Indicator, ta: TaLib, f: TaFn)
    requires f in {Sma, Ema, Dema, Tema, Wma, Rsi}
    requires idc.kind == KindName(f) && |idc.params| >= 1
    ensures ProcessIndicators(src, idc, ta)
         == Dispatch([ta(f, [src.close], idc.params[..1], 0)], [""])
  {
    ClassifyKindName(f);
  }

  /** stochrsi and stoch: two outputs labelled "_K" and "_D"; stochrsi reads
      the close series, stoch the high, low and close series. */
  lemma ProcessStochastics(src: Ohlcv5, idc: Indicator, ta: TaLib, f: TaFn)
    requires f in {StochRsi, Stoch}
    requires idc.kind == KindName(f) && |idc.params| >= 3
    ensures var ins := if f == Stoch then [src.high, src.low, src.close] else [src.close];
            var args := idc.params[..3];
            ProcessIndicators(src, idc, ta) == Dispatch([ta(f, ins, args, 0), ta(f, ins, args, 1)], ["_K", "_D"])
  {
    ClassifyKindName(f);
  }

  /** macd: three outputs from the close series, labelled "", "_Sig" and "_Hist". */
  lemma ProcessMacd(src: Ohlcv5, idc: Indicator, ta: TaLib)
    requires idc.kind == "macd" && |idc.params| >= 3
    ensures var args := idc.params[..3];
            var out := [ta(Macd, [src.close], args, 0), ta(Macd, [src.close], args, 1),
                        ta(Macd, [src.close], args, 2)];
            ProcessIndicators(src, idc, ta) == Dispatch(out, ["", "_Sig", "_Hist"])
  {
    ClassifyKindName(Macd);
  }

  /** The ten types that append an output but no label. */
  predicate Unlabelled(f: TaFn)
  {
    f in {Mom, Mfi, Adx, Roc, Obv, Atr, Natr, LinearReg, Max, Min}
  }

  /** mom, mfi, adx, roc, obv, atr, natr, linearreg, max and min: one output
      and no label at all, so label index 0 does not exist. */
  lemma ProcessUnlabelled(src: Ohlcv5, idc: Indicator, ta: TaLib, f: TaFn)
    requires Unlabelled(f)
    requires idc.kind == KindName(f) && |idc.params| >= ParamCount(f)
    ensures ProcessIndicators(src, idc, ta)
         == Dispatch([ta(f, Inputs(f, src), idc.params[..ParamCount(f)], 0)], [])
  {
    ClassifyKindName(f);
  }

  /** Each output has a label exactly for the labelled types; for the other
      known types there are fewer labels than outputs. */
  lemma LabelsCoverOutputs(src: Ohlcv5, idc: Indicator, ta: TaLib, f: TaFn)
    requires idc.kind == KindName(f) && |idc.params| >= ParamCount(f)
    ensures var d := ProcessIndicators(src, idc, ta);
            d.Dispatch? && (|d.labels| == |d.outputs| <==> !Unlabelled(f))
            && (Unlabelled(f) ==> |d.labels| < |d.outputs|)
  {
    ClassifyKindName(f);
  }

  /** Which branch is taken, how many outputs there are and which labels they
      get depend on the type string and the parameter count only. */
  lemma ShapeIgnoresData(src1: Ohlcv5, src2: Ohlcv5, idc: Indicator, ta1: TaLib, ta2: TaLib)
    ensures var d1, d2 := ProcessIndicators(src1, idc, ta1), ProcessIndicators(src2, idc, ta2);
            d1.Dispatch? == d2.Dispatch?
            && (d1.Dispatch? ==> |d1.outputs| == |d2.outputs| && d1.labels == d2.labels)
  {
  }

  /** The open series is never handed to the library. */
  lemma OpenIsNeverRead(src: Ohlcv5, open: seq<real>, idc: Indicator, ta: TaLib)
    ensures ProcessIndicators(src.(open := open), idc, ta) == ProcessIndicators(src, idc, ta)
  {
  }
}
