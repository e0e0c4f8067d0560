/**
 * The two-namespace variable store the watcher scripts run against: a map
 * of variables for the expression evaluator and the global table of a Lua
 * interpreter. Both interpreters are foreign code; here they are oracles
 * passed in as an `Interpreters` value, each a function of the script text
 * and the namespace it reads.
 */
module ScriptState {
  import opened Wrappers

  /** A value bound in a namespace. `AlertHook` is the Go callback that the
      watcher binds as the Lua function `alert`. */
  datatype Value =
    | Nil
    | Bool(b: bool)
    | Int(i: int)
    | Num(x: real)
    | Str(s: string)
    | Series(xs: seq<real>)
    | AlertHook

  /** The evaluator's answer: a value and an optional error message. */
  datatype ExprResult = ExprResult(value: Value, err: Option<string>)

  /** What one Lua run did: the arguments `alert` was called with, in call
      order, and the error `DoString` returned, if any. */
  datatype LuaRun = LuaRun(alerts: seq<bool>, err: Option<string>)

  /** The foreign interpreters. `parseExpr` returns the parse error of an
      expression, if any; `evalExpr` evaluates a parsed expression over a
      variable map; `runLua` runs a Lua chunk over the current globals. */
  datatype Interpreters = Interpreters(
    parseExpr: string -> Option<string>,
    evalExpr: (string, map<string, Value>) -> ExprResult,
    runLua: (string, map<string, Value>) -> LuaRun)

  /** What evaluating `code` over `vars` yields: the parse error with a nil
      value when the expression does not parse, the evaluator's pair otherwise. */
  function ExprOutcome(code: string, vars: map<string, Value>, interp: Interpreters): ExprResult
  {
    match interp.parseExpr(code)
    case Some(e) => ExprResult(Nil, Some(e))
    case None => interp.evalExpr(code, vars)
  }

  /** A parse failure is reported with a nil value, whatever the variables. */
  lemma ParseErrorIgnoresVariables(code: string, v1: map<string, Value>, v2: map<string, Value>,
                                   interp: Interpreters)
    requires interp.parseExpr(code).Some?
    ensures ExprOutcome(code, v1, interp) == ExprOutcome(code, v2, interp)
    ensures ExprOutcome(code, v1, interp) == ExprResult(Nil, interp.parseExpr(code))
  {
  }

  /** An expression that parses gets exactly the evaluator's pair, error included. */
  lemma ParsedIsEvaluated(code: string, vars: map<string, Value>, interp: Interpreters)
    requires interp.parseExpr(code).None?
    ensures ExprOutcome(code, vars, interp) == interp.evalExpr(code, vars)
  {
  }

  class State {
    /** The expression namespace. */
    var expr: map<string, Value>
    /** The Lua globals bound through this store. */
    var lua: map<string, Value>

    /** A fresh store: both namespaces empty. */
    constructor Init()
      ensures expr == map[] && lua == map[]
    {
      expr := map[];
      lua := map[];
    }

    /** Binds Lua global `name`; the expression namespace is untouched. */
    method SetLua(name: string, value: Value)
      modifies this
      ensures lua == old(lua)[name := value]
      ensures expr == old(expr)
    {
      lua := lua[name := value];
    }

    /** Sets expression variable `name`; the Lua globals are untouched. */
    method SetExpr(name: string, value: Value)
      modifies this
      ensures expr == old(expr)[name := value]
      ensures lua == old(lua)
    {
      expr := expr[name := value];
    }

    /** Binds `name` to the same value in both namespaces. */
    method SetAll(name: string, value: Value)
      modifies this
      ensures expr == old(expr)[name := value]
      ensures lua == old(lua)[name := value]
    {
      SetExpr(name, value);
      SetLua(name, value);
    }

    /** Binds `name` to `exprValue` for expressions and `luaValue` for Lua. */
    method SetBoth(name: string, exprValue: Value, luaValue: Value)
      modifies this
      ensures expr == old(expr)[name := exprValue]
      ensures lua == old(lua)[name := luaValue]
    {
      SetExpr(name, exprValue);
      SetLua(name, luaValue);
    }

    /** Evaluates an expression over the current expression namespace. */
    method EvalExpr(code: string, interp: Interpreters) returns (res: ExprResult)
      ensures interp.parseExpr(code).Some? ==> res == ExprResult(Nil, interp.parseExpr(code))
      ensures interp.parseExpr(code).None? ==> res == interp.evalExpr(code, expr)
      ensures res == ExprOutcome(code, expr, interp)
    {
      var parsed := interp.parseExpr(code);
      if parsed.Some? {
        res := ExprResult(Nil, parsed);
      } else {
        res := interp.evalExpr(code, expr);
      }
    }

    /** Runs a Lua chunk over the current Lua globals. */
    method EvalLua(code: string, interp: Interpreters) returns (run: LuaRun)
      ensures run == interp.runLua(code, lua)
    {
      run := interp.runLua(code, lua);
    }
  }
}
