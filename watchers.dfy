/**
 * Running one watcher against a variable store: a Lua script that reports
 * through the callback `alert`, or else an expression that must evaluate to
 * the boolean true. The result is whether the watcher fired and the
 * notification it would send.
 */
module Watchers {
  import opened Wrappers
  import opened ScriptState

  /** A configured watcher: its name, its Lua script, its expression and the
      names of the results to attach to its notification. */
  datatype Watcher = Watcher(name: string, lua: string, expr: string, values: seq<string>)

  /** A notification; the timestamp is not modelled. */
  datatype Notification = Notification(message: string, source: string, code: string,
                                       values: map<string, real>)

  /** A watcher run either returns, fired or not, with its notification, or
      ends the program with the interpreter's error. */
  datatype Outcome = Ran(fired: bool, n: Notification) | Fatal(err: string)

  /** The callback stores each argument it is called with, so the flag the
      script leaves behind is its last argument, or false without a call. */
  predicate LastAlert(alerts: seq<bool>)
  {
    |alerts| > 0 && alerts[|alerts| - 1]
  }

  /** What running `w` yields when the expression namespace is `exprVars` and
      the Lua script sees the globals `luaGlobals`. */
  function Verdict(w: Watcher, exprVars: map<string, Value>, luaGlobals: map<string, Value>,
                   interp: Interpreters): (out: Outcome)
  {
    var blank := Notification(w.name, "", "", map[]);
    if w.lua != "" then
      var run := interp.runLua(w.lua, luaGlobals);
      if run.err.Some? then Fatal(run.err.value)
      else if LastAlert(run.alerts) then Ran(true, blank.(code := w.lua))
      else Ran(false, blank)
    else if w.expr != "" then
      var res := ExprOutcome(w.expr, exprVars, interp);
      if res.err.Some? then Fatal(res.err.value)
      else if res.value == Bool(true) then Ran(true, blank.(code := w.expr))
      else Ran(false, blank)
    else Ran(false, blank)
  }

  /** The source's `executeWatcher`. On the Lua path it binds the callback
      `alert` in the store, runs the script and replays the callback's calls
      on a local flag. */
  method ExecuteWatcher(state: State, w: Watcher, interp: Interpreters) returns (out: Outcome)
    modifies state
    ensures out == Verdict(w, old(state.expr), old(state.lua)["alert" := AlertHook], interp)
    ensures state.expr == old(state.expr)
    ensures state.lua == if w.lua != "" then old(state.lua)["alert" := AlertHook] else old(state.lua)
  {
    var fired := false;
    var n := Notification(w.name, "", "", map[]);
    if w.lua != "" {
      var luaResult := false;
      state.SetLua("alert", AlertHook);
      var run := state.EvalLua(w.lua, interp);
      for i := 0 to |run.alerts|
        invariant luaResult == LastAlert(run.alerts[..i])
      {
        luaResult := run.alerts[i];
      }
      assert run.alerts[..|run.alerts|] == run.alerts;
      if run.err.Some? {
        return Fatal(run.err.value);
      }
      if luaResult {
        fired := true;
        n := n.(code := w.lua);
      }
    } else if w.expr != "" {
      var res := state.EvalExpr(w.expr, interp);
      if res.err.Some? {
        return Fatal(res.err.value);
      }
      if res.value == Bool(true) {
        fired := true;
        n := n.(code := w.expr);
      }
    }
    out := Ran(fired, n);
  }

  /** The notification's message is the watcher's name, whatever happens. */
  lemma VerdictMessage(w: Watcher, e: map<string, Value>, l: map<string, Value>, interp: Interpreters)
    ensures var v := Verdict(w, e, l, interp);
            v.Ran? ==> v.n.message == w.name && v.n.source == "" && v.n.values == map[]
  {
  }

  /** With a Lua script, the expression text and the expression namespace play
      no part. */
  lemma LuaTakesPrecedence(w: Watcher, expr: string, e1: map<string, Value>, e2: map<string, Value>,
                           l: map<string, Value>, interp: Interpreters)
    requires w.lua != ""
    ensures Verdict(w, e1, l, interp) == Verdict(w.(expr := expr), e2, l, interp)
  {
  }

  /** A Lua watcher that ran without error fires iff the last `alert`
      argument was true. */
  lemma LuaFires(w: Watcher, e: map<string, Value>, l: map<string, Value>, interp: Interpreters)
    requires w.lua != "" && interp.runLua(w.lua, l).err.None?
    ensures var v := Verdict(w, e, l, interp);
            v.Ran? && (v.fired <==> LastAlert(interp.runLua(w.lua, l).alerts))
  {
  }

  /** Calling `alert(true)` and then `alert(false)` does not fire: only the
      last call counts. */
  lemma LastCallCounts()
    ensures !LastAlert([true, false])
    ensures LastAlert([false, true])
    ensures !LastAlert([])
  {
  }

  /** An expression watcher that evaluated without error fires iff the value
      is the boolean true (not merely a truthy number or string). */
  lemma ExprFires(w: Watcher, e: map<string, Value>, l: map<string, Value>, interp: Interpreters)
    requires w.lua == "" && w.expr != "" && ExprOutcome(w.expr, e, interp).err.None?
    ensures var v := Verdict(w, e, l, interp);
            v.Ran? && (v.fired <==> ExprOutcome(w.expr, e, interp).value == Bool(true))
  {
  }

  /** The code is filled in exactly when the watcher fires: with the Lua
      script when there is one, with the expression otherwise. */
  lemma CodeOnlyWhenFired(w: Watcher, e: map<string, Value>, l: map<string, Value>, interp: Interpreters)
    ensures var v := Verdict(w, e, l, interp);
            v.Ran? ==> v.n.code == (if !v.fired then "" else if w.lua != "" then w.lua else w.expr)
  {
  }

  /** A watcher with neither script nor expression never fires and never fails. */
  lemma NoScriptNeverFires(w: Watcher, e: map<string, Value>, l: map<string, Value>, interp: Interpreters)
    requires w.lua == "" && w.expr == ""
    ensures Verdict(w, e, l, interp) == Ran(false, Notification(w.name, "", "", map[]))
  {
  }

  /** The program ends exactly when the interpreter that is used reports an error. */
  lemma FatalIff(w: Watcher, e: map<string, Value>, l: map<string, Value>, interp: Interpreters)
    ensures Verdict(w, e, l, interp).Fatal?
        <==> (w.lua != "" && interp.runLua(w.lua, l).err.Some?)
             || (w.lua == "" && w.expr != "" && ExprOutcome(w.expr, e, interp).err.Some?)
  {
  }
}
