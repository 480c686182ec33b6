/**
  The application state of the front end (src/App.tsx): the current selection
  (`useTargetImages`), the run flag and the last results (`useOptimize`), the
  progress counter shown during a run (`OptimizeProgress`), and the run button
  (`handleClickRun`).

  The dialogs, the engine and the resolver are outside: the destination the
  dialog returned, the engine's answer and the resolver's answer are parameters.
*/
module App {
  import opened Wrappers
  import opened JsNumber
  import opened Optimize

  /** `p.split(sep).at(-1)`: what follows the last separator, or all of `p`. */
  function LastSegment(p: string, sep: char): (r: string)
    ensures |r| <= |p| && r == p[|p| - |r|..]
    ensures sep !in r
    ensures |r| < |p| ==> p[|p| - |r| - 1] == sep
  {
    if p == [] then []
    else if p[|p| - 1] == sep then []
    else LastSegment(p[..|p| - 1], sep) + [p[|p| - 1]]
  }

  function Basenames(paths: seq<string>, sep: char): (names: seq<string>)
    ensures |names| == |paths|
    ensures forall i :: 0 <= i < |paths| ==> names[i] == LastSegment(paths[i], sep)
  {
    seq(|paths|, i requires 0 <= i < |paths| => LastSegment(paths[i], sep))
  }

  ghost predicate Distinct<T>(s: seq<T>) {
    forall i, j :: 0 <= i < j < |s| ==> s[i] != s[j]
  }

  /** `new Set(s)`. */
  function SetOf<T>(s: seq<T>): set<T> {
    set x | x in s
  }

  /** A sequence has as many distinct elements as entries exactly when no entry
      repeats, which is what comparing `set.size` with the length tests. */
  lemma {:induction false} SetSizeDetectsDuplicates<T>(s: seq<T>)
    ensures |SetOf(s)| <= |s|
    ensures |SetOf(s)| == |s| <==> Distinct(s)
  {
    if s != [] {
      var t := s[1..];
      SetSizeDetectsDuplicates(t);
      assert SetOf(s) == {s[0]} + SetOf(t);
      if s[0] in t {
        assert SetOf(s) == SetOf(t);
        var j :| 0 <= j < |t| && t[j] == s[0];
        assert s[0] == s[j + 1];
      } else {
        assert |SetOf(s)| == 1 + |SetOf(t)|;
        if Distinct(t) {
          forall i, j | 0 <= i < j < |s| ensures s[i] != s[j] {
            if i == 0 { assert s[j] == t[j - 1]; } else { assert s[i] == t[i - 1] && s[j] == t[j - 1]; }
          }
        } else {
          var i, j :| 0 <= i < j < |t| && t[i] == t[j];
          assert s[i + 1] == s[j + 1];
        }
      }
    } else {
      assert SetOf(s) == {};
    }
  }

  /** `useTargetImages`. */
  class Selection {
    var paths: Option<seq<string>>
    var targetImages: Option<seq<TargetImage>>

    constructor ()
      ensures paths == None && targetImages == None
    {
      paths := None;
      targetImages := None;
    }

    /** `clear`: both fields become null, so a second call changes nothing. */
    method Clear()
      modifies this
      ensures paths == None && targetImages == None
    {
      targetImages := None;
      paths := None;
    }

    /** `setTargetImagesFromInputs`: a selection whose last path components are
        not pairwise distinct is refused before the resolver is asked. A
        selection the resolver rejects (`getTargetImages` throws) is dropped too.
        In both cases the fields stay as they were; otherwise both are replaced. */
    method SetTargetImagesFromInputs(inputs: seq<string>, sep: char,
                                     resolve: seq<string> -> Result<seq<TargetImage>, string>)
      returns (accepted: bool)
      modifies this
      ensures accepted <==> Distinct(Basenames(inputs, sep)) && resolve(inputs).Ok?
      ensures accepted ==> paths == Some(inputs) && targetImages == Some(resolve(inputs).value)
      ensures !accepted ==> paths == old(paths) && targetImages == old(targetImages)
    {
      var names := Basenames(inputs, sep);
      SetSizeDetectsDuplicates(names);
      if |SetOf(names)| != |inputs| {
        return false;
      }
      var resolved := resolve(inputs);
      if resolved.Err? {
        return false;
      }
      targetImages := Some(resolved.value);
      paths := Some(inputs);
      return true;
    }
  }

  /** `useOptimize`. */
  class Runner {
    var isRunning: bool
    var results: Option<seq<Outcome>>

    constructor ()
      ensures !isRunning && results == None
    {
      isRunning := false;
      results := None;
    }

    /** The synchronous part of `run` before the `await`: the flag is raised and
        the buttons are disabled while the call is pending. */
    method Start()
      modifies this
      ensures isRunning
      ensures results == old(results)
    {
      isRunning := true;
    }

    /** The rest of `run` once the call has settled. A value or undefined saves the
        options and lowers the flag; only a value replaces the results. A
        rejection skips all of it: the flag stays as it was and nothing is saved. */
    method Settle(call: CallOutcome, options: OptimizeOptions, store: OptionsStore,
                  stringify: Json -> string)
      modifies this, store
      ensures if call.Threw? then
          isRunning == old(isRunning) && results == old(results) && store.items == old(store.items)
        else
          && !isRunning
          && store.items == old(store.items)[OptionsKey := stringify(ToJson(options))]
          && results == (if call.Returned? then Some(call.outcomes) else old(results))
    {
      if call.Threw? {
        return;
      }
      store.Save(options, stringify);
      isRunning := false;
      if call.Cancelled? {
        return;
      }
      results := Some(call.outcomes);
    }

    /** `run` as written: `Start`, the engine call, then `Settle`. After a
        rejection the flag stays raised and nothing is saved. */
    method Run(paths: seq<string>, options: OptimizeOptions, picked: Option<string>,
               invoke: (seq<string>, string, OptimizeOptions) -> InvokeReply,
               store: OptionsStore, stringify: Json -> string)
      modifies this, store
      ensures var call := OptimizeCall(paths, options, picked, invoke);
        if call.Threw? then
          isRunning && results == old(results) && store.items == old(store.items)
        else
          && !isRunning
          && store.items == old(store.items)[OptionsKey := stringify(ToJson(options))]
          && results == (if call.Returned? then Some(call.outcomes) else old(results))
    {
      Start();
      var call := OptimizeCall(paths, options, picked, invoke);
      Settle(call, options, store, stringify);
    }

    /** `run` with the flag lowered on every exit path, as a `finally` would: a
        rejected call leaves the runner idle, the results and the store as they
        were. */
    method RunSettled(paths: seq<string>, options: OptimizeOptions, picked: Option<string>,
                      invoke: (seq<string>, string, OptimizeOptions) -> InvokeReply,
                      store: OptionsStore, stringify: Json -> string)
      modifies this, store
      ensures !isRunning
      ensures var call := OptimizeCall(paths, options, picked, invoke);
        if call.Threw? then
          results == old(results) && store.items == old(store.items)
        else
          && store.items == old(store.items)[OptionsKey := stringify(ToJson(options))]
          && results == (if call.Returned? then Some(call.outcomes) else old(results))
    {
      Start();
      var call := OptimizeCall(paths, options, picked, invoke);
      Settle(call, options, store, stringify);
      isRunning := false;
    }
  }

  /** A rejected engine call leaves the runner marked as running for good: the run
      and clear buttons stay disabled. */
  method RejectedRunStaysRunning() returns (stuck: bool)
    ensures stuck
  {
    var store := new OptionsStore(map[]);
    var runner := new Runner();
    var rejecting := (paths: seq<string>, distDir: string, options: OptimizeOptions) => Rejected("Failed to create \"/out/opt\"");
    runner.Run(["a.png"], DefaultOptions, Some("/out"), rejecting, store, (v: Json) => "{}");
    stuck := runner.isRunning;
  }

  /** The percentage `current / total * 100` shown by the progress bar. */
  function Percentage(current: nat, total: nat): (n: Num)
    ensures total > 0 ==> n == Finite(current as real / total as real * 100.0)
    ensures total > 0 && current <= total ==> 0.0 <= n.value <= 100.0
    ensures total > 0 && current == total ==> n == Finite(100.0)
    ensures current == 0 && total > 0 ==> n == Finite(0.0)
    ensures total == 0 ==> (n == NaN <==> current == 0)
    ensures total == 0 && current > 0 ==> n == PosInfinity
  {
    var q := Div(current as real, total as real);
    if total > 0 && current <= total then
      FractionBounds(current as real, total as real);
      MulPos(q, 100.0)
    else
      MulPos(q, 100.0)
  }

  /** A fraction of a positive whole is between 0 and 1, and 1 for the whole. */
  lemma FractionBounds(part: real, whole: real)
    requires 0.0 <= part <= whole && whole > 0.0
    ensures 0.0 <= part / whole <= 1.0
    ensures part == whole ==> part / whole == 1.0
  {
    assert (part / whole) * whole == part;
  }

  /** The percentage never goes down as events arrive. */
  lemma PercentageMonotone(c1: nat, c2: nat, total: nat)
    requires c1 <= c2 && total > 0
    ensures Percentage(c1, total).value <= Percentage(c2, total).value
  {
    var t := total as real;
    assert c1 as real / t <= c2 as real / t by {
      assert (c2 as real / t - c1 as real / t) * t == c2 as real - c1 as real;
    }
  }

  /** `OptimizeProgress`, mounted while a run is in flight, with `total` the number
      of selected images. */
  class ProgressCounter {
    const total: nat
    var current: nat

    constructor (total: nat)
      ensures this.total == total && current == 0
    {
      this.total := total;
      current := 0;
    }

    /** One `progress` event: the reducer adds one. */
    method OnProgress()
      modifies this
      ensures current == old(current) + 1
    {
      current := current + 1;
    }

    function Value(): Num
      reads this
    {
      Percentage(current, total)
    }
  }

  /** `App`: the selection, the runner, the store and the options being edited. */
  class App {
    const selection: Selection
    const runner: Runner
    const store: OptionsStore
    var options: OptimizeOptions

    /** The options start as `loadOptions()` reads them. */
    constructor (store: OptionsStore, parse: string -> Option<Json>)
      ensures this.store == store && fresh(selection) && fresh(runner)
      ensures selection.paths == None && selection.targetImages == None
      ensures !runner.isRunning && runner.results == None
      ensures options == LoadFrom(store.items, parse)
    {
      this.store := store;
      selection := new Selection();
      runner := new Runner();
      options := LoadFrom(store.items, parse);
    }

    /** The editor's `onChange`. */
    method SetOptions(o: OptimizeOptions)
      modifies this
      ensures options == o
    {
      options := o;
    }

    /** `handleClickRun`: nothing happens without a selection; otherwise the
        selected paths and the current options are run. */
    method HandleClickRun(picked: Option<string>,
                          invoke: (seq<string>, string, OptimizeOptions) -> InvokeReply,
                          stringify: Json -> string)
      returns (dispatched: bool)
      modifies runner, store
      ensures dispatched <==> selection.paths.Some?
      ensures !dispatched ==> unchanged(runner, store)
      ensures dispatched ==>
        var call := OptimizeCall(selection.paths.value, options, picked, invoke);
        if call.Threw? then
          runner.isRunning && runner.results == old(runner.results) && store.items == old(store.items)
        else
          && !runner.isRunning
          && store.items == old(store.items)[OptionsKey := stringify(ToJson(options))]
          && runner.results == (if call.Returned? then Some(call.outcomes) else old(runner.results))
    {
      if selection.paths.None? {
        return false;
      }
      runner.Run(selection.paths.value, options, picked, invoke, store, stringify);
      return true;
    }

    /** The run button, disabled while a run is in flight. */
    method ClickRun(picked: Option<string>,
                    invoke: (seq<string>, string, OptimizeOptions) -> InvokeReply,
                    stringify: Json -> string)
      returns (dispatched: bool)
      modifies runner, store
      ensures old(runner.isRunning) ==> !dispatched && unchanged(runner, store)
      ensures dispatched <==> !old(runner.isRunning) && selection.paths.Some?
      ensures !old(runner.isRunning) && !dispatched ==> unchanged(runner, store)
      ensures dispatched ==>
        var call := OptimizeCall(selection.paths.value, options, picked, invoke);
        if call.Threw? then
          runner.isRunning && runner.results == old(runner.results) && store.items == old(store.items)
        else
          && !runner.isRunning
          && store.items == old(store.items)[OptionsKey := stringify(ToJson(options))]
          && runner.results == (if call.Returned? then Some(call.outcomes) else old(runner.results))
    {
      if runner.isRunning {
        return false;
      }
      dispatched := HandleClickRun(picked, invoke, stringify);
    }

    /** The clear button, disabled while a run is in flight. */
    method ClickClear()
      modifies selection
      ensures runner.isRunning ==> unchanged(selection)
      ensures !runner.isRunning ==> selection.paths == None && selection.targetImages == None
    {
      if !runner.isRunning {
        selection.Clear();
      }
    }
  }
}
