/**
 * The earlier prototype of the loader (000_qpip/plugin.py). Its replacement
 * for the host's `loadPlugin` reads the plugin's requirements, collects the
 * unsatisfied ones in `missing_deps`, defers the plugin while the host is
 * starting, and otherwise shows the missing requirements with a checkbox
 * each, installs the checked ones with pip and loads the plugin.
 * `initComplete` sets its flag first and then replays the deferred plugins.
 *
 * Here `pip` failing raises: `subprocess.check_call` raises on a non-zero
 * exit status and nothing catches it, so the load, and a replay in
 * progress, stop at that point.
 */
module Prototype {
  import opened Wrappers
  import opened Utils
  import opened HostEnv
  import opened Seqs

  /** One row of the prototype's dialog: the plugin, the requirement text and its state. */
  datatype Row = Row(plugin: string, requirement: string, state: string)

  /** What the prototype asks of its host and of pip, in the order it asks. */
  datatype ProtoCall =
    | LoadPlugin(name: string)                  // the host's original `loadPlugin`
    | ShowDialog(plugin: string, rows: seq<Row>) // the dialog listing the missing requirements
    | PipInstall(requirements: seq<string>)     // `pip install ... --prefix`

  /** How a call of the replaced `loadPlugin` ends: with a value, or with pip's exception. */
  datatype Outcome = Returned(loaded: bool) | Raised

  // ---------------------------------------------------------------------------
  // `missing_deps`

  /** The text shown for an unsatisfied requirement. */
  function StateOf(e: ResolutionError): string
  {
    match e
    case DistributionNotFound => "missing"
    case VersionConflict(dist) => "conflict (" + dist + ")"
  }

  /** A dict from requirement text to state, with its keys in insertion order. */
  datatype MissingDeps = MissingDeps(keys: seq<string>, states: map<string, string>)

  const NoMissing := MissingDeps([], map[])

  /** The keys are listed once each, and are exactly the keys of `states`. */
  ghost predicate DictShaped(m: MissingDeps)
  {
    && (forall i, j :: 0 <= i < j < |m.keys| ==> m.keys[i] != m.keys[j])
    && (forall k :: k in m.states <==> k in m.keys)
  }

  /** `missing_deps[key] = state`: a new key goes last, an existing one keeps its place. */
  function Put(m: MissingDeps, key: string, state: string): MissingDeps
  {
    MissingDeps(if key in m.states then m.keys else m.keys + [key], m.states[key := state])
  }

  /** `missing_deps` after the loop over the requirements `reqs`. */
  function Missing(reqs: seq<Requirement>, resolve: string -> Option<ResolutionError>): MissingDeps
  {
    if reqs == [] then NoMissing
    else
      var m := Missing(reqs[..|reqs| - 1], resolve);
      var text := reqs[|reqs| - 1].text;
      match resolve(text)
      case None => m
      case Some(e) => Put(m, text, StateOf(e))
  }

  /** The texts of the requirements `reqs`. */
  function Texts(reqs: seq<Requirement>): set<string>
  {
    set r | r in reqs :: r.text
  }

  /**
   * `missing_deps` holds exactly the unsatisfied requirements, each once,
   * with the state of the error it raised; satisfied ones are absent.
   */
  lemma {:induction false} MissingExactly(reqs: seq<Requirement>, resolve: string -> Option<ResolutionError>)
    ensures DictShaped(Missing(reqs, resolve))
    ensures forall k :: k in Missing(reqs, resolve).states <==> k in Texts(reqs) && resolve(k).Some?
    ensures forall k :: k in Missing(reqs, resolve).states ==>
              Missing(reqs, resolve).states[k] == StateOf(resolve(k).value)
  {
    if reqs != [] {
      var init, last := reqs[..|reqs| - 1], reqs[|reqs| - 1];
      MissingExactly(init, resolve);
      assert Texts(reqs) == Texts(init) + {last.text} by {
        assert forall r :: r in reqs <==> r in init || r == last;
      }
    }
  }

  /** The loop of `patched_load_plugin` that fills `missing_deps`. */
  method ClassifyRequirements(reqs: seq<Requirement>, resolve: string -> Option<ResolutionError>)
    returns (missing: MissingDeps)
    ensures missing == Missing(reqs, resolve)
  {
    missing := NoMissing;
    for j := 0 to |reqs|
      invariant missing == Missing(reqs[..j], resolve)
    {
      var text := reqs[j].text;
      var error := resolve(text);
      match error {
        case None =>
        case Some(e) =>
          missing := Put(missing, text, StateOf(e));
      }
      assert reqs[..j + 1][..j] == reqs[..j];
    }
    assert reqs[..|reqs|] == reqs;
  }

  /** The unsatisfied requirements of a plugin; none when it has no requirements file. */
  function MissingOf(name: string, env: Environment): MissingDeps
  {
    if name in env.requirementFiles then Missing(env.requirementFiles[name], env.resolve) else NoMissing
  }

  // ---------------------------------------------------------------------------
  // The dialog

  /** The rows of the dialog: one per missing requirement, in `missing_deps` order. */
  function Rows(plugin: string, m: MissingDeps): (rows: seq<Row>)
    requires forall k :: k in m.keys ==> k in m.states
    ensures |rows| == |m.keys|
    ensures forall i :: 0 <= i < |rows| ==> rows[i] == Row(plugin, m.keys[i], m.states[m.keys[i]])
  {
    seq(|m.keys|, i requires 0 <= i < |m.keys| => Row(plugin, m.keys[i], m.states[m.keys[i]]))
  }

  /**
   * `deps_to_install`: the requirements whose checkbox is
   * still checked. Every checkbox starts checked, so these are the keys the
   * user did not uncheck.
   */
  function DepsToInstall(keys: seq<string>, unchecked: set<string>): (deps: seq<string>)
    ensures |deps| <= |keys|
    ensures forall k :: k in deps <==> k in keys && k !in unchecked
  {
    if keys == [] then []
    else
      var rest := DepsToInstall(keys[..|keys| - 1], unchecked);
      var k := keys[|keys| - 1];
      assert keys == keys[..|keys| - 1] + [k];
      if k in unchecked then rest else rest + [k]
  }

  /** The requirements to install keep the order of the dialog's rows. */
  lemma {:induction false} DepsKeepOrder(keys: seq<string>, unchecked: set<string>)
    ensures IsSubsequence(DepsToInstall(keys, unchecked), keys)
  {
    if keys != [] {
      var init, k := keys[..|keys| - 1], keys[|keys| - 1];
      DepsKeepOrder(init, unchecked);
      var rest := DepsToInstall(init, unchecked);
      if k !in unchecked {
        assert (rest + [k])[..|rest|] == rest;
      } else if rest != [] {
        assert rest[|rest| - 1] in rest;
      }
    }
  }

  /** Left as the dialog opens, every missing requirement is installed. */
  lemma {:induction false} AllCheckedByDefault(keys: seq<string>)
    ensures DepsToInstall(keys, {}) == keys
  {
    if keys != [] {
      AllCheckedByDefault(keys[..|keys| - 1]);
      assert keys == keys[..|keys| - 1] + [keys[|keys| - 1]];
    }
  }

  // ---------------------------------------------------------------------------
  // One load once the host has started, and the replay

  /** What one call of the replaced `loadPlugin` asks, and how it ends. */
  datatype Effect = Effect(calls: seq<ProtoCall>, outcome: Outcome)

  /** The plugins loaded through the original `loadPlugin`, in order. */
  function Loads(calls: seq<ProtoCall>): (ns: seq<string>)
    ensures |ns| <= |calls|
  {
    if calls == [] then []
    else
      var c := calls[|calls| - 1];
      Loads(calls[..|calls| - 1]) + if c.LoadPlugin? then [c.name] else []
  }

  /**
   * The replaced `loadPlugin` once the host has started: with no missing
   * requirement it loads the plugin straight away; otherwise it shows the
   * dialog, installs the checked requirements when there are any, and loads
   * the plugin unless pip failed.
   */
  function LoadNow(name: string, env: Environment, unchecked: set<string>,
                   pipOk: seq<string> -> bool): (e: Effect)
    ensures MissingOf(name, env).keys == [] ==> e == Effect([LoadPlugin(name)], Returned(env.canLoad(name)))
    ensures e.outcome.Returned? ==> e.outcome.loaded == env.canLoad(name)
    ensures MissingOf(name, env).keys != [] ==>
              var deps := DepsToInstall(MissingOf(name, env).keys, unchecked);
              && e.calls != [] && e.calls[0].ShowDialog? && e.calls[0].plugin == name
              && (PipInstall(deps) in e.calls <==> deps != [])
              && (e.outcome.Raised? <==> deps != [] && !pipOk(deps))
  {
    var missing := MissingOf(name, env);
    if missing.keys == [] then
      Effect([LoadPlugin(name)], Returned(env.canLoad(name)))
    else
      MissingOfListed(name, env);
      var deps := DepsToInstall(missing.keys, unchecked);
      var calls := [ShowDialog(name, Rows(name, missing))] + (if deps == [] then [] else [PipInstall(deps)]);
      if deps != [] && !pipOk(deps) then
        Effect(calls, Raised)
      else
        Effect(calls + [LoadPlugin(name)], Returned(env.canLoad(name)))
  }

  /**
   * A load after startup installs only missing requirements the user left
   * checked, and never with an empty list.
   */
  lemma LoadNowInstalls(name: string, env: Environment, unchecked: set<string>, pipOk: seq<string> -> bool)
    ensures forall c :: c in LoadNow(name, env, unchecked, pipOk).calls && c.PipInstall? ==>
              && c.requirements != []
              && forall r :: r in c.requirements ==> r in MissingOf(name, env).keys && r !in unchecked
  {
    if MissingOf(name, env).keys != [] {
      MissingOfListed(name, env);
    }
  }

  /**
   * A load after startup loads the plugin exactly when pip did not raise,
   * and then as its last call.
   */
  lemma LoadNowLoads(name: string, env: Environment, unchecked: set<string>, pipOk: seq<string> -> bool)
    ensures var e := LoadNow(name, env, unchecked, pipOk);
            Loads(e.calls) == if e.outcome.Raised? then [] else [name]
    ensures var e := LoadNow(name, env, unchecked, pipOk);
            e.outcome.Returned? ==> e.calls != [] && e.calls[|e.calls| - 1] == LoadPlugin(name)
  {
    var missing := MissingOf(name, env);
    if missing.keys == [] {
      assert [LoadPlugin(name)][..0] == [];
    } else {
      MissingOfListed(name, env);
      var shown := ShowDialog(name, Rows(name, missing));
      var deps := DepsToInstall(missing.keys, unchecked);
      DialogLoads(name, shown, deps);
    }
  }

  /** The calls around a dialog: showing it and running pip load nothing; the load that follows loads `name`. */
  lemma DialogLoads(name: string, shown: ProtoCall, deps: seq<string>)
    requires shown.ShowDialog?
    ensures var calls := [shown] + (if deps == [] then [] else [PipInstall(deps)]);
            Loads(calls) == [] && Loads(calls + [LoadPlugin(name)]) == [name]
  {
    var calls := [shown] + (if deps == [] then [] else [PipInstall(deps)]);
    assert Loads(calls) == [] by {
      assert [shown][..0] == [];
      if deps != [] { assert calls[..1] == [shown]; }
    }
    assert (calls + [LoadPlugin(name)])[..|calls|] == calls;
  }

  /** Every requirement `missing_deps` lists has a state to show. */
  lemma MissingOfListed(name: string, env: Environment)
    ensures forall k :: k in MissingOf(name, env).keys ==> k in MissingOf(name, env).states
  {
    if name in env.requirementFiles {
      MissingExactly(env.requirementFiles[name], env.resolve);
    }
  }

  /** Where a replay stands: the calls made so far, and whether pip's exception stopped it. */
  datatype Replayed = Replayed(calls: seq<ProtoCall>, raised: bool)

  /**
   * The load of one deferred plugin during the replay: `LoadNow`, the user
   * leaving `user(name)` unchecked in its dialog.
   */
  function StepOf(env: Environment, user: string -> set<string>, pipOk: seq<string> -> bool): string -> Effect
  {
    name => LoadNow(name, env, user(name), pipOk)
  }

  /**
   * The loop of `initComplete` over the deferred plugins `names`, `step`
   * giving what the load of each one does; the first exception ends it.
   */
  function Replay(names: seq<string>, step: string -> Effect): Replayed
  {
    if names == [] then Replayed([], false)
    else
      var r := Replay(names[..|names| - 1], step);
      if r.raised then r
      else
        var e := step(names[|names| - 1]);
        Replayed(r.calls + e.calls, e.outcome.Raised?)
  }

  lemma {:induction false} LoadsAppend(a: seq<ProtoCall>, b: seq<ProtoCall>)
    ensures Loads(a + b) == Loads(a) + Loads(b)
    decreases |b|
  {
    if b == [] {
      assert a + b == a;
    } else {
      var b', c := b[..|b| - 1], b[|b| - 1];
      LoadsAppend(a, b');
      var ab := a + b;
      assert ab[..|ab| - 1] == a + b' && ab[|ab| - 1] == c;
      assert Loads(b) == Loads(b') + if c.LoadPlugin? then [c.name] else [];
    }
  }

  /** A load that loads its own plugin, unless it raised, and nothing else. */
  ghost predicate LoadsOwn(step: string -> Effect, name: string)
  {
    Loads(step(name).calls) == if step(name).outcome.Raised? then [] else [name]
  }

  /** One more plugin replayed without an exception adds its own load after the earlier ones. */
  lemma LoadsAfterStep(r: Replayed, e: Effect, init: seq<string>, name: string)
    requires Loads(r.calls) == init
    requires Loads(e.calls) == if e.outcome.Raised? then [] else [name]
    ensures Loads(r.calls + e.calls) == if e.outcome.Raised? then init else init + [name]
  {
    LoadsAppend(r.calls, e.calls);
  }

  /** A replay that ran to the end loaded every plugin once, in the order they were deferred. */
  lemma {:induction false} ReplayLoadsAll(names: seq<string>, step: string -> Effect)
    requires forall name :: LoadsOwn(step, name)
    ensures !Replay(names, step).raised ==> Loads(Replay(names, step).calls) == names
  {
    if names != [] && !Replay(names, step).raised {
      var init, name := names[..|names| - 1], names[|names| - 1];
      ReplayLoadsAll(init, step);
      var r := Replay(init, step);
      assert !r.raised && LoadsOwn(step, name);
      LoadsAfterStep(r, step(name), init, name);
      SplitLast(names);
    }
  }

  /** A replay that an exception stopped loaded a proper prefix of the deferred plugins, in order. */
  lemma {:induction false} ReplayLoadsPrefix(names: seq<string>, step: string -> Effect)
    requires forall name :: LoadsOwn(step, name)
    ensures Replay(names, step).raised ==>
              exists j :: 0 <= j < |names| && Loads(Replay(names, step).calls) == names[..j]
  {
    if names != [] && Replay(names, step).raised {
      var init, name := names[..|names| - 1], names[|names| - 1];
      var r := Replay(init, step);
      if r.raised {
        ReplayLoadsPrefix(init, step);
        var j :| 0 <= j < |init| && Loads(r.calls) == init[..j];
        assert names[..j] == init[..j];
      } else {
        ReplayLoadsAll(init, step);
        assert LoadsOwn(step, name);
        LoadsAfterStep(r, step(name), init, name);
        assert names[..|init|] == init;
      }
    }
  }

  /** Every load after startup loads its own plugin, unless pip raised. */
  lemma StepLoadsOwn(env: Environment, user: string -> set<string>, pipOk: seq<string> -> bool)
    ensures forall name :: LoadsOwn(StepOf(env, user, pipOk), name)
  {
    forall name
      ensures LoadsOwn(StepOf(env, user, pipOk), name)
    {
      LoadNowLoads(name, env, user(name), pipOk);
    }
  }

  /**
   * The replay of `initComplete` that pip does not interrupt loads every
   * deferred plugin once, in the order they were deferred; one that pip
   * interrupts has loaded the plugins before the one being installed for,
   * and no other.
   */
  lemma DeferredLoadsInOrder(names: seq<string>, env: Environment, user: string -> set<string>,
                             pipOk: seq<string> -> bool)
    ensures !Replay(names, StepOf(env, user, pipOk)).raised ==>
              Loads(Replay(names, StepOf(env, user, pipOk)).calls) == names
    ensures Replay(names, StepOf(env, user, pipOk)).raised ==>
              exists j :: 0 <= j < |names| && Loads(Replay(names, StepOf(env, user, pipOk)).calls) == names[..j]
  {
    StepLoadsOwn(env, user, pipOk);
    ReplayLoadsAll(names, StepOf(env, user, pipOk));
    ReplayLoadsPrefix(names, StepOf(env, user, pipOk));
  }

  /** A replay whose loads never raise runs to the end. */
  lemma {:induction false} ReplayNeverRaised(names: seq<string>, step: string -> Effect)
    requires forall name :: step(name).outcome.Returned?
    ensures !Replay(names, step).raised
  {
    if names != [] {
      ReplayNeverRaised(names[..|names| - 1], step);
    }
  }

  /** When every pip run succeeds, the replay of `initComplete` runs to the end. */
  lemma ReplayCompletes(names: seq<string>, env: Environment, user: string -> set<string>,
                        pipOk: seq<string> -> bool)
    requires forall deps :: pipOk(deps)
    ensures !Replay(names, StepOf(env, user, pipOk)).raised
  {
    forall name
      ensures StepOf(env, user, pipOk)(name).outcome.Returned?
    {
      var e := LoadNow(name, env, user(name), pipOk);
      assert e.outcome.Raised? ==> !pipOk(DepsToInstall(MissingOf(name, env).keys, user(name)));
    }
    ReplayNeverRaised(names, StepOf(env, user, pipOk));
  }

  /**
   * One more plugin replayed after an unstopped replay of the first `i`:
   * the trace `before + done` grows by that plugin's calls.
   */
  lemma ReplayNext(names: seq<string>, i: nat, step: string -> Effect, before: seq<ProtoCall>)
    requires i < |names| && !Replay(names[..i], step).raised
    ensures Replay(names[..i + 1], step).raised == step(names[i]).outcome.Raised?
    ensures before + Replay(names[..i + 1], step).calls
            == before + Replay(names[..i], step).calls + step(names[i]).calls
  {
    assert names[..i + 1][..i] == names[..i];
    var done := Replay(names[..i], step).calls;
    assert before + (done + step(names[i]).calls) == before + done + step(names[i]).calls;
  }

  /** Once the replay has raised, the plugins after that point change nothing. */
  lemma {:induction false} ReplayStops(names: seq<string>, j: nat, step: string -> Effect)
    requires j <= |names|
    requires Replay(names[..j], step).raised
    ensures Replay(names, step) == Replay(names[..j], step)
    decreases |names| - j
  {
    if j < |names| {
      assert names[..|names| - 1][..j] == names[..j];
      ReplayStops(names[..|names| - 1], j, step);
    } else {
      assert names[..j] == names;
    }
  }

  // ---------------------------------------------------------------------------
  // The plugin

  class ProtoPlugin {
    /** `_defered_packages`: plugins with missing requirements that asked to load during startup. */
    var deferred: seq<string>
    /** `_init_complete`: whether the host has finished starting. */
    var initComplete: bool
    /** Every call made to the host and to pip so far. */
    var calls: seq<ProtoCall>

    constructor ()
      ensures deferred == [] && !initComplete && calls == []
    {
      deferred := [];
      initComplete := false;
      calls := [];
    }

    /** The host's original `loadPlugin`. */
    method OriginalLoad(name: string, env: Environment) returns (loaded: bool)
      modifies this
      ensures loaded == env.canLoad(name)
      ensures calls == old(calls) + [LoadPlugin(name)]
      ensures deferred == old(deferred) && initComplete == old(initComplete)
    {
      calls := calls + [LoadPlugin(name)];
      loaded := env.canLoad(name);
    }

    /**
     * `patched_load_plugin`. With no requirements file or
     * nothing missing, the plugin is loaded straight away. With something
     * missing during startup, it is deferred and the answer is false, with
     * no dialog. After startup, it behaves as `LoadNow`, the user leaving
     * `unchecked` unchecked.
     */
    method PatchedLoad(name: string, env: Environment, unchecked: set<string>, pipOk: seq<string> -> bool)
      returns (outcome: Outcome)
      modifies this
      ensures initComplete == old(initComplete)
      ensures old(initComplete) ==>
                && outcome == LoadNow(name, env, unchecked, pipOk).outcome
                && calls == old(calls) + LoadNow(name, env, unchecked, pipOk).calls
                && deferred == old(deferred)
      ensures !old(initComplete) ==>
                if MissingOf(name, env).keys == [] then
                  && outcome == Returned(env.canLoad(name))
                  && calls == old(calls) + [LoadPlugin(name)] && deferred == old(deferred)
                else
                  && outcome == Returned(false)
                  && deferred == old(deferred) + [name] && calls == old(calls)
    {
      var missing := NoMissing;
      if name in env.requirementFiles {
        missing := ClassifyRequirements(env.requirementFiles[name], env.resolve);
      }
      assert missing == MissingOf(name, env);
      if missing.keys != [] {
        if !initComplete {
          deferred := deferred + [name];
          return Returned(false);
        }
        MissingOfListed(name, env);
        ghost var e := LoadNow(name, env, unchecked, pipOk);
        var shown := ShowDialog(name, Rows(name, missing));
        var deps := DepsToInstall(missing.keys, unchecked);
        if deps != [] {
          calls := calls + [shown, PipInstall(deps)];
          if !pipOk(deps) {
            assert e == Effect([shown] + [PipInstall(deps)], Raised);
            return Raised;
          }
          assert e == Effect([shown] + [PipInstall(deps)] + [LoadPlugin(name)], Returned(env.canLoad(name)));
        } else {
          calls := calls + [shown];
          assert e == Effect([shown] + [] + [LoadPlugin(name)], Returned(env.canLoad(name)));
        }
      }
      var loaded := OriginalLoad(name, env);
      outcome := Returned(loaded);
    }

    /**
     * `initComplete`: sets the flag first, so no replayed
     * plugin is deferred again, then replays the deferred plugins in order,
     * `user` giving what the user leaves unchecked for each. The list is
     * emptied at the end; when pip raises, the replay stops there and the
     * list is left as it was.
     */
    method InitComplete(env: Environment, user: string -> set<string>, pipOk: seq<string> -> bool)
      returns (raised: bool)
      modifies this
      ensures initComplete
      ensures raised == Replay(old(deferred), StepOf(env, user, pipOk)).raised
      ensures calls == old(calls) + Replay(old(deferred), StepOf(env, user, pipOk)).calls
      ensures deferred == if raised then old(deferred) else []
    {
      initComplete := true;
      raised := LoadDeferred(env, user, pipOk);
      if !raised {
        deferred := [];
      }
    }

    /** The loop of `initComplete` over the deferred plugins, the flag already set. */
    method LoadDeferred(env: Environment, user: string -> set<string>, pipOk: seq<string> -> bool)
      returns (raised: bool)
      requires initComplete
      modifies this
      ensures initComplete && deferred == old(deferred)
      ensures raised == Replay(deferred, StepOf(env, user, pipOk)).raised
      ensures calls == old(calls) + Replay(deferred, StepOf(env, user, pipOk)).calls
    {
      var pending := deferred;
      raised := false;
      var i := 0;
      while i < |pending| && !raised
        invariant 0 <= i <= |pending|
        invariant initComplete && deferred == pending
        invariant raised == Replay(pending[..i], StepOf(env, user, pipOk)).raised
        invariant calls == old(calls) + Replay(pending[..i], StepOf(env, user, pipOk)).calls
      {
        var name := pending[i];
        ghost var e := LoadNow(name, env, user(name), pipOk);
        var outcome := PatchedLoad(name, env, user(name), pipOk);
        raised := outcome.Raised?;
        ReplayNext(pending, i, StepOf(env, user, pipOk), old(calls));
        assert StepOf(env, user, pipOk)(name) == e;
        i := i + 1;
      }
      if raised {
        ReplayStops(pending, i, StepOf(env, user, pipOk));
      } else {
        assert pending[..i] == pending;
      }
    }
  }
}
