/**
 * The plugin loader of QPIP (a00_qpip/plugin.py): the replacement for the
 * host's `loadPlugin`, which loads a plugin, defers it until the host has
 * finished starting, or checks its dependencies first and then starts it;
 * `initComplete`, which checks and starts the deferred plugins; and
 * `check_deps_and_prompt_install`, which reconciles the dependencies,
 * shows the dialog when needed and hands the user's choices to pip.
 *
 * The host is reached only through calls recorded in `calls`, in order;
 * what they return comes from the `Environment`.
 */
module Loader {
  import opened Wrappers
  import opened Utils
  import opened HostEnv
  import opened Ui
  import opened Reconcile

  /** What QPIP asks of its host and of pip, in the order it asks. */
  datatype HostCall =
    | LoadPlugin(name: string)                 // the host's original `loadPlugin`
    | StartPlugin(name: string)                // `qgis.utils.startPlugin`
    | EnablePlugin(name: string)               // "/PythonPlugins/<name>" set to true
    | ClearWatchdog(name: string)              // "/PythonPlugins/watchDog/<name>" removed
    | PipUninstall(names: seq<Option<string>>)  // `pip_uninstall_reqs`
    | PipInstall(requirements: seq<string>)    // `pip_install_reqs`

  /** The user's session with one dialog: what they did in it, then whether they accepted it. */
  datatype Session = Session(events: seq<UiEvent>, accepted: bool)

  // ---------------------------------------------------------------------------
  // Settings of the "QPIP" group

  const StartupKey := "check_on_startup"
  const InstallKey := "check_on_install"

  /** `_check_on_startup`: off unless the stored value is exactly "yes"; unset reads as "no". */
  function CheckOnStartup(settings: map<string, string>): (on: bool)
    ensures StartupKey !in settings ==> !on
    ensures on <==> StartupKey in settings && settings[StartupKey] == "yes"
  {
    (if StartupKey in settings then settings[StartupKey] else "no") == "yes"
  }

  /** `_check_on_install`: on when unset, otherwise on exactly when the stored value is "yes". */
  function CheckOnInstall(settings: map<string, string>): (on: bool)
    ensures InstallKey !in settings ==> on
    ensures InstallKey in settings ==> (on <==> settings[InstallKey] == "yes")
  {
    (if InstallKey in settings then settings[InstallKey] else "yes") == "yes"
  }

  /** How a checkbox is stored. */
  function Flag(on: bool): string
  {
    if on then "yes" else "no"
  }

  /**
   * The settings after the dialog's two checkboxes are saved: reading them
   * back gives the checkbox states, and every other setting is untouched.
   */
  function SaveFlags(settings: map<string, string>, startup: bool, install: bool): (s: map<string, string>)
    ensures CheckOnStartup(s) == startup && CheckOnInstall(s) == install
    ensures s.Keys == settings.Keys + {StartupKey, InstallKey}
    ensures forall k :: k in settings && k != StartupKey && k != InstallKey ==> s[k] == settings[k]
  {
    settings[StartupKey := Flag(startup)][InstallKey := Flag(install)]
  }

  // ---------------------------------------------------------------------------
  // `start_packages`

  /** What starting one plugin asks of the host: load; start if loaded; enable and clear the watchdog if started. */
  function StartOne(name: string, env: Environment): seq<HostCall>
  {
    [LoadPlugin(name)]
    + if !env.canLoad(name) then []
      else [StartPlugin(name)] + if env.canStart(name) then [EnablePlugin(name), ClearWatchdog(name)] else []
  }

  /** What starting the plugins `names`, one after the other, asks of the host. */
  function StartTrace(names: seq<string>, env: Environment): seq<HostCall>
  {
    if names == [] then []
    else StartTrace(names[..|names| - 1], env) + StartOne(names[|names| - 1], env)
  }

  /** The plugins loaded through the original `loadPlugin`, in order. */
  function Loads(calls: seq<HostCall>): (ns: seq<string>)
    ensures |ns| <= |calls|
  {
    if calls == [] then []
    else
      var c := calls[|calls| - 1];
      Loads(calls[..|calls| - 1]) + if c.LoadPlugin? then [c.name] else []
  }

  /**
   * Each host call happens only after the one that allows it: a plugin is
   * started right after it loaded, enabled right after it started, and its
   * watchdog entry cleared right after it was enabled.
   */
  predicate StartsGuarded(calls: seq<HostCall>, env: Environment)
  {
    forall i :: 0 <= i < |calls| ==> GuardedAt(calls, i, env)
  }

  /** The call at index `i` comes right after the call that allows it. */
  predicate GuardedAt(calls: seq<HostCall>, i: nat, env: Environment)
    requires i < |calls|
  {
    match calls[i]
    case StartPlugin(p) => i > 0 && calls[i - 1] == LoadPlugin(p) && env.canLoad(p)
    case EnablePlugin(p) => i > 0 && calls[i - 1] == StartPlugin(p) && env.canStart(p)
    case ClearWatchdog(p) => i > 0 && calls[i - 1] == EnablePlugin(p)
    case _ => true
  }

  lemma {:induction false} LoadsAppend(a: seq<HostCall>, b: seq<HostCall>)
    ensures Loads(a + b) == Loads(a) + Loads(b)
    decreases |b|
  {
    if b == [] {
      assert a + b == a;
    } else {
      var b' := b[..|b| - 1];
      LoadsAppend(a, b');
      assert (a + b)[..|a + b| - 1] == a + b';
      assert (a + b)[|a + b| - 1] == b[|b| - 1];
    }
  }

  /** Starting one plugin loads exactly that plugin. */
  lemma LoadsStartOne(name: string, env: Environment)
    ensures Loads(StartOne(name, env)) == [name]
  {
    var tail := if !env.canLoad(name) then []
                else [StartPlugin(name)] + if env.canStart(name) then [EnablePlugin(name), ClearWatchdog(name)] else [];
    assert Loads(tail) == [] by {
      if tail != [] {
        var t1 := [StartPlugin(name)];
        assert Loads(t1) == [] by {
          assert t1[..0] == [];
        }
        if env.canStart(name) {
          var t2 := t1 + [EnablePlugin(name)];
          assert t2[..1] == t1;
          assert tail == t2 + [ClearWatchdog(name)];
          assert tail[..2] == t2;
        } else {
          assert tail == t1;
        }
      }
    }
    LoadsAppend([LoadPlugin(name)], tail);
    assert [LoadPlugin(name)][..0] == [];
  }

  /** `start_packages` loads the plugins in the order given, each once. */
  lemma {:induction false} StartLoadsInOrder(names: seq<string>, env: Environment)
    ensures Loads(StartTrace(names, env)) == names
  {
    if names != [] {
      var init, last := names[..|names| - 1], names[|names| - 1];
      StartLoadsInOrder(init, env);
      LoadsAppend(StartTrace(init, env), StartOne(last, env));
      LoadsStartOne(last, env);
      assert names == init + [last];
    }
  }

  /** Two guarded traces stay guarded one after the other when the second opens with a load. */
  lemma GuardedAppend(a: seq<HostCall>, b: seq<HostCall>, env: Environment)
    requires StartsGuarded(a, env) && StartsGuarded(b, env)
    requires b == [] || b[0].LoadPlugin?
    ensures StartsGuarded(a + b, env)
  {
    var ab := a + b;
    forall i | 0 <= i < |ab|
      ensures GuardedAt(ab, i, env)
    {
      if i < |a| {
        assert GuardedAt(a, i, env);
        assert ab[i] == a[i];
        if i > 0 { assert ab[i - 1] == a[i - 1]; }
      } else if i == |a| {
        assert ab[i] == b[0];
      } else {
        var j := i - |a|;
        assert GuardedAt(b, j, env);
        assert ab[i] == b[j] && ab[i - 1] == b[j - 1];
      }
    }
  }

  /** Starting one plugin is guarded. */
  lemma StartOneGuarded(name: string, env: Environment)
    ensures StartsGuarded(StartOne(name, env), env)
  {
  }

  /**
   * `start_packages` starts a plugin only right after loading it
   * successfully, and enables it and clears its watchdog entry only right
   * after starting it successfully.
   */
  lemma {:induction false} StartGuarded(names: seq<string>, env: Environment)
    ensures StartsGuarded(StartTrace(names, env), env)
  {
    if names != [] {
      var init, last := names[..|names| - 1], names[|names| - 1];
      StartGuarded(init, env);
      StartOneGuarded(last, env);
      GuardedAppend(StartTrace(init, env), StartOne(last, env), env);
    }
  }

  /** The host calls about `p` in the start of one plugin `name`. */
  lemma StartOneCalls(name: string, env: Environment, p: string)
    ensures StartPlugin(p) in StartOne(name, env) <==> p == name && env.canLoad(p)
    ensures EnablePlugin(p) in StartOne(name, env) <==> p == name && env.canLoad(p) && env.canStart(p)
    ensures ClearWatchdog(p) in StartOne(name, env) <==> p == name && env.canLoad(p) && env.canStart(p)
  {
  }

  /**
   * `start_packages` starts exactly the given plugins that loaded, and
   * enables exactly those that also started.
   */
  lemma {:induction false} StartedExactly(names: seq<string>, env: Environment, p: string)
    ensures StartPlugin(p) in StartTrace(names, env) <==> p in names && env.canLoad(p)
    ensures EnablePlugin(p) in StartTrace(names, env) <==> p in names && env.canLoad(p) && env.canStart(p)
    ensures ClearWatchdog(p) in StartTrace(names, env) <==> p in names && env.canLoad(p) && env.canStart(p)
  {
    if names != [] {
      var init, last := names[..|names| - 1], names[|names| - 1];
      StartedExactly(init, env, p);
      StartOneCalls(last, env, p);
      assert p in names <==> p in init || p == last by {
        assert names == init + [last];
      }
      assert StartTrace(names, env) == StartTrace(init, env) + StartOne(last, env);
    }
  }

  // ---------------------------------------------------------------------------
  // What the dialog leads to

  /** The pip runs of an accepted dialog: uninstall first, then install, each only when its list is not empty. */
  function PipCalls(accepted: bool, uninstall: seq<Option<string>>, install: seq<string>): (r: seq<HostCall>)
    ensures r == [] <==> !accepted || (uninstall == [] && install == [])
    ensures PipUninstall(uninstall) in r <==> accepted && uninstall != []
    ensures PipInstall(install) in r <==> accepted && install != []
    ensures forall c :: c in r ==> c == PipUninstall(uninstall) || c == PipInstall(install)
    ensures |r| == (if accepted && uninstall != [] then 1 else 0) + (if accepted && install != [] then 1 else 0)
    ensures |r| == 2 ==> r[0].PipUninstall? && r[1].PipInstall?
  {
    if !accepted then []
    else (if uninstall != [] then [PipUninstall(uninstall)] else [])
         + (if install != [] then [PipInstall(install)] else [])
  }

  /** The pip runs the dialog `shown` leads to; none when no dialog was shown. */
  ghost function DialogCalls(shown: MainDialog?, accepted: bool): seq<HostCall>
    requires shown != null ==> shown.Valid()
    reads shown
  {
    if shown == null then []
    else PipCalls(accepted, UninstallsOf(shown.libs, shown.selection), InstallsOf(shown.libs, shown.selection))
  }

  /** The settings after the dialog `shown` is closed: its checkboxes saved, or unchanged when none was shown. */
  ghost function SettingsAfter(settings: map<string, string>, shown: MainDialog?): map<string, string>
    reads shown
  {
    if shown == null then settings else SaveFlags(settings, shown.checkOnStartup, shown.checkOnInstall)
  }

  /**
   * The dialog `shown` lists `views`, opened with the stored checkboxes on
   * its default selection and filter, and is in the state the user's events
   * led it to.
   */
  ghost predicate ShownAfter(shown: MainDialog, views: seq<LibView>, settings: map<string, string>, session: Session)
    reads shown
  {
    && shown.libs == views
    && shown.State() == Steps(views, Opening(views, CheckOnStartup(settings), CheckOnInstall(settings)), session.events)
  }

  /**
   * An accepted dialog whose action boxes the user never touched hands pip
   * exactly the lone failed requirements of the QPIP-managed, uninstalled
   * libraries, and uninstalls nothing; a rejected one runs nothing.
   */
  lemma UntouchedDialogCalls(views: seq<LibView>, settings: map<string, string>, session: Session)
    requires forall j :: 0 <= j < |session.events| ==> KeepsSelection(session.events[j])
    ensures var t := Steps(views, Opening(views, CheckOnStartup(settings), CheckOnInstall(settings)), session.events);
            var install := LoneFailedRequirements(views);
            PipCalls(session.accepted, UninstallsOf(views, t.selection), InstallsOf(views, t.selection))
              == if session.accepted && install != [] then [PipInstall(install)] else []
  {
    UntouchedRequestsDefaults(views, CheckOnStartup(settings), CheckOnInstall(settings), session.events);
  }

  /** The pip runs load no plugin, so the plugins loaded after a dialog are exactly those started. */
  lemma DialogThenStartLoads(accepted: bool, uninstall: seq<Option<string>>, install: seq<string>,
                             names: seq<string>, env: Environment)
    ensures Loads(PipCalls(accepted, uninstall, install) + StartTrace(names, env)) == names
  {
    var pip := PipCalls(accepted, uninstall, install);
    assert Loads(pip) == [] by {
      if |pip| == 1 {
        assert pip[..0] == [];
      } else if |pip| == 2 {
        assert pip[..1][..0] == [];
      }
    }
    LoadsAppend(pip, StartTrace(names, env));
    StartLoadsInOrder(names, env);
  }

  /** `libs.values()`: the libraries in insertion order. */
  method LibValues(libs: map<string, Lib>, order: seq<string>, ghost t: Table) returns (vs: seq<LibView>)
    requires WellFormed(t) && Holds(libs, order, t)
    ensures vs == Values(t)
  {
    vs := [];
    for i := 0 to |order|
      invariant vs == Values(t)[..i]
    {
      assert order[i] in t.entries;
      vs := vs + [libs[order[i]].View()];
    }
  }

  // ---------------------------------------------------------------------------
  // The plugin

  class Plugin {
    /** The QPIP prefix, where QPIP installs and which marks a distribution as QPIP-managed. */
    const sitePackages: string
    /** `_defered_packages`: plugins whose loading waits for the host to finish starting. */
    var deferred: seq<string>
    /** The "QPIP" settings group. */
    var settings: map<string, string>
    /** Every call made to the host and to pip so far. */
    var calls: seq<HostCall>

    constructor (sitePackages: string, settings: map<string, string>)
      ensures this.sitePackages == sitePackages && this.settings == settings
      ensures deferred == [] && calls == []
    {
      this.sitePackages := sitePackages;
      this.settings := settings;
      deferred := [];
      calls := [];
    }

    /** The host's original `loadPlugin`. */
    method OriginalLoad(name: string, env: Environment) returns (loaded: bool)
      modifies this
      ensures loaded == env.canLoad(name)
      ensures calls == old(calls) + [LoadPlugin(name)]
      ensures deferred == old(deferred) && settings == old(settings)
    {
      calls := calls + [LoadPlugin(name)];
      loaded := env.canLoad(name);
    }

    /** `start_packages`: loads each plugin, starts it if it loaded, enables it if it started. */
    method StartPackages(names: seq<string>, env: Environment)
      modifies this
      ensures calls == old(calls) + StartTrace(names, env)
      ensures deferred == old(deferred) && settings == old(settings)
    {
      for i := 0 to |names|
        invariant calls == old(calls) + StartTrace(names[..i], env)
        invariant deferred == old(deferred) && settings == old(settings)
      {
        var name := names[i];
        var couldLoad := OriginalLoad(name, env);
        if couldLoad {
          calls := calls + [StartPlugin(name)];
          var couldStart := env.canStart(name);
          if couldStart {
            calls := calls + [EnablePlugin(name), ClearWatchdog(name)];
          }
        }
        assert names[..i + 1][..i] == names[..i];
      }
      assert names[..|names|] == names;
    }

    /**
     * The prompting part of `check_deps_and_prompt_install`: the dialog over
     * the libraries `views`, opened with the stored checkboxes; on acceptance
     * the selected uninstalls and installs go to pip; the two checkboxes
     * are saved whether or not the dialog was accepted. `shown` is the
     * dialog as the user left it.
     */
    method Prompt(views: seq<LibView>, session: Session) returns (ghost shown: MainDialog?)
      modifies this
      ensures shown != null && fresh(shown) && shown.Valid() && ShownAfter(shown, views, old(settings), session)
      ensures calls == old(calls) + DialogCalls(shown, session.accepted)
      ensures settings == SettingsAfter(old(settings), shown)
      ensures deferred == old(deferred)
    {
      var dialog := Converse(views, session);
      if session.accepted {
        RunPip(dialog);
      }
      settings := settings[StartupKey := Flag(dialog.checkOnStartup)];
      settings := settings[InstallKey := Flag(dialog.checkOnInstall)];
      shown := dialog;
    }

    /** The dialog opened with the stored checkboxes, then left by the user after the session's events. */
    method Converse(views: seq<LibView>, session: Session) returns (dialog: MainDialog)
      ensures fresh(dialog) && dialog.Valid() && ShownAfter(dialog, views, settings, session)
    {
      dialog := new MainDialog(views, CheckOnStartup(settings), CheckOnInstall(settings));
      dialog.Run(session.events);
    }

    /** The pip part of `check_deps_and_prompt_install`: the selected uninstalls, then the selected installs, each handed to pip when not empty. */
    method RunPip(dialog: MainDialog)
      requires dialog.Valid()
      modifies this
      ensures calls == old(calls) + PipCalls(true, UninstallsOf(dialog.libs, dialog.selection),
                                             InstallsOf(dialog.libs, dialog.selection))
      ensures settings == old(settings) && deferred == old(deferred)
    {
      var uninstall := dialog.ReqsToUninstall();
      var install := dialog.ReqsToInstall();
      PipRuns(uninstall, install);
    }

    /** `pip_uninstall_reqs` when there is something to uninstall, then `pip_install_reqs` when there is something to install. */
    method PipRuns(uninstall: seq<Option<string>>, install: seq<string>)
      modifies this
      ensures calls == old(calls) + PipCalls(true, uninstall, install)
      ensures settings == old(settings) && deferred == old(deferred)
    {
      ghost var first := if uninstall != [] then [PipUninstall(uninstall)] else [];
      ghost var second := if install != [] then [PipInstall(install)] else [];
      assert first + second == PipCalls(true, uninstall, install);
      if uninstall != [] {
        calls := calls + [PipUninstall(uninstall)];
      }
      if install != [] {
        calls := calls + [PipInstall(install)];
      }
      assert calls == old(calls) + first + second;
    }

    /**
     * `check_deps_and_prompt_install`: reconciles the dependencies of the
     * active plugins followed by `additional`, and prompts when forced or
     * when a requirement failed; otherwise nothing changes.
     */
    method CheckDeps(additional: seq<string>, forceGui: bool, env: Environment, session: Session)
      returns (ghost shown: MainDialog?)
      modifies this
      ensures shown != null <==>
                forceGui || NeedsGui(Checked(env.activePlugins + additional, env.requirementFiles), env.resolve)
      ensures shown != null ==> fresh(shown) && shown.Valid()
      ensures shown != null ==>
                ShownAfter(shown, Values(Libs(env, env.activePlugins + additional, sitePackages)), old(settings), session)
      ensures calls == old(calls) + DialogCalls(shown, session.accepted)
      ensures settings == SettingsAfter(old(settings), shown)
      ensures deferred == old(deferred)
    {
      var plugins := env.activePlugins + additional;
      ghost var t := Libs(env, plugins, sitePackages);
      var libs, order, needsGui := CollectLibs(env, plugins, sitePackages);
      shown := null;
      if forceGui || needsGui {
        LibsEntries(env, plugins, sitePackages);
        var views := LibValues(libs, order, t);
        shown := Prompt(views, session);
      }
    }

    /**
     * `patched_load_plugin`. While the host is starting (`guiVisible` false)
     * the plugin is deferred when checking on startup is on, and loaded
     * normally otherwise. Once the host is up, it is loaded normally when
     * checking on install is off; otherwise its dependencies are checked
     * with it as the one additional plugin, it is started, and the answer
     * is true.
     */
    method PatchedLoad(name: string, guiVisible: bool, env: Environment, session: Session)
      returns (loaded: bool, ghost shown: MainDialog?)
      modifies this
      ensures !guiVisible && CheckOnStartup(old(settings)) ==>
                && !loaded && deferred == old(deferred) + [name]
                && calls == old(calls) && settings == old(settings) && shown == null
      ensures (!guiVisible && !CheckOnStartup(old(settings))) || (guiVisible && !CheckOnInstall(old(settings))) ==>
                && loaded == env.canLoad(name) && deferred == old(deferred)
                && calls == old(calls) + [LoadPlugin(name)] && settings == old(settings) && shown == null
      ensures guiVisible && CheckOnInstall(old(settings)) ==>
                && loaded && deferred == old(deferred)
                && (shown != null <==> NeedsGui(Checked(env.activePlugins + [name], env.requirementFiles), env.resolve))
                && (shown != null ==> fresh(shown) && shown.Valid()
                                      && ShownAfter(shown, Values(Libs(env, env.activePlugins + [name], sitePackages)),
                                                    old(settings), session))
                && calls == old(calls) + DialogCalls(shown, session.accepted) + StartTrace([name], env)
                && settings == SettingsAfter(old(settings), shown)
    {
      shown := null;
      if !guiVisible {
        if !CheckOnStartup(settings) {
          loaded := OriginalLoad(name, env);
        } else {
          deferred := deferred + [name];
          loaded := false;
        }
      } else {
        if !CheckOnInstall(settings) {
          loaded := OriginalLoad(name, env);
        } else {
          shown := CheckDeps([name], false, env, session);
          StartPackages([name], env);
          loaded := true;
        }
      }
    }

    /**
     * `initComplete`: when plugins were deferred, checks their dependencies
     * together with the active plugins' and starts them in the order they
     * were deferred; the deferred list is empty afterwards in every case.
     */
    method InitComplete(env: Environment, session: Session) returns (ghost shown: MainDialog?)
      modifies this
      ensures deferred == []
      ensures old(deferred) == [] ==> calls == old(calls) && settings == old(settings) && shown == null
      ensures old(deferred) != [] ==>
                && (shown != null <==> NeedsGui(Checked(env.activePlugins + old(deferred), env.requirementFiles), env.resolve))
                && (shown != null ==> fresh(shown) && shown.Valid()
                                      && ShownAfter(shown, Values(Libs(env, env.activePlugins + old(deferred), sitePackages)),
                                                    old(settings), session))
                && calls == old(calls) + DialogCalls(shown, session.accepted) + StartTrace(old(deferred), env)
                && settings == SettingsAfter(old(settings), shown)
    {
      shown := null;
      if deferred != [] {
        shown := CheckDeps(deferred, false, env, session);
        StartPackages(deferred, env);
      }
      deferred := [];
    }

    /** `check`, the toolbar action: the dependency check with the dialog always shown. */
    method Check(env: Environment, session: Session) returns (ghost shown: MainDialog?)
      modifies this
      ensures shown != null && fresh(shown) && shown.Valid()
      ensures ShownAfter(shown, Values(Libs(env, env.activePlugins, sitePackages)), old(settings), session)
      ensures calls == old(calls) + DialogCalls(shown, session.accepted)
      ensures settings == SettingsAfter(old(settings), shown)
      ensures deferred == old(deferred)
    {
      shown := CheckDeps([], true, env, session);
      assert env.activePlugins + [] == env.activePlugins;
    }
  }
}
