# QPIP dependency checker — a Dafny model

QPIP is a QGIS plugin that installs the Python dependencies of other QGIS
plugins. It replaces the host's `loadPlugin`. When a plugin is loaded, it
reads that plugin's `requirements.txt`, checks every requirement against the
installed distributions, shows a dialog listing the libraries involved, and
hands the user's choices to pip. This project models the decision logic of
that core and proves what it promises:

- `utils.dfy` (module `Utils`) holds the records `Req` and `Lib` (a class
  whose fields the reconciliation pass fills in) and the two resolution
  errors the checker catches.
- `hostenv.dfy` (module `HostEnv`) holds the `Environment`: the host's active
  plugins, the installed distributions, each plugin's parsed requirements
  file, and what resolving a requirement, loading a plugin and starting a
  plugin return. All of these are plain data.
- `reconcile.dfy` (module `Reconcile`) models the reconciliation pass of
  `check_deps_and_prompt_install`. It builds the `defaultdict(Lib)` from the
  installed distributions and the checked plugins' requirement lines, and
  sets the `needs_gui` flag. `Libs` states the resulting dictionary as a
  value. `CollectLibs` builds it from `Lib` objects the way the source does
  and is proved to agree with `Libs`. `LibsEntries` describes every entry
  without the dictionary.
- `ui.dfy` (module `Ui`) models the dependency dialog (`MainDialog`):
  - the three requirement columns and the cell colour;
  - the entries of each row's action box, and the entry `_default_all`
    preselects;
  - the four filter modes;
  - the install and uninstall lists the selections produce.

  The dialog is a class whose methods update the selection, the hidden rows
  and the two checkboxes. Its invariant `Valid` says that a hidden row never
  carries a selected action.
- `loader.dfy` (module `Loader`) models the plugin object of
  `a00_qpip/plugin.py`: `patched_load_plugin`, `initComplete`,
  `check_deps_and_prompt_install`, `start_packages`, `check` and the two
  settings. Every call to the host or to pip is appended to a `calls`
  trace, in order.
- `prototype.dfy` (module `Prototype`) models the earlier prototype
  `000_qpip/plugin.py`. It collects `missing_deps`, defers plugins while the
  host is starting, then shows a checkbox dialog and runs pip. Its
  `initComplete` replays the deferred plugins. There, a failing pip raises,
  and nothing catches the exception. The dialog's answer is never
  consulted: the checked requirements are installed however the dialog is
  closed.
- `seqs.dfy` and `wrappers.dfy` hold a subsequence predicate and `Option`.

The user's input to a dialog is a `Session`: the events they produce, then
whether they accept. In the prototype, it is the set of requirements they
uncheck. The dialog's state as a value is a `DialogState`; `Step` and `Steps` give
the state each event, and each sequence of events, leads to. Methods that
show a dialog return it as a ghost out-parameter `shown`, so that their
contracts can state the state the user left it in and what pip is then
asked to do.

## Model

| member | source | states |
|---|---|---|
| Utils.Lib.constructor | a00_qpip/utils.py:30-35 | A new `Lib` has no name, no requirement, no installed distribution, and is QPIP-managed |
| Ui.Bucket | a00_qpip/ui.py:41-48 | A column lists exactly the row's requirements whose error selects that column, and no more requirements than the row has |
| Ui.BucketKeepsOrder | a00_qpip/ui.py:44-47 | A column lists its requirements in `required_by` order |
| Ui.BucketsPartition | a00_qpip/ui.py:64-71 | Every requirement of a row appears in exactly one of the columns "ok", "conflicting" and "missing" |
| Ui.CellColour | a00_qpip/ui.py:98-111 | Yellow iff some requirement conflicts; red iff none conflicts and one is missing; green iff the library is required and every requirement resolved; uncoloured iff no plugin requires it |
| Ui.Actions | a00_qpip/ui.py:73-86 | The action box holds "Do nothing" first, then one install entry per requirement in order, then "Uninstall" exactly when a distribution is installed; only the first entry is "Do nothing" |
| Ui.Preselect | a00_qpip/ui.py:155-166 | Entry 1 is preselected iff the library is QPIP-managed, not installed, and its only requirement failed; that entry installs that requirement; otherwise entry 0 |
| Ui.DefaultSelection | a00_qpip/ui.py:155-166 | The selection after `_default_all` is valid and is the preselected entry of every row |
| Ui.NoSelection | a00_qpip/ui.py:151-153 | The selection after `_ignore_all` is valid and is "Do nothing" in every row |
| Ui.RowHidden | a00_qpip/ui.py:132-149 | A row with a selected action is never hidden; mode 0 hides rows without a failed requirement, mode 1 rows that no plugin requires, mode 2 rows installed globally, mode 3 nothing |
| Ui.HiddenRows | a00_qpip/ui.py:132-149 | `_filter` decides every row by `RowHidden`, one flag per row |
| Ui.PreselectedShown | a00_qpip/ui.py:132-166 | A row that `_default_all` preselects is not hidden by any filter mode, even when reset to "Do nothing" |
| Ui.RowActions | a00_qpip/ui.py:168-174 | The action data read from the boxes is the selected entry of every row, in row order |
| Ui.InstallsInMembers | a00_qpip/ui.py:168-177 | A requirement is in the install list iff an install entry for it is among the selected entries |
| Ui.UninstallsInMembers | a00_qpip/ui.py:168-174 | A library is in the uninstall list iff an uninstall entry for it is among the selected entries |
| Ui.InstallsMembership | a00_qpip/ui.py:168-177 | `reqs_to_install` contains a requirement iff some row's selected entry installs it |
| Ui.UninstallsMembership | a00_qpip/ui.py:168-181 | `reqs_to_uninstall` contains a library iff some row's selected entry uninstalls it |
| Ui.OneRequestPerEntry | a00_qpip/ui.py:168-174 | The two lists together have one element per selected entry that is not "Do nothing" |
| Ui.AtMostOnePerLib | a00_qpip/ui.py:168-181 | Each row contributes at most one request, so the two lists together are no longer than the number of libraries |
| Ui.RequestsFollowRowOrder | a00_qpip/ui.py:168-181 | For two consecutive blocks of rows, both lists are the first block's list followed by the second's: requests follow row order |
| Ui.IgnoreAllRequestsNothing | a00_qpip/ui.py:151-153 | After "ignore all" nothing is installed or uninstalled |
| Ui.DefaultAllRequests | a00_qpip/ui.py:155-181 | After `_default_all` the install list is the lone failed requirement of each QPIP-managed, uninstalled library in row order, and the uninstall list is empty |
| Ui.MainDialog.constructor | a00_qpip/ui.py:15-130 | The dialog opens with the given libraries and checkboxes, the default selection, filter entry 1, the rows hidden by that filter (the state `Opening`), and its invariant holding |
| Ui.MainDialog.Filter | a00_qpip/ui.py:132-149 | Recomputes every row's hidden flag from the current filter, changes nothing else, and restores the invariant |
| Ui.MainDialog.IgnoreAll | a00_qpip/ui.py:151-153 | Resets every action box to "Do nothing", leaves the hidden rows and the filter alone, and keeps the invariant |
| Ui.MainDialog.DefaultAll | a00_qpip/ui.py:155-166 | Sets every action box to its preselected entry, leaves the hidden rows alone, and keeps the invariant: no preselected row is hidden |
| Ui.Opening | a00_qpip/ui.py:115-130 | The state the dialog opens in, the default selection under filter entry 1, is consistent: no hidden row carries an action |
| Ui.DefaultKeepsConsistent | a00_qpip/ui.py:155-166 | `_default_all` never selects an action in a hidden row, whatever the filter |
| Ui.Step | a00_qpip/ui.py:120-166 | Every user event takes a consistent dialog state to a consistent one |
| Ui.Steps | a00_qpip/ui.py:120-166 | Any sequence of user events keeps the dialog state consistent |
| Ui.StepsKeepSelection | a00_qpip/ui.py:120-130 | Filter changes and checkbox ticks leave every action box as it was |
| Ui.LastButtonDecides | a00_qpip/ui.py:151-166 | When no action box is touched after the last button press, that button's selection ("ignore all" or default) is the final one |
| Ui.UntouchedRequestsDefaults | a00_qpip/ui.py:115-181 | If the user never touches an action box, the dialog requests the lone failed requirement of each QPIP-managed, uninstalled library, in row order, and uninstalls nothing |
| Ui.IgnoredLastRequestsNothing | a00_qpip/ui.py:151-181 | After a final "ignore all" with no action box touched since, nothing is installed or uninstalled |
| Ui.MainDialog.PickFilter | a00_qpip/ui.py:120-130 | Picking a filter entry sets it and refilters exactly when the index changes |
| Ui.MainDialog.PickAction | a00_qpip/ui.py:73-87 | Picking an entry in a visible row's box changes only that row's selection, and does not refilter |
| Ui.MainDialog.Handle | a00_qpip/ui.py:120-130 | One user event moves the dialog to `Step` of its old state. A new filter entry is set and refilters; a pick in a visible row sets only that row's box; the buttons set every box and leave hidden rows and filter alone; a checkbox changes only its flag. An event the user cannot produce changes nothing, and the invariant is kept |
| Ui.MainDialog.Run | a00_qpip/ui.py:120-130 | After the user's events the dialog is in `Steps` of its state before them, and the invariant holds |
| Ui.MainDialog.ReqsToInstall | a00_qpip/ui.py:168-177 | The loop over the boxes returns `InstallsOf` of the current selection, whose members and order the lemmas above give |
| Ui.MainDialog.ReqsToUninstall | a00_qpip/ui.py:168-181 | The loop over the boxes returns `UninstallsOf` of the current selection |
| Reconcile.Values | a00_qpip/plugin.py:170-172 | `libs.values()` yields one library per key, in insertion order |
| Reconcile.SeedShape | a00_qpip/plugin.py:138-144 | After the loop over the installed distributions, the dictionary holds exactly one key per distribution name, each once |
| Reconcile.SeedEntry | a00_qpip/plugin.py:138-144 | Each such entry is named by its key, holds the last distribution of that name, has no requirement, and is QPIP-managed iff every distribution of that name lies in the prefix |
| Reconcile.AddLinesShape | a00_qpip/plugin.py:158-167 | Recording requirement lines adds their keys after the existing ones, each once |
| Reconcile.AddLinesEntry | a00_qpip/plugin.py:158-167 | After the requirement lines, an entry keeps its earlier fields, is named by its key if a line names it, and gains the `Req`s of its lines in order |
| Reconcile.LibsEntries | a00_qpip/plugin.py:131-167 | The dictionary has one entry per distribution name and per requirement key, distributions first. Each entry is named by its key, required by its lines in plugin and then file order, holds the last distribution of its name, and is QPIP-managed unless a distribution of that name lies outside the prefix |
| Reconcile.ReqsForMembers | a00_qpip/plugin.py:158-167 | A key's `required_by` holds the `Req` of every line with that key, and nothing else |
| Reconcile.CheckedAppend | a00_qpip/plugin.py:131-156 | The lines of the active plugins come before those of the additional plugins |
| Reconcile.LibFor | a00_qpip/plugin.py:136-141 | `libs[key]` returns the `Lib` under `key`, creating and appending a new one on first use; the objects then hold `Touch` of the old dictionary |
| Reconcile.RecordDist | a00_qpip/plugin.py:139-144 | Recording one distribution updates the objects to `AddDist` of the dictionary and modifies no other `Lib` |
| Reconcile.RecordLine | a00_qpip/plugin.py:165-167 | Recording one requirement line appends its `Req` to the `Lib` of its key and modifies no other `Lib` |
| Reconcile.SeedLibs | a00_qpip/plugin.py:136-144 | The loop over the installed distributions builds distinct new `Lib` objects holding `Seed` |
| Reconcile.RecordPlugin | a00_qpip/plugin.py:155-167 | The loop over one plugin's requirements records its lines, and reports a failure iff one of them failed to resolve |
| Reconcile.CollectLibs | a00_qpip/plugin.py:131-167 | The whole pass leaves distinct new `Lib` objects holding `Libs`, and `needs_gui` is set iff some checked requirement failed |
| Loader.CheckOnStartup | a00_qpip/plugin.py:262-263 | Off when unset; on exactly when the stored value is "yes" |
| Loader.CheckOnInstall | a00_qpip/plugin.py:265-266 | On when unset; otherwise on exactly when the stored value is "yes" |
| Loader.SaveFlags | a00_qpip/plugin.py:186-192 | Reading the two settings back gives the checkbox states; the only keys added are those two, and every other setting is unchanged |
| Loader.LoadsStartOne | a00_qpip/plugin.py:201-211 | Starting one plugin loads exactly that plugin, once |
| Loader.StartLoadsInOrder | a00_qpip/plugin.py:194-211 | `start_packages` loads the plugins given, each once, in the order given |
| Loader.StartGuarded | a00_qpip/plugin.py:201-211 | A plugin is started only right after it loaded, enabled only right after it started, and its watchdog entry is cleared only right after it was enabled |
| Loader.StartOneCalls | a00_qpip/plugin.py:201-211 | Starting one plugin starts it iff it loads, and enables it and clears its watchdog iff it also starts |
| Loader.StartedExactly | a00_qpip/plugin.py:194-211 | `start_packages` starts exactly the given plugins that load, and enables and clears the watchdog of exactly those that also start |
| Loader.PipCalls | a00_qpip/plugin.py:173-182 | An accepted dialog runs pip uninstall iff its list is not empty and pip install iff its list is not empty, at most one run of each and uninstall first; a rejected dialog runs nothing |
| Loader.DialogThenStartLoads | a00_qpip/plugin.py:70-77 | The pip runs load no plugin, so after the dialog the plugins loaded are exactly those started, in order |
| Loader.LibValues | a00_qpip/plugin.py:170-171 | Reading the `Lib` objects in insertion order gives `Values` of the dictionary they hold |
| Loader.Plugin.constructor | a00_qpip/plugin.py:23-27 | The plugin starts with no deferred plugin, no host call, and the stored settings |
| Loader.Plugin.OriginalLoad | a00_qpip/plugin.py:55-56 | The original `loadPlugin` is one call to the host, answered by the host |
| Loader.Plugin.StartPackages | a00_qpip/plugin.py:194-211 | Appends `StartTrace` of the plugins to the calls and changes nothing else |
| Loader.Plugin.Prompt | a00_qpip/plugin.py:169-192 | The dialog lists the given libraries. It opens on the stored checkboxes, the default selection and filter 1, and ends in `Steps` of the session's events. Pip runs as `PipCalls` of that final selection when it is accepted, and both checkboxes are saved either way |
| Loader.Plugin.Converse | a00_qpip/plugin.py:171-172 | The dialog opened with the stored checkboxes ends, after the session's events, in `Steps` of its opening state |
| Loader.UntouchedDialogCalls | a00_qpip/plugin.py:169-182 | An accepted dialog whose action boxes were never touched installs exactly the lone failed requirements of the QPIP-managed, uninstalled libraries, in one pip run when there are any, and uninstalls nothing; a rejected one runs nothing |
| Loader.Plugin.RunPip | a00_qpip/plugin.py:173-182 | Hands the dialog's uninstall list, then its install list, to pip, each only when not empty |
| Loader.Plugin.PipRuns | a00_qpip/plugin.py:174-182 | Appends one uninstall run when the uninstall list is not empty, then one install run when the install list is not empty, and changes nothing else |
| Loader.Plugin.CheckDeps | a00_qpip/plugin.py:125-192 | Shows a dialog iff forced or a checked requirement failed. The dialog lists `Values(Libs(...))` and ends in `Steps` of the session's events from its opening state. Pip runs and settings follow the dialog; with no dialog nothing changes |
| Loader.Plugin.PatchedLoad | a00_qpip/plugin.py:96-123 | While starting, defers (answer false) when checking on startup, else loads normally. Once up, loads normally when checking on install is off; otherwise it checks, starts the plugin and answers true |
| Loader.Plugin.InitComplete | a00_qpip/plugin.py:70-77 | With deferred plugins, checks them with the active ones and then starts them in order; the deferred list is emptied in every case |
| Loader.Plugin.Check | a00_qpip/plugin.py:251-252 | The toolbar check always shows the dialog, over the active plugins only |
| Prototype.MissingExactly | 000_qpip/plugin.py:97-107 | `missing_deps` lists each unsatisfied requirement once, with the state of its error; satisfied ones are absent |
| Prototype.ClassifyRequirements | 000_qpip/plugin.py:97-107 | The loop over the requirements computes `Missing` |
| Prototype.Rows | 000_qpip/plugin.py:121-129 | The dialog has one row per missing requirement, in `missing_deps` order, with the plugin, the requirement and its state |
| Prototype.DepsToInstall | 000_qpip/plugin.py:133-137 | A requirement is installed iff it is listed and the user did not uncheck it |
| Prototype.DepsKeepOrder | 000_qpip/plugin.py:133-137 | The requirements to install keep the order of the rows |
| Prototype.AllCheckedByDefault | 000_qpip/plugin.py:121-137 | Left as the dialog opens, every missing requirement is installed |
| Prototype.LoadNow | 000_qpip/plugin.py:94-156 | After startup, with nothing missing the plugin is loaded directly. Otherwise the dialog for that plugin comes first, pip is run with the checked missing requirements iff there are any, and the load raises iff that run failed; a load that returns answers as the host does |
| Prototype.LoadNowInstalls | 000_qpip/plugin.py:133-150 | Pip is asked only for missing requirements left checked, never with an empty list |
| Prototype.LoadNowLoads | 000_qpip/plugin.py:139-156 | The load loads its plugin once, as its last call, exactly when pip did not raise |
| Prototype.ReplayLoadsAll | 000_qpip/plugin.py:63-70 | A replay that runs to the end loads every deferred plugin once, in the order deferred |
| Prototype.ReplayLoadsPrefix | 000_qpip/plugin.py:63-70 | A replay that an exception stops has loaded a proper prefix of the deferred plugins, in order |
| Prototype.DeferredLoadsInOrder | 000_qpip/plugin.py:63-70 | `initComplete`'s replay loads the deferred plugins in order: all of them, or a proper prefix when pip raises |
| Prototype.ReplayCompletes | 000_qpip/plugin.py:63-70 | When every pip run succeeds, the replay runs to the end |
| Prototype.ReplayStops | 000_qpip/plugin.py:63-70 | Once pip has raised, the remaining deferred plugins change nothing |
| Prototype.ProtoPlugin.constructor | 000_qpip/plugin.py:17-21 | The prototype starts with no deferred plugin, before the host has finished starting |
| Prototype.ProtoPlugin.OriginalLoad | 000_qpip/plugin.py:45-46 | The original `loadPlugin` is one call to the host, answered by the host |
| Prototype.ProtoPlugin.PatchedLoad | 000_qpip/plugin.py:83-156 | With nothing missing, loads directly. With something missing during startup, defers and answers false without a dialog. After startup it does `LoadNow` |
| Prototype.ProtoPlugin.InitComplete | 000_qpip/plugin.py:63-70 | Sets the flag, then replays the deferred plugins; the list is emptied unless pip raised |
| Prototype.ProtoPlugin.LoadDeferred | 000_qpip/plugin.py:68-69 | The loop over the deferred plugins makes exactly the calls of `Replay` and stops at the first exception |

Definitions that carry no contract of their own; the rows above state their properties:

- `Reconcile.Libs`, the `libs` dictionary, a00_qpip/plugin.py:136-167: see `LibsEntries` and `CollectLibs`.
- `Reconcile.NeedsGui`, the `needs_gui` flag, a00_qpip/plugin.py:147-163: see `CollectLibs`.
- `Loader.StartTrace`, `start_packages`, a00_qpip/plugin.py:194-211: see `StartLoadsInOrder`, `StartGuarded` and `StartedExactly`.
- `Ui.InstallsOf` and `Ui.UninstallsOf`, `reqs_to_install` and `reqs_to_uninstall`, a00_qpip/ui.py:168-181: see `InstallsMembership`, `UninstallsMembership` and `RequestsFollowRowOrder`.
- `Prototype.Missing`, `missing_deps`, 000_qpip/plugin.py:97-107: see `MissingExactly`.
- `Prototype.StateOf`, the state text of an error, 000_qpip/plugin.py:104-107: see `MissingExactly` and `Rows`.
- `Prototype.Replay`, the loop of `initComplete`, 000_qpip/plugin.py:63-70: see `ReplayLoadsAll`, `ReplayLoadsPrefix` and `ReplayStops`.

## Left out

- Rendering is not modelled. This covers Qt widgets, labels, tooltips, the grey row shade of global libraries, the high-DPI resize, the toolbar and menu actions (`initGui`, `unload`), and `show_folder`. Only the index and visibility state of the widgets is modelled.
- `run_cmd`, the pip command lines, the progress dialog and logging are left out. A pip run is one `PipInstall`/`PipUninstall` entry in the call trace. In the current plugin its outcome is not observed. In the prototype, whether it succeeds is the oracle `pipOk`.
- Changes to `sys.path`, `PYTHONPATH` and `PATH`, `sys.path_importer_cache.clear()`, and the monkey patching of `qgis.utils.loadPlugin` are not modelled. The patched function is simply the method that is called.
- Reading and parsing `requirements.txt` is not modelled, nor is the normalisation of a requirement's key. Both come from the packaging library, so a parsed requirement is given as its key and its text.
- Requiring a requirement against the working set is the oracle `resolve`, fixed during one call. Only the two errors the source catches are modelled. Any other exception is left out.
- Prototype.ProtoPlugin.InitComplete: the replay checks every deferred plugin against the resolution outcomes from before it started, and one `pipOk` for all runs. In the source each replayed plugin resolves its requirements again, so a pip run made for an earlier plugin can satisfy a later plugin's requirements and spare it the dialog. The model does not capture that.
- `metadata.distributions()` is given as a list. The QPIP prefix test compares a distribution's directory with the prefix as strings.
- Whether the host window is visible is a parameter (`guiVisible`). The user's actions in a dialog are a parameter (a `Session`, or the unchecked set in the prototype).
- The dialog keeps a value snapshot of each `Lib`, because the source never changes a `Lib` after the dialog opens.
- A UI event the user cannot produce is skipped. Examples are a hidden row, an entry or filter index that does not exist.
- Prototype.MissingExactly: does not state the order of the keys of `missing_deps` (first occurrence). `Rows` and `DepsKeepOrder` follow whatever order the keys have.
- The `qpip/plugin.py` entry point and the test plugins are not part of this model.
