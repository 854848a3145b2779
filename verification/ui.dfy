/**
 * The decision rules of the dependency dialog (a00_qpip/ui.py): which column
 * lists each requirement, how a row is coloured, what each library's action
 * box offers and preselects, which rows each filter hides, and which
 * install / uninstall requests the selections amount to. Only the index and
 * visibility state of the widgets is modelled, not their rendering.
 */
module Ui {
  import opened Wrappers
  import opened Utils
  import opened Seqs

  // ---------------------------------------------------------------------------
  // Columns "ok", "conflicting" and "missing"

  datatype Column = OkColumn | ConflictingColumn | MissingColumn

  /** The column a requirement is listed in, chosen by the type of its error. */
  function ColumnOf(error: Option<ResolutionError>): Column
  {
    match error
    case None => OkColumn
    case Some(VersionConflict(_)) => ConflictingColumn
    case Some(DistributionNotFound) => MissingColumn
  }

  /** The requirements listed in column `c` of one library's row. */
  function Bucket(reqs: seq<Req>, c: Column): (b: seq<Req>)
    ensures |b| <= |reqs|
    ensures forall q :: q in b <==> q in reqs && ColumnOf(q.error) == c
  {
    if reqs == [] then []
    else
      var rest := Bucket(reqs[..|reqs| - 1], c);
      var last := reqs[|reqs| - 1];
      assert reqs == reqs[..|reqs| - 1] + [last];
      if ColumnOf(last.error) == c then rest + [last] else rest
  }

  /** A column lists its requirements in `required_by` order. */
  lemma {:induction false} BucketKeepsOrder(reqs: seq<Req>, c: Column)
    ensures IsSubsequence(Bucket(reqs, c), reqs)
  {
    if reqs != [] {
      var init, last := reqs[..|reqs| - 1], reqs[|reqs| - 1];
      BucketKeepsOrder(init, c);
      var rest := Bucket(init, c);
      if ColumnOf(last.error) == c {
        assert (rest + [last])[..|rest|] == rest;
      } else if rest != [] {
        assert rest[|rest| - 1] in rest;
      }
    }
  }

  /** Every requirement of a row is listed in exactly one of the three columns. */
  lemma {:induction false} BucketsPartition(reqs: seq<Req>)
    ensures |Bucket(reqs, OkColumn)| + |Bucket(reqs, ConflictingColumn)|
            + |Bucket(reqs, MissingColumn)| == |reqs|
  {
    if reqs != [] {
      BucketsPartition(reqs[..|reqs| - 1]);
    }
  }

  // ---------------------------------------------------------------------------
  // Cell colours

  datatype Colour = Yellow | Red | Green | NoColour

  predicate HasError(lib: LibView, c: Column)
  {
    exists q :: q in lib.requiredBy && ColumnOf(q.error) == c
  }

  /**
   * The colour of a row's three requirement cells: a conflict outranks a
   * missing distribution, which outranks "all satisfied"; a library that no
   * plugin requires is left uncoloured.
   */
  function CellColour(lib: LibView): (c: Colour)
    ensures c == Yellow <==> HasError(lib, ConflictingColumn)
    ensures c == Red <==> !HasError(lib, ConflictingColumn) && HasError(lib, MissingColumn)
    ensures c == Green <==>
              lib.requiredBy != [] && forall q :: q in lib.requiredBy ==> q.error == None
    ensures c == NoColour <==> lib.requiredBy == []
  {
    if HasError(lib, ConflictingColumn) then Yellow
    else if HasError(lib, MissingColumn) then Red
    else if lib.requiredBy != [] then
      assert forall q :: q in lib.requiredBy ==> ColumnOf(q.error) == OkColumn;
      Green
    else NoColour
  }

  // ---------------------------------------------------------------------------
  // The action box of each row

  /** The data attached to an entry of the action box (`None`, `("install", …)`, `("uninstall", …)`). */
  datatype Action = DoNothing | Install(requirement: string) | Uninstall(name: Option<string>)

  /**
   * The entries of a library's action box: "Do nothing", one install entry
   * per requirement in `required_by` order, then "Uninstall" when a
   * distribution is installed.
   */
  function Actions(lib: LibView): (a: seq<Action>)
    ensures |a| == 1 + |lib.requiredBy| + (if lib.installedDist.Some? then 1 else 0)
    ensures a[0] == DoNothing
    ensures forall k :: 0 <= k < |lib.requiredBy| ==> a[k + 1] == Install(lib.requiredBy[k].requirement)
    ensures lib.installedDist.Some? ==> a[|a| - 1] == Uninstall(lib.name)
    ensures forall k :: 0 < k < |a| ==> a[k] != DoNothing
  {
    [DoNothing]
    + seq(|lib.requiredBy|, k requires 0 <= k < |lib.requiredBy| => Install(lib.requiredBy[k].requirement))
    + (if lib.installedDist.Some? then [Uninstall(lib.name)] else [])
  }

  /**
   * The entry `_default_all` selects: the lone install entry of a
   * QPIP-managed, not installed library whose only requirement failed,
   * and "Do nothing" otherwise.
   */
  function Preselect(lib: LibView): (k: nat)
    ensures k < |Actions(lib)|
    ensures k == 0 || k == 1
    ensures k == 1 <==>
              && lib.qpip
              && |lib.requiredBy| == 1
              && lib.requiredBy[0].error.Some?
              && lib.installedDist.None?
    ensures k == 1 ==> Actions(lib)[k] == Install(lib.requiredBy[0].requirement)
  {
    if lib.qpip && |lib.requiredBy| == 1 && lib.requiredBy[0].error.Some? && lib.installedDist.None?
    then 1 else 0
  }

  /** A selection is one valid entry index per row. */
  predicate ValidSelection(libs: seq<LibView>, sel: seq<nat>)
  {
    |sel| == |libs| && forall i :: 0 <= i < |libs| ==> sel[i] < |Actions(libs[i])|
  }

  /** The selection `_default_all` leaves behind. */
  function DefaultSelection(libs: seq<LibView>): (sel: seq<nat>)
    ensures ValidSelection(libs, sel)
    ensures forall i :: 0 <= i < |libs| ==> sel[i] == Preselect(libs[i])
  {
    seq(|libs|, i requires 0 <= i < |libs| => Preselect(libs[i]))
  }

  /** The selection `_ignore_all` leaves behind. */
  function NoSelection(libs: seq<LibView>): (sel: seq<nat>)
    ensures ValidSelection(libs, sel)
    ensures forall i :: 0 <= i < |libs| ==> sel[i] == 0
  {
    seq(|libs|, i => 0)
  }

  // ---------------------------------------------------------------------------
  // Filter modes

  /** The entries of the filter box; the dialog opens on entry 1. */
  const FilterModes := ["Missing or conflicting only", "Required by plugins", "Show all",
                        "Show all incl. system deps [not recommended]"]
  const InitialFilter := 1

  /**
   * Whether `_filter` hides a row: a row with a selected action is always
   * shown; otherwise mode 0 hides rows without a failed requirement, mode 1
   * rows no plugin requires, mode 2 rows installed globally, mode 3 nothing.
   */
  function RowHidden(lib: LibView, selected: nat, mode: nat): (h: bool)
    ensures selected != 0 ==> !h
    ensures h ==> mode < 3
    ensures selected == 0 && mode == 0 ==> (h <==> forall q :: q in lib.requiredBy ==> q.error == None)
    ensures selected == 0 && mode == 1 ==> (h <==> lib.requiredBy == [])
    ensures selected == 0 && mode == 2 ==> (h <==> !lib.qpip)
  {
    if selected != 0 then false
    else if mode == 0 then forall q :: q in lib.requiredBy ==> q.error.None?
    else if mode == 1 then lib.requiredBy == []
    else if mode == 2 then !lib.qpip
    else false
  }

  /** The hidden flag of every row after `_filter`. */
  function HiddenRows(libs: seq<LibView>, sel: seq<nat>, mode: nat): (h: seq<bool>)
    requires |sel| == |libs|
    ensures |h| == |libs|
    ensures forall i :: 0 <= i < |libs| ==> h[i] == RowHidden(libs[i], sel[i], mode)
  {
    seq(|libs|, i requires 0 <= i < |libs| => RowHidden(libs[i], sel[i], mode))
  }

  /**
   * A row that `_default_all` preselects is shown under every filter mode,
   * even after its box is set back to "Do nothing": the defaults never pick
   * an action in a row the user cannot see.
   */
  lemma PreselectedShown(lib: LibView, mode: nat)
    requires Preselect(lib) == 1
    ensures !RowHidden(lib, 0, mode)
  {
    assert lib.requiredBy[0] in lib.requiredBy;
  }

  // ---------------------------------------------------------------------------
  // `_selected_actions`, `reqs_to_install`, `reqs_to_uninstall`

  /**
   * The data of entry `k` of a library's action box; an index with no
   * entry carries no data, as a box without a current item.
   */
  function Selected(lib: LibView, k: nat): Action
  {
    if k < |Actions(lib)| then Actions(lib)[k] else DoNothing
  }

  /** The selected entry of every row, in row order. */
  function RowActions(libs: seq<LibView>, sel: seq<nat>): (acts: seq<Action>)
    requires |sel| == |libs|
    ensures |acts| == |libs|
    ensures forall i :: 0 <= i < |libs| ==> acts[i] == Selected(libs[i], sel[i])
  {
    seq(|libs|, i requires 0 <= i < |libs| => Selected(libs[i], sel[i]))
  }

  /** What one selected entry adds to `reqs_to_install`. */
  function InstallRequest(a: Action): seq<string>
  {
    if a.Install? then [a.requirement] else []
  }

  /** What one selected entry adds to `reqs_to_uninstall`. */
  function UninstallRequest(a: Action): seq<Option<string>>
  {
    if a.Uninstall? then [a.name] else []
  }

  /** The requirement texts of the install entries among `acts`, in order. */
  function InstallsIn(acts: seq<Action>): seq<string>
  {
    if acts == [] then [] else InstallsIn(acts[..|acts| - 1]) + InstallRequest(acts[|acts| - 1])
  }

  /** The library names of the uninstall entries among `acts`, in order. */
  function UninstallsIn(acts: seq<Action>): seq<Option<string>>
  {
    if acts == [] then [] else UninstallsIn(acts[..|acts| - 1]) + UninstallRequest(acts[|acts| - 1])
  }

  /** The number of entries among `acts` that are not "Do nothing". */
  function ActingIn(acts: seq<Action>): (n: nat)
    ensures n <= |acts|
  {
    if acts == [] then 0 else ActingIn(acts[..|acts| - 1]) + (if acts[|acts| - 1] != DoNothing then 1 else 0)
  }

  /** `reqs_to_install`: the requirement texts of the install entries selected, row by row. */
  function InstallsOf(libs: seq<LibView>, sel: seq<nat>): seq<string>
    requires |sel| == |libs|
  {
    InstallsIn(RowActions(libs, sel))
  }

  /** `reqs_to_uninstall`: the library names of the uninstall entries selected, row by row. */
  function UninstallsOf(libs: seq<LibView>, sel: seq<nat>): seq<Option<string>>
    requires |sel| == |libs|
  {
    UninstallsIn(RowActions(libs, sel))
  }

  lemma {:induction false} InstallsInMembers(acts: seq<Action>, x: string)
    ensures x in InstallsIn(acts) <==> Install(x) in acts
  {
    if acts != [] {
      var init := acts[..|acts| - 1];
      InstallsInMembers(init, x);
      assert acts == init + [acts[|acts| - 1]];
    }
  }

  lemma {:induction false} UninstallsInMembers(acts: seq<Action>, x: Option<string>)
    ensures x in UninstallsIn(acts) <==> Uninstall(x) in acts
  {
    if acts != [] {
      var init := acts[..|acts| - 1];
      UninstallsInMembers(init, x);
      assert acts == init + [acts[|acts| - 1]];
    }
  }

  /** A requirement is to be installed iff some row's selected entry installs it. */
  lemma InstallsMembership(libs: seq<LibView>, sel: seq<nat>, x: string)
    requires |sel| == |libs|
    ensures x in InstallsOf(libs, sel) <==>
              exists i :: 0 <= i < |libs| && Selected(libs[i], sel[i]) == Install(x)
  {
    InstallsInMembers(RowActions(libs, sel), x);
  }

  /** A library is to be uninstalled iff some row's selected entry uninstalls it. */
  lemma UninstallsMembership(libs: seq<LibView>, sel: seq<nat>, x: Option<string>)
    requires |sel| == |libs|
    ensures x in UninstallsOf(libs, sel) <==>
              exists i :: 0 <= i < |libs| && Selected(libs[i], sel[i]) == Uninstall(x)
  {
    UninstallsInMembers(RowActions(libs, sel), x);
  }

  lemma {:induction false} OneRequestPerEntry(acts: seq<Action>)
    ensures |InstallsIn(acts)| + |UninstallsIn(acts)| == ActingIn(acts)
  {
    if acts != [] {
      OneRequestPerEntry(acts[..|acts| - 1]);
    }
  }

  /**
   * Each row whose selected entry is not "Do nothing" makes exactly one
   * request, and the other rows none: at most one request per library.
   */
  lemma AtMostOnePerLib(libs: seq<LibView>, sel: seq<nat>)
    requires |sel| == |libs|
    ensures |InstallsOf(libs, sel)| + |UninstallsOf(libs, sel)| == ActingIn(RowActions(libs, sel))
    ensures |InstallsOf(libs, sel)| + |UninstallsOf(libs, sel)| <= |libs|
  {
    OneRequestPerEntry(RowActions(libs, sel));
  }

  /** One more entry adds its own install request at the end. */
  lemma InstallsInSnoc(a: seq<Action>, x: Action)
    ensures InstallsIn(a + [x]) == InstallsIn(a) + InstallRequest(x)
  {
    assert (a + [x])[..|a|] == a;
  }

  /** One more entry adds its own uninstall request at the end. */
  lemma UninstallsInSnoc(a: seq<Action>, x: Action)
    ensures UninstallsIn(a + [x]) == UninstallsIn(a) + UninstallRequest(x)
  {
    assert (a + [x])[..|a|] == a;
  }

  lemma {:induction false} InstallsInAppend(a: seq<Action>, b: seq<Action>)
    ensures InstallsIn(a + b) == InstallsIn(a) + InstallsIn(b)
    decreases |b|
  {
    if b == [] {
      assert a + b == a;
    } else {
      var b', c := b[..|b| - 1], b[|b| - 1];
      SplitLast(b);
      AppendSnoc(a, b);
      InstallsInAppend(a, b');
      InstallsInSnoc(a + b', c);
      InstallsInSnoc(b', c);
      var x, y, z := InstallsIn(a), InstallsIn(b'), InstallRequest(c);
      assert (x + y) + z == x + (y + z);
    }
  }

  lemma {:induction false} UninstallsInAppend(a: seq<Action>, b: seq<Action>)
    ensures UninstallsIn(a + b) == UninstallsIn(a) + UninstallsIn(b)
    decreases |b|
  {
    if b == [] {
      assert a + b == a;
    } else {
      var b', c := b[..|b| - 1], b[|b| - 1];
      SplitLast(b);
      AppendSnoc(a, b);
      UninstallsInAppend(a, b');
      UninstallsInSnoc(a + b', c);
      UninstallsInSnoc(b', c);
      var x, y, z := UninstallsIn(a), UninstallsIn(b'), UninstallRequest(c);
      assert (x + y) + z == x + (y + z);
    }
  }

  /** Two blocks of rows side by side select their entries side by side. */
  lemma RowActionsAppend(libs1: seq<LibView>, sel1: seq<nat>, libs2: seq<LibView>, sel2: seq<nat>)
    requires |sel1| == |libs1| && |sel2| == |libs2|
    ensures RowActions(libs1 + libs2, sel1 + sel2) == RowActions(libs1, sel1) + RowActions(libs2, sel2)
  {
    var libs, sel := libs1 + libs2, sel1 + sel2;
    var whole, front, back := RowActions(libs, sel), RowActions(libs1, sel1), RowActions(libs2, sel2);
    forall i | 0 <= i < |whole|
      ensures whole[i] == (front + back)[i]
    {
      if i < |libs1| {
        assert libs[i] == libs1[i] && sel[i] == sel1[i];
      } else {
        assert libs[i] == libs2[i - |libs1|] && sel[i] == sel2[i - |libs1|];
      }
    }
  }

  /** The requests of two consecutive blocks of rows come block by block: they follow the row order. */
  lemma RequestsFollowRowOrder(libs1: seq<LibView>, sel1: seq<nat>, libs2: seq<LibView>, sel2: seq<nat>)
    requires |sel1| == |libs1| && |sel2| == |libs2|
    ensures InstallsOf(libs1 + libs2, sel1 + sel2) == InstallsOf(libs1, sel1) + InstallsOf(libs2, sel2)
    ensures UninstallsOf(libs1 + libs2, sel1 + sel2) == UninstallsOf(libs1, sel1) + UninstallsOf(libs2, sel2)
  {
    RowActionsAppend(libs1, sel1, libs2, sel2);
    InstallsInAppend(RowActions(libs1, sel1), RowActions(libs2, sel2));
    UninstallsInAppend(RowActions(libs1, sel1), RowActions(libs2, sel2));
  }

  lemma {:induction false} NothingRequested(acts: seq<Action>)
    requires forall i :: 0 <= i < |acts| ==> acts[i] == DoNothing
    ensures InstallsIn(acts) == [] && UninstallsIn(acts) == []
  {
    if acts != [] {
      NothingRequested(acts[..|acts| - 1]);
    }
  }

  /** After `_ignore_all` nothing is to be installed or uninstalled. */
  lemma IgnoreAllRequestsNothing(libs: seq<LibView>)
    ensures InstallsOf(libs, NoSelection(libs)) == []
    ensures UninstallsOf(libs, NoSelection(libs)) == []
  {
    NothingRequested(RowActions(libs, NoSelection(libs)));
  }

  /**
   * What the defaults install, stated without the action boxes: the only
   * requirement of every QPIP-managed, not installed library whose only
   * requirement failed, in row order.
   */
  function LoneFailedRequirements(libs: seq<LibView>): seq<string>
  {
    if libs == [] then []
    else
      var lib := libs[|libs| - 1];
      LoneFailedRequirements(libs[..|libs| - 1])
      + if lib.qpip && |lib.requiredBy| == 1 && lib.requiredBy[0].error.Some? && lib.installedDist.None?
        then [lib.requiredBy[0].requirement] else []
  }

  /** After `_default_all` the lone failed requirements are to be installed and nothing uninstalled. */
  lemma {:induction false} DefaultAllRequests(libs: seq<LibView>)
    ensures InstallsOf(libs, DefaultSelection(libs)) == LoneFailedRequirements(libs)
    ensures UninstallsOf(libs, DefaultSelection(libs)) == []
  {
    if libs != [] {
      var n := |libs| - 1;
      var acts := RowActions(libs, DefaultSelection(libs));
      assert acts[..n] == RowActions(libs[..n], DefaultSelection(libs[..n]));
      DefaultAllRequests(libs[..n]);
      var lib := libs[n];
      assert acts[n] == Selected(lib, Preselect(lib));
      if Preselect(lib) == 0 {
        assert acts[n] == DoNothing;
      } else {
        assert acts[n] == Install(lib.requiredBy[0].requirement);
      }
    }
  }

  // ---------------------------------------------------------------------------
  // The dialog

  /** What the user can do in the dialog. */
  datatype UiEvent =
    | PickFilter(mode: nat)              // choose an entry of the filter box
    | PickAction(row: nat, index: nat)   // choose an entry of a visible row's action box
    | PressIgnore                        // the "ignore all" button
    | PressDefault                       // the "default" button
    | TickStartup(on: bool)              // the check-on-startup checkbox
    | TickInstall(on: bool)              // the check-on-install checkbox

  /** The dialog's widget state as a value: each row's action index and hidden flag, the filter index, the checkboxes. */
  datatype DialogState = DialogState(selection: seq<nat>, hidden: seq<bool>, filterIndex: nat,
                                     checkOnStartup: bool, checkOnInstall: bool)

  /**
   * One entry per row, every index in range, and a hidden row was hidden by
   * the current filter and carries no selected action.
   */
  predicate Consistent(libs: seq<LibView>, s: DialogState)
  {
    && ValidSelection(libs, s.selection) && |s.hidden| == |libs| && s.filterIndex < |FilterModes|
    && forall i :: 0 <= i < |libs| && s.hidden[i] ==> s.selection[i] == 0 && RowHidden(libs[i], 0, s.filterIndex)
  }

  /** The state the dialog opens in: `_default_all`, then filter entry 1 and `_filter`. */
  function Opening(libs: seq<LibView>, checkOnStartup: bool, checkOnInstall: bool): (s: DialogState)
    ensures Consistent(libs, s)
  {
    var sel := DefaultSelection(libs);
    DialogState(sel, HiddenRows(libs, sel, InitialFilter), InitialFilter, checkOnStartup, checkOnInstall)
  }

  /** `_default_all` keeps a consistent state consistent: no preselected row is hidden. */
  lemma DefaultKeepsConsistent(libs: seq<LibView>, s: DialogState)
    requires Consistent(libs, s)
    ensures Consistent(libs, s.(selection := DefaultSelection(libs)))
  {
    var sel := DefaultSelection(libs);
    forall i | 0 <= i < |libs| && s.hidden[i]
      ensures sel[i] == 0
    {
      if sel[i] == 1 {
        PreselectedShown(libs[i], s.filterIndex);
      }
    }
  }

  /**
   * What one user event does to the dialog. A filter change refilters the
   * rows only when the index changes (`currentIndexChanged`); picking an
   * action does not refilter; the buttons set every action box; a checkbox
   * changes only itself. An event naming a row that does not exist or is
   * hidden, an entry or a filter mode that does not exist is not one the
   * user can produce and changes nothing.
   */
  function Step(libs: seq<LibView>, s: DialogState, e: UiEvent): (t: DialogState)
    requires Consistent(libs, s)
    ensures Consistent(libs, t)
  {
    match e
    case PickFilter(mode) =>
      if mode < |FilterModes| && mode != s.filterIndex
      then s.(filterIndex := mode, hidden := HiddenRows(libs, s.selection, mode))
      else s
    case PickAction(row, index) =>
      if row < |libs| && index < |Actions(libs[row])| && !s.hidden[row]
      then s.(selection := s.selection[row := index])
      else s
    case PressIgnore => s.(selection := NoSelection(libs))
    case PressDefault => DefaultKeepsConsistent(libs, s); s.(selection := DefaultSelection(libs))
    case TickStartup(on) => s.(checkOnStartup := on)
    case TickInstall(on) => s.(checkOnInstall := on)
  }

  /** The dialog's state after the user's events, one after the other. */
  function Steps(libs: seq<LibView>, s: DialogState, events: seq<UiEvent>): (t: DialogState)
    requires Consistent(libs, s)
    ensures Consistent(libs, t)
  {
    if events == [] then s
    else Step(libs, Steps(libs, s, events[..|events| - 1]), events[|events| - 1])
  }

  /** An event that leaves every action box as it is. */
  predicate KeepsSelection(e: UiEvent)
  {
    e.PickFilter? || e.TickStartup? || e.TickInstall?
  }

  /** Events that touch no action box leave the selection as it was. */
  lemma {:induction false} StepsKeepSelection(libs: seq<LibView>, s: DialogState, events: seq<UiEvent>)
    requires Consistent(libs, s)
    requires forall j :: 0 <= j < |events| ==> KeepsSelection(events[j])
    ensures Steps(libs, s, events).selection == s.selection
  {
    if events != [] {
      StepsKeepSelection(libs, s, events[..|events| - 1]);
    }
  }

  /**
   * The selection the dialog is left with is the one the last button press
   * gave, when no action box was touched after it.
   */
  lemma {:induction false} LastButtonDecides(libs: seq<LibView>, s: DialogState, events: seq<UiEvent>, k: nat)
    requires Consistent(libs, s)
    requires k < |events| && (events[k] == PressIgnore || events[k] == PressDefault)
    requires forall j :: k < j < |events| ==> KeepsSelection(events[j])
    ensures Steps(libs, s, events).selection ==
              if events[k] == PressIgnore then NoSelection(libs) else DefaultSelection(libs)
  {
    if k < |events| - 1 {
      LastButtonDecides(libs, s, events[..|events| - 1], k);
    }
  }

  /**
   * A dialog whose action boxes the user never touches requests the lone
   * failed requirement of each QPIP-managed, uninstalled library, in row
   * order, and uninstalls nothing.
   */
  lemma UntouchedRequestsDefaults(libs: seq<LibView>, checkOnStartup: bool, checkOnInstall: bool, events: seq<UiEvent>)
    requires forall j :: 0 <= j < |events| ==> KeepsSelection(events[j])
    ensures var t := Steps(libs, Opening(libs, checkOnStartup, checkOnInstall), events);
            InstallsOf(libs, t.selection) == LoneFailedRequirements(libs) && UninstallsOf(libs, t.selection) == []
  {
    StepsKeepSelection(libs, Opening(libs, checkOnStartup, checkOnInstall), events);
    DefaultAllRequests(libs);
  }

  /** A dialog whose last button press is "ignore all", with no action box touched after it, requests nothing. */
  lemma IgnoredLastRequestsNothing(libs: seq<LibView>, s: DialogState, events: seq<UiEvent>, k: nat)
    requires Consistent(libs, s)
    requires k < |events| && events[k] == PressIgnore
    requires forall j :: k < j < |events| ==> KeepsSelection(events[j])
    ensures InstallsOf(libs, Steps(libs, s, events).selection) == []
    ensures UninstallsOf(libs, Steps(libs, s, events).selection) == []
  {
    LastButtonDecides(libs, s, events, k);
    IgnoreAllRequestsNothing(libs);
  }

  class MainDialog {
    /** The libraries, one row each, in the order given. */
    const libs: seq<LibView>
    /** The current index of each row's action box. */
    var selection: seq<nat>
    /** Whether each row is hidden. */
    var hidden: seq<bool>
    /** The current index of the filter box. */
    var filterIndex: nat
    var checkOnStartup: bool
    var checkOnInstall: bool

    /** The widget state has one entry per row, every index is in range. */
    ghost predicate Shaped()
      reads this
    {
      ValidSelection(libs, selection) && |hidden| == |libs| && filterIndex < |FilterModes|
    }

    /**
     * The dialog's invariant: a hidden row was hidden by the current filter
     * and carries no selected action, so every request the dialog returns
     * is on a row the user can see.
     */
    ghost predicate Valid()
      reads this
    {
      Consistent(libs, State())
    }

    /** The widget state as a value. */
    ghost function State(): DialogState
      reads this
    {
      DialogState(selection, hidden, filterIndex, checkOnStartup, checkOnInstall)
    }

    /** Opens on the default selections, with the "Required by plugins" filter applied. */
    constructor (libs: seq<LibView>, checkOnStartup: bool, checkOnInstall: bool)
      ensures Valid()
      ensures this.libs == libs
      ensures this.checkOnStartup == checkOnStartup && this.checkOnInstall == checkOnInstall
      ensures selection == DefaultSelection(libs)
      ensures filterIndex == InitialFilter
      ensures hidden == HiddenRows(libs, selection, InitialFilter)
      ensures State() == Opening(libs, checkOnStartup, checkOnInstall)
    {
      this.libs := libs;
      this.checkOnStartup := checkOnStartup;
      this.checkOnInstall := checkOnInstall;
      selection := NoSelection(libs);
      hidden := seq(|libs|, i => false);
      filterIndex := 0;
      new;
      DefaultAll();
      filterIndex := InitialFilter;
      Filter();
    }

    /** `_filter`: recomputes which rows are hidden. */
    method Filter()
      requires Shaped()
      modifies this
      ensures Valid()
      ensures hidden == HiddenRows(libs, selection, filterIndex)
      ensures selection == old(selection) && filterIndex == old(filterIndex)
      ensures checkOnStartup == old(checkOnStartup) && checkOnInstall == old(checkOnInstall)
    {
      var i := 0;
      while i < |libs|
        invariant 0 <= i <= |libs|
        invariant |hidden| == |libs|
        invariant selection == old(selection) && filterIndex == old(filterIndex)
        invariant forall k :: 0 <= k < i ==> hidden[k] == RowHidden(libs[k], selection[k], filterIndex)
        invariant checkOnStartup == old(checkOnStartup) && checkOnInstall == old(checkOnInstall)
      {
        hidden := hidden[i := RowHidden(libs[i], selection[i], filterIndex)];
        i := i + 1;
      }
    }

    /** `_ignore_all`: every action box back to "Do nothing". */
    method IgnoreAll()
      requires Valid()
      modifies this
      ensures Valid()
      ensures selection == NoSelection(libs)
      ensures hidden == old(hidden) && filterIndex == old(filterIndex)
      ensures checkOnStartup == old(checkOnStartup) && checkOnInstall == old(checkOnInstall)
    {
      var i := 0;
      while i < |libs|
        invariant 0 <= i <= |libs|
        invariant |selection| == |libs|
        invariant forall k :: 0 <= k < i ==> selection[k] == 0
        invariant forall k :: i <= k < |libs| ==> selection[k] == old(selection[k])
        invariant hidden == old(hidden) && filterIndex == old(filterIndex)
        invariant checkOnStartup == old(checkOnStartup) && checkOnInstall == old(checkOnInstall)
      {
        selection := selection[i := 0];
        i := i + 1;
      }
    }

    /** `_default_all`: every action box to its preselected entry. */
    method DefaultAll()
      requires Valid()
      modifies this
      ensures Valid()
      ensures selection == DefaultSelection(libs)
      ensures hidden == old(hidden) && filterIndex == old(filterIndex)
      ensures checkOnStartup == old(checkOnStartup) && checkOnInstall == old(checkOnInstall)
    {
      var i := 0;
      while i < |libs|
        invariant 0 <= i <= |libs|
        invariant |selection| == |libs|
        invariant forall k :: 0 <= k < i ==> selection[k] == Preselect(libs[k])
        invariant forall k :: i <= k < |libs| ==> selection[k] == old(selection[k])
        invariant hidden == old(hidden) && filterIndex == old(filterIndex)
        invariant checkOnStartup == old(checkOnStartup) && checkOnInstall == old(checkOnInstall)
      {
        selection := selection[i := Preselect(libs[i])];
        i := i + 1;
      }
      forall k | 0 <= k < |libs| && hidden[k]
        ensures selection[k] == 0
      {
        if selection[k] == 1 {
          PreselectedShown(libs[k], filterIndex);
        }
      }
    }

    /**
     * The user picks a filter entry. Qt reports the change, and `_filter`
     * runs, only when the index actually changes.
     */
    method PickFilter(mode: nat)
      requires Valid() && mode < |FilterModes|
      modifies this
      ensures Valid()
      ensures filterIndex == mode && selection == old(selection)
      ensures hidden == if mode == old(filterIndex) then old(hidden) else HiddenRows(libs, selection, mode)
      ensures checkOnStartup == old(checkOnStartup) && checkOnInstall == old(checkOnInstall)
    {
      if mode != filterIndex {
        filterIndex := mode;
        Filter();
      }
    }

    /** The user picks an entry in the action box of a visible row; rows are not re-filtered. */
    method PickAction(row: nat, index: nat)
      requires Valid() && row < |libs| && index < |Actions(libs[row])| && !hidden[row]
      modifies this
      ensures Valid()
      ensures selection == old(selection)[row := index]
      ensures hidden == old(hidden) && filterIndex == old(filterIndex)
      ensures checkOnStartup == old(checkOnStartup) && checkOnInstall == old(checkOnInstall)
    {
      selection := selection[row := index];
    }

    /** One user event, as `Step` describes it. */
    method Handle(e: UiEvent)
      requires Valid()
      modifies this
      ensures Valid()
      ensures State() == Step(libs, old(State()), e)
      ensures e.PickFilter? && e.mode < |FilterModes| ==>
                && filterIndex == e.mode && selection == old(selection)
                && hidden == (if e.mode == old(filterIndex) then old(hidden) else HiddenRows(libs, selection, e.mode))
      ensures e.PickAction? && e.row < |libs| && e.index < |Actions(libs[e.row])| && !old(hidden)[e.row] ==>
                selection == old(selection)[e.row := e.index] && hidden == old(hidden) && filterIndex == old(filterIndex)
      ensures e == PressIgnore ==> selection == NoSelection(libs) && hidden == old(hidden) && filterIndex == old(filterIndex)
      ensures e == PressDefault ==> selection == DefaultSelection(libs) && hidden == old(hidden) && filterIndex == old(filterIndex)
      ensures e.TickStartup? || e.TickInstall? ==>
                selection == old(selection) && hidden == old(hidden) && filterIndex == old(filterIndex)
      ensures e.TickStartup? ==> checkOnStartup == e.on
      ensures !e.TickStartup? ==> checkOnStartup == old(checkOnStartup)
      ensures e.TickInstall? ==> checkOnInstall == e.on
      ensures !e.TickInstall? ==> checkOnInstall == old(checkOnInstall)
    {
      match e {
        case PickFilter(mode) =>
          if mode < |FilterModes| {
            PickFilter(mode);
          }
        case PickAction(row, index) =>
          if row < |libs| && index < |Actions(libs[row])| && !hidden[row] {
            PickAction(row, index);
          }
        case PressIgnore =>
          IgnoreAll();
        case PressDefault =>
          DefaultAll();
        case TickStartup(on) =>
          checkOnStartup := on;
        case TickInstall(on) =>
          checkOnInstall := on;
      }
    }

    /** The user's session with the dialog, event by event, until it is closed. */
    method Run(events: seq<UiEvent>)
      requires Valid()
      modifies this
      ensures Valid()
      ensures State() == Steps(libs, old(State()), events)
    {
      ghost var s0 := State();
      for i := 0 to |events|
        invariant Valid()
        invariant State() == Steps(libs, s0, events[..i])
      {
        Handle(events[i]);
        assert events[..i + 1][..i] == events[..i];
      }
      assert events[..|events|] == events;
    }

    /** `reqs_to_install`: the requirement texts of the selected install entries, row by row. */
    method ReqsToInstall() returns (r: seq<string>)
      requires Valid()
      ensures r == InstallsOf(libs, selection)
    {
      r := [];
      for i := 0 to |libs|
        invariant r == InstallsIn(RowActions(libs, selection)[..i])
      {
        var action := Actions(libs[i])[selection[i]];
        if action.Install? {
          r := r + [action.requirement];
        }
        assert RowActions(libs, selection)[..i + 1][..i] == RowActions(libs, selection)[..i];
      }
      assert RowActions(libs, selection)[..|libs|] == RowActions(libs, selection);
    }

    /** `reqs_to_uninstall`: the library names of the selected uninstall entries, row by row. */
    method ReqsToUninstall() returns (r: seq<Option<string>>)
      requires Valid()
      ensures r == UninstallsOf(libs, selection)
    {
      r := [];
      for i := 0 to |libs|
        invariant r == UninstallsIn(RowActions(libs, selection)[..i])
      {
        var action := Actions(libs[i])[selection[i]];
        if action.Uninstall? {
          r := r + [action.name];
        }
        assert RowActions(libs, selection)[..i + 1][..i] == RowActions(libs, selection)[..i];
      }
      assert RowActions(libs, selection)[..|libs|] == RowActions(libs, selection);
    }
  }
}
