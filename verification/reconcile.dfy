/**
 * The reconciliation pass of `check_deps_and_prompt_install`
 * (a00_qpip/plugin.py): the `libs` dictionary that maps each library name
 * to a `Lib`, seeded from the installed distributions and then given one
 * `Req` per requirement line of each checked plugin, and the `needs_gui`
 * flag that says whether some requirement failed.
 *
 * `Libs` states the resulting dictionary as a value; `CollectLibs` builds it
 * from `Lib` objects the way the source does and is proved to agree with
 * it; the lemmas at the end characterise every entry independently.
 */
module Reconcile {
  import opened Wrappers
  import opened Utils
  import opened HostEnv

  // ---------------------------------------------------------------------------
  // The dictionary as a value

  /** A `defaultdict(Lib)` as a value: its keys in insertion order and the library under each key. */
  datatype Table = Table(order: seq<string>, entries: map<string, LibView>)

  const EmptyTable := Table([], map[])

  /** The keys are listed once each, in insertion order. */
  ghost predicate WellFormed(t: Table)
  {
    && (forall i, j :: 0 <= i < j < |t.order| ==> t.order[i] != t.order[j])
    && (forall k :: k in t.entries <==> k in t.order)
  }

  /** What `libs[key]` reads: the library under `key`, or a new one. */
  function Lookup(t: Table, key: string): LibView
  {
    if key in t.entries then t.entries[key] else FreshLib
  }

  /** `libs[key]` on a `defaultdict`: the first use of a key appends it with a new library. */
  function Touch(t: Table, key: string): Table
  {
    if key in t.entries then t else Table(t.order + [key], t.entries[key := FreshLib])
  }

  /** One installed distribution: recorded under its name; `qpip` drops when it lies outside the prefix. */
  function AddDist(t: Table, d: Dist, sitePackages: string): Table
  {
    var t1 := Touch(t, d.name);
    var lib := t1.entries[d.name];
    Table(t1.order, t1.entries[d.name := lib.(name := Some(d.name), installedDist := Some(d),
                                               qpip := lib.qpip && d.location == sitePackages)])
  }

  /** The dictionary after the loop over the installed distributions. */
  function Seed(dists: seq<Dist>, sitePackages: string): Table
  {
    if dists == [] then EmptyTable
    else AddDist(Seed(dists[..|dists| - 1], sitePackages), dists[|dists| - 1], sitePackages)
  }

  /** One requirement line of one checked plugin. */
  datatype Line = Line(plugin: string, req: Requirement)

  function LinesOf(plugin: string, reqs: seq<Requirement>): (ls: seq<Line>)
    ensures |ls| == |reqs|
    ensures forall i :: 0 <= i < |reqs| ==> ls[i] == Line(plugin, reqs[i])
  {
    seq(|reqs|, i requires 0 <= i < |reqs| => Line(plugin, reqs[i]))
  }

  /**
   * The requirement lines of the checked plugins, in plugin order and then
   * in file order; a plugin without a requirements file contributes none.
   */
  function Checked(plugins: seq<string>, files: map<string, seq<Requirement>>): seq<Line>
  {
    if plugins == [] then []
    else
      var p := plugins[|plugins| - 1];
      Checked(plugins[..|plugins| - 1], files) + PluginLines(p, files)
  }

  /** The requirement lines of one plugin: none without a requirements file. */
  function PluginLines(p: string, files: map<string, seq<Requirement>>): seq<Line>
  {
    if p in files then LinesOf(p, files[p]) else []
  }

  /** The `Req` a line produces: its plugin, its text, and the outcome of requiring it. */
  function ReqOf(l: Line, resolve: string -> Option<ResolutionError>): Req
  {
    Req(l.plugin, l.req.text, resolve(l.req.text))
  }

  /** One requirement line: its `Req` appended to the library of its key. */
  function AddLine(t: Table, l: Line, resolve: string -> Option<ResolutionError>): Table
  {
    var key := l.req.key;
    var t1 := Touch(t, key);
    var lib := t1.entries[key];
    Table(t1.order, t1.entries[key := lib.(name := Some(key), requiredBy := lib.requiredBy + [ReqOf(l, resolve)])])
  }

  function AddLines(t: Table, lines: seq<Line>, resolve: string -> Option<ResolutionError>): Table
  {
    if lines == [] then t
    else AddLine(AddLines(t, lines[..|lines| - 1], resolve), lines[|lines| - 1], resolve)
  }

  /** The `libs` dictionary at the end of the pass over `plugins`. */
  function Libs(env: Environment, plugins: seq<string>, sitePackages: string): Table
  {
    AddLines(Seed(env.distributions, sitePackages), Checked(plugins, env.requirementFiles), env.resolve)
  }

  /** `needs_gui`: some checked requirement raised `VersionConflict` or `DistributionNotFound`. */
  predicate NeedsGui(lines: seq<Line>, resolve: string -> Option<ResolutionError>)
  {
    exists i :: 0 <= i < |lines| && resolve(lines[i].req.text).Some?
  }

  /** The libraries in insertion order, as `libs.values()` yields them. */
  function Values(t: Table): (vs: seq<LibView>)
    ensures |vs| == |t.order|
    ensures WellFormed(t) ==> forall i :: 0 <= i < |vs| ==> vs[i] == t.entries[t.order[i]]
  {
    seq(|t.order|, i requires 0 <= i < |t.order| => Lookup(t, t.order[i]))
  }

  // ---------------------------------------------------------------------------
  // What every entry holds, stated without the dictionary

  /** The names of the installed distributions. */
  function DistNames(dists: seq<Dist>): set<string>
  {
    set d | d in dists :: d.name
  }

  /** The keys of the requirement lines. */
  function LineKeys(lines: seq<Line>): set<string>
  {
    set l | l in lines :: l.req.key
  }

  /** The last installed distribution called `name`: the one whose record is kept. */
  function LastDist(dists: seq<Dist>, name: string): Option<Dist>
  {
    if dists == [] then None
    else if dists[|dists| - 1].name == name then Some(dists[|dists| - 1])
    else LastDist(dists[..|dists| - 1], name)
  }

  /** Every installed distribution called `name` lies in the QPIP prefix. */
  predicate AllInPrefix(dists: seq<Dist>, name: string, sitePackages: string)
  {
    forall d :: d in dists && d.name == name ==> d.location == sitePackages
  }

  /** The `Req`s of the lines whose key is `key`, in line order. */
  function ReqsFor(key: string, lines: seq<Line>, resolve: string -> Option<ResolutionError>): seq<Req>
  {
    if lines == [] then []
    else
      var l := lines[|lines| - 1];
      ReqsFor(key, lines[..|lines| - 1], resolve) + if l.req.key == key then [ReqOf(l, resolve)] else []
  }

  /** `libs[key]` keeps the dictionary well formed and adds `key` after the existing keys. */
  lemma TouchShape(t: Table, key: string)
    requires WellFormed(t)
    ensures WellFormed(Touch(t, key))
    ensures Touch(t, key).entries.Keys == t.entries.Keys + {key}
    ensures t.order <= Touch(t, key).order
  {
  }

  /** One installed distribution keeps the dictionary well formed and adds its name. */
  lemma AddDistShape(t: Table, d: Dist, sitePackages: string)
    requires WellFormed(t)
    ensures WellFormed(AddDist(t, d, sitePackages))
    ensures AddDist(t, d, sitePackages).entries.Keys == t.entries.Keys + {d.name}
    ensures t.order <= AddDist(t, d, sitePackages).order
  {
    TouchShape(t, d.name);
  }

  /** One requirement line keeps the dictionary well formed and adds its key. */
  lemma AddLineShape(t: Table, l: Line, resolve: string -> Option<ResolutionError>)
    requires WellFormed(t)
    ensures WellFormed(AddLine(t, l, resolve))
    ensures AddLine(t, l, resolve).entries.Keys == t.entries.Keys + {l.req.key}
    ensures t.order <= AddLine(t, l, resolve).order
  {
    TouchShape(t, l.req.key);
  }

  /** One installed distribution, seen from one key. */
  lemma AddDistAt(t: Table, d: Dist, sitePackages: string, k: string)
    ensures k in AddDist(t, d, sitePackages).entries <==> k in t.entries || k == d.name
    ensures k in AddDist(t, d, sitePackages).entries ==>
              AddDist(t, d, sitePackages).entries[k]
              == if k == d.name
                 then Lookup(t, k).(name := Some(k), installedDist := Some(d),
                                    qpip := Lookup(t, k).qpip && d.location == sitePackages)
                 else t.entries[k]
  {
  }

  /** The names of the installed distributions after one more. */
  lemma DistNamesSnoc(init: seq<Dist>, d: Dist)
    ensures DistNames(init + [d]) == DistNames(init) + {d.name}
  {
    assert forall x :: x in init + [d] <==> x in init || x == d;
  }

  /** The loop over the installed distributions leaves a well-formed dictionary keyed by their names. */
  lemma {:induction false} SeedShape(dists: seq<Dist>, sitePackages: string)
    ensures WellFormed(Seed(dists, sitePackages))
    ensures Seed(dists, sitePackages).entries.Keys == DistNames(dists)
  {
    if dists != [] {
      var init, d := dists[..|dists| - 1], dists[|dists| - 1];
      SeedShape(init, sitePackages);
      AddDistShape(Seed(init, sitePackages), d, sitePackages);
      assert dists == init + [d];
      DistNamesSnoc(init, d);
    }
  }

  /** The last distribution called `k` and whether all of them lie in the prefix, after one more. */
  lemma DistFactsSnoc(init: seq<Dist>, d: Dist, sitePackages: string, k: string)
    ensures LastDist(init + [d], k) == if d.name == k then Some(d) else LastDist(init, k)
    ensures AllInPrefix(init + [d], k, sitePackages)
            <==> AllInPrefix(init, k, sitePackages) && (d.name == k ==> d.location == sitePackages)
  {
    var dists := init + [d];
    assert dists[..|dists| - 1] == init && dists[|dists| - 1] == d;
    assert forall x :: x in dists <==> x in init || x == d;
  }

  /** A name no installed distribution has: no last distribution, and nothing outside the prefix. */
  lemma {:induction false} DistFactsOtherName(dists: seq<Dist>, sitePackages: string, k: string)
    requires k !in DistNames(dists)
    ensures LastDist(dists, k) == None && AllInPrefix(dists, k, sitePackages)
  {
    if dists != [] {
      var init, d := dists[..|dists| - 1], dists[|dists| - 1];
      assert dists == init + [d];
      DistNamesSnoc(init, d);
      DistFactsOtherName(init, sitePackages, k);
      DistFactsSnoc(init, d, sitePackages, k);
    }
  }

  /** What the loop over the installed distributions leaves under one name. */
  lemma {:induction false} SeedEntry(dists: seq<Dist>, sitePackages: string, k: string)
    requires k in Seed(dists, sitePackages).entries
    ensures Seed(dists, sitePackages).entries[k]
            == LibView(Some(k), [], LastDist(dists, k), AllInPrefix(dists, k, sitePackages))
  {
    if dists != [] {
      var init, d := dists[..|dists| - 1], dists[|dists| - 1];
      assert dists == init + [d];
      var t0 := Seed(init, sitePackages);
      AddDistAt(t0, d, sitePackages, k);
      DistFactsSnoc(init, d, sitePackages, k);
      if k in t0.entries {
        SeedEntry(init, sitePackages, k);
      } else {
        SeedShape(init, sitePackages);
        DistFactsOtherName(init, sitePackages, k);
      }
    }
  }

  /** The names of the requirement lines after one more line. */
  lemma LineKeysSnoc(init: seq<Line>, l: Line)
    ensures LineKeys(init + [l]) == LineKeys(init) + {l.req.key}
  {
    assert forall x :: x in init + [l] <==> x in init || x == l;
  }

  /** Folding requirement lines adds their keys after the existing ones, each once. */
  lemma {:induction false} AddLinesShape(t: Table, lines: seq<Line>, resolve: string -> Option<ResolutionError>)
    requires WellFormed(t)
    ensures WellFormed(AddLines(t, lines, resolve))
    ensures AddLines(t, lines, resolve).entries.Keys == t.entries.Keys + LineKeys(lines)
    ensures t.order <= AddLines(t, lines, resolve).order
  {
    if lines == [] {
      assert LineKeys(lines) == {};
    } else {
      var init, l := lines[..|lines| - 1], lines[|lines| - 1];
      AddLinesShape(t, init, resolve);
      AddLineShape(AddLines(t, init, resolve), l, resolve);
      assert lines == init + [l];
      LineKeysSnoc(init, l);
    }
  }

  /** The entry of `k` after folding `lines` into `t`. */
  function EntryAfter(t: Table, lines: seq<Line>, resolve: string -> Option<ResolutionError>, k: string): LibView
  {
    Lookup(t, k).(name := if k in LineKeys(lines) then Some(k) else Lookup(t, k).name,
                  requiredBy := Lookup(t, k).requiredBy + ReqsFor(k, lines, resolve))
  }

  /** One requirement line, seen from one key. */
  lemma AddLineAt(t: Table, l: Line, resolve: string -> Option<ResolutionError>, k: string)
    ensures k in AddLine(t, l, resolve).entries <==> k in t.entries || k == l.req.key
    ensures k in AddLine(t, l, resolve).entries ==>
              AddLine(t, l, resolve).entries[k]
              == if k == l.req.key
                 then Lookup(t, k).(name := Some(k), requiredBy := Lookup(t, k).requiredBy + [ReqOf(l, resolve)])
                 else t.entries[k]
  {
  }

  /** One more line keeps every entry equal to `EntryAfter`. */
  lemma EntryAfterStep(t: Table, init: seq<Line>, r0: Table, l: Line, resolve: string -> Option<ResolutionError>, k: string)
    requires k !in r0.entries ==> k !in t.entries && k !in LineKeys(init)
    requires k in r0.entries ==> r0.entries[k] == EntryAfter(t, init, resolve, k)
    requires k in AddLine(r0, l, resolve).entries
    ensures AddLine(r0, l, resolve).entries[k] == EntryAfter(t, init + [l], resolve, k)
  {
    var lines := init + [l];
    LineKeysSnoc(init, l);
    AddLineAt(r0, l, resolve, k);
    assert lines[..|lines| - 1] == init && lines[|lines| - 1] == l;
    var base := Lookup(t, k);
    var before := ReqsFor(k, init, resolve);
    var e := AddLine(r0, l, resolve).entries[k];
    var q := ReqOf(l, resolve);
    if k != l.req.key {
      assert ReqsFor(k, lines, resolve) == before + [];
      assert e == r0.entries[k];
    } else if k in r0.entries {
      assert ReqsFor(k, lines, resolve) == before + [q];
      assert e == r0.entries[k].(name := Some(k), requiredBy := r0.entries[k].requiredBy + [q]);
      assert base.requiredBy + before + [q] == base.requiredBy + (before + [q]);
    } else {
      ReqsForOtherKey(k, init, resolve);
      assert ReqsFor(k, lines, resolve) == [] + [q];
      assert e == FreshLib.(name := Some(k), requiredBy := [q]);
    }
  }

  /** What folding requirement lines into a dictionary leaves under one key. */
  lemma {:induction false} AddLinesEntry(t: Table, lines: seq<Line>, resolve: string -> Option<ResolutionError>, k: string)
    requires WellFormed(t)
    requires k in AddLines(t, lines, resolve).entries
    ensures AddLines(t, lines, resolve).entries[k] == EntryAfter(t, lines, resolve, k)
  {
    if lines == [] {
      assert LineKeys(lines) == {};
      assert t.entries[k].requiredBy + [] == t.entries[k].requiredBy;
    } else {
      var init, l := lines[..|lines| - 1], lines[|lines| - 1];
      assert lines == init + [l];
      AddLinesShape(t, init, resolve);
      var r0 := AddLines(t, init, resolve);
      if k in r0.entries {
        AddLinesEntry(t, init, resolve, k);
      }
      EntryAfterStep(t, init, r0, l, resolve, k);
    }
  }

  /** A key no line names has no `Req`. */
  lemma {:induction false} ReqsForOtherKey(key: string, lines: seq<Line>, resolve: string -> Option<ResolutionError>)
    requires key !in LineKeys(lines)
    ensures ReqsFor(key, lines, resolve) == []
  {
    if lines != [] {
      var init := lines[..|lines| - 1];
      assert LineKeys(init) <= LineKeys(lines) by {
        assert forall x :: x in init ==> x in lines;
      }
      ReqsForOtherKey(key, init, resolve);
      assert lines[|lines| - 1] in lines;
    }
  }

  /**
   * The dictionary of the reconciliation pass: exactly one library per
   * installed distribution name and per requirement key, installed
   * distributions first; each named by its key, required by that key's
   * requirement lines in plugin order and then file order, holding the last
   * installed distribution of that name, and QPIP-managed unless a
   * distribution of that name lies outside the prefix.
   */
  lemma LibsEntries(env: Environment, plugins: seq<string>, sitePackages: string)
    ensures WellFormed(Libs(env, plugins, sitePackages))
    ensures Libs(env, plugins, sitePackages).entries.Keys
            == DistNames(env.distributions) + LineKeys(Checked(plugins, env.requirementFiles))
    ensures Seed(env.distributions, sitePackages).order <= Libs(env, plugins, sitePackages).order
    ensures forall k :: k in Libs(env, plugins, sitePackages).entries ==>
              Libs(env, plugins, sitePackages).entries[k]
              == LibView(Some(k), ReqsFor(k, Checked(plugins, env.requirementFiles), env.resolve),
                         LastDist(env.distributions, k), AllInPrefix(env.distributions, k, sitePackages))
  {
    var seed := Seed(env.distributions, sitePackages);
    var lines := Checked(plugins, env.requirementFiles);
    SeedShape(env.distributions, sitePackages);
    AddLinesShape(seed, lines, env.resolve);
    forall k | k in Libs(env, plugins, sitePackages).entries
      ensures Libs(env, plugins, sitePackages).entries[k]
              == LibView(Some(k), ReqsFor(k, lines, env.resolve),
                         LastDist(env.distributions, k), AllInPrefix(env.distributions, k, sitePackages))
    {
      AddLinesEntry(seed, lines, env.resolve, k);
      if k in seed.entries {
        SeedEntry(env.distributions, sitePackages, k);
        assert [] + ReqsFor(k, lines, env.resolve) == ReqsFor(k, lines, env.resolve);
      } else {
        DistFactsOtherName(env.distributions, sitePackages, k);
        assert [] + ReqsFor(k, lines, env.resolve) == ReqsFor(k, lines, env.resolve);
      }
    }
  }

  /** A key's `required_by` holds the `Req` of every line with that key and nothing else. */
  lemma {:induction false} ReqsForMembers(key: string, lines: seq<Line>, resolve: string -> Option<ResolutionError>, q: Req)
    ensures q in ReqsFor(key, lines, resolve) <==>
              exists i :: 0 <= i < |lines| && lines[i].req.key == key && ReqOf(lines[i], resolve) == q
  {
    if lines != [] {
      var init := lines[..|lines| - 1];
      ReqsForMembers(key, init, resolve, q);
      assert forall i :: 0 <= i < |init| ==> init[i] == lines[i];
    }
  }

  /** The requirement lines of one plugin come after those of the plugins checked before it. */
  lemma {:induction false} CheckedAppend(ps: seq<string>, qs: seq<string>, files: map<string, seq<Requirement>>)
    ensures Checked(ps + qs, files) == Checked(ps, files) + Checked(qs, files)
    decreases |qs|
  {
    if qs == [] {
      assert ps + qs == ps;
    } else {
      var qs', q := qs[..|qs| - 1], qs[|qs| - 1];
      CheckedAppend(ps, qs', files);
      var all := ps + qs;
      assert all[..|all| - 1] == ps + qs' && all[|all| - 1] == q;
      var a, b, c := Checked(ps, files), Checked(qs', files), PluginLines(q, files);
      assert Checked(all, files) == (a + b) + c;
      assert Checked(qs, files) == b + c;
      assert (a + b) + c == a + (b + c);
    }
  }

  // ---------------------------------------------------------------------------
  // Building the dictionary from `Lib` objects

  /** Different keys hold different `Lib` objects. */
  ghost predicate Distinct(libs: map<string, Lib>)
  {
    forall k1, k2 :: k1 in libs && k2 in libs && k1 != k2 ==> libs[k1] != libs[k2]
  }

  /** The objects of `libs`, with `order` as insertion order, hold the value `t`. */
  ghost predicate Holds(libs: map<string, Lib>, order: seq<string>, t: Table)
    reads libs.Values
  {
    && order == t.order
    && libs.Keys == t.entries.Keys
    && forall k :: k in libs ==> libs[k].View() == t.entries[k]
  }

  /** `libs[key]` on a `defaultdict(Lib)`: the `Lib` under `key`, constructed and inserted on first use. */
  method LibFor(libs: map<string, Lib>, order: seq<string>, key: string, ghost t: Table)
    returns (libs': map<string, Lib>, order': seq<string>, lib: Lib)
    requires Distinct(libs) && Holds(libs, order, t)
    ensures Distinct(libs') && Holds(libs', order', Touch(t, key))
    ensures key in libs' && lib == libs'[key]
    ensures key in libs ==> libs' == libs && order' == order
    ensures key !in libs ==> libs' == libs[key := lib] && fresh(lib)
    ensures forall k :: k in libs' ==> (k in libs && libs'[k] == libs[k]) || fresh(libs'[k])
  {
    if key in libs {
      libs', order', lib := libs, order, libs[key];
    } else {
      lib := new Lib();
      libs', order' := libs[key := lib], order + [key];
    }
  }

  /** The `Line` sequence grows by one line per inner iteration. */
  lemma LinesOfSnoc(p: string, reqs: seq<Requirement>, j: nat)
    requires j < |reqs|
    ensures LinesOf(p, reqs[..j + 1]) == LinesOf(p, reqs[..j]) + [Line(p, reqs[j])]
  {
  }

  /** The flag after one more line. */
  lemma NeedsGuiSnoc(lines: seq<Line>, l: Line, resolve: string -> Option<ResolutionError>)
    ensures NeedsGui(lines + [l], resolve) <==> NeedsGui(lines, resolve) || resolve(l.req.text).Some?
  {
    var ls := lines + [l];
    if NeedsGui(lines, resolve) {
      var i :| 0 <= i < |lines| && resolve(lines[i].req.text).Some?;
      assert ls[i] == lines[i];
    }
    if NeedsGui(ls, resolve) && !resolve(l.req.text).Some? {
      var i :| 0 <= i < |ls| && resolve(ls[i].req.text).Some?;
      assert i < |lines| && ls[i] == lines[i];
    }
    assert ls[|lines|] == l;
  }

  /** One installed distribution recorded in the `Lib` objects, as the loop over `metadata.distributions()` does. */
  method RecordDist(libs: map<string, Lib>, order: seq<string>, d: Dist, sitePackages: string, ghost t: Table)
    returns (libs': map<string, Lib>, order': seq<string>)
    requires Distinct(libs) && Holds(libs, order, t)
    modifies libs.Values
    ensures Distinct(libs') && Holds(libs', order', AddDist(t, d, sitePackages))
    ensures forall k :: k in libs' ==> (k in libs && libs'[k] == libs[k]) || fresh(libs'[k])
  {
    var lib;
    libs', order', lib := LibFor(libs, order, d.name, t);
    ghost var v := Touch(t, d.name).entries[d.name];
    ghost var t2 := AddDist(t, d, sitePackages);
    label Found:
    lib.name := Some(d.name);
    lib.installedDist := Some(d);
    if d.location != sitePackages {
      lib.qpip := false;
    }
    assert lib.View() == t2.entries[d.name] by {
      assert lib.View() == v.(name := Some(d.name), installedDist := Some(d),
                              qpip := v.qpip && d.location == sitePackages);
    }
    forall k | k in libs'
      ensures libs'[k].View() == t2.entries[k]
    {
      if k != d.name {
        assert libs'[k] != lib;
        assert libs'[k].View() == old@Found(libs'[k].View());
      }
    }
  }

  /** One requirement line recorded in the `Lib` objects: its `Req` appended under its key. */
  method RecordLine(libs: map<string, Lib>, order: seq<string>, key: string, req: Req, ghost t: Table)
    returns (libs': map<string, Lib>, order': seq<string>)
    requires Distinct(libs) && Holds(libs, order, t)
    modifies libs.Values
    ensures Distinct(libs')
    ensures Holds(libs', order', var t1 := Touch(t, key); var lib := t1.entries[key];
                                 Table(t1.order, t1.entries[key := lib.(name := Some(key), requiredBy := lib.requiredBy + [req])]))
    ensures forall k :: k in libs' ==> (k in libs && libs'[k] == libs[k]) || fresh(libs'[k])
  {
    var lib;
    libs', order', lib := LibFor(libs, order, key, t);
    ghost var t1 := Touch(t, key);
    ghost var v := t1.entries[key];
    ghost var t2 := Table(t1.order, t1.entries[key := v.(name := Some(key), requiredBy := v.requiredBy + [req])]);
    label Found:
    lib.name := Some(key);
    lib.requiredBy := lib.requiredBy + [req];
    assert lib.View() == t2.entries[key];
    forall k | k in libs'
      ensures libs'[k].View() == t2.entries[k]
    {
      if k != key {
        assert libs'[k] != lib;
        assert libs'[k].View() == old@Found(libs'[k].View());
      }
    }
  }

  /** The loop of `check_deps_and_prompt_install` over the installed distributions. */
  method SeedLibs(dists: seq<Dist>, sitePackages: string)
    returns (libs: map<string, Lib>, order: seq<string>)
    ensures Distinct(libs)
    ensures forall k :: k in libs ==> fresh(libs[k])
    ensures Holds(libs, order, Seed(dists, sitePackages))
  {
    libs, order := map[], [];
    for i := 0 to |dists|
      invariant Distinct(libs)
      invariant forall k :: k in libs ==> fresh(libs[k])
      invariant Holds(libs, order, Seed(dists[..i], sitePackages))
    {
      ghost var before := Seed(dists[..i], sitePackages);
      libs, order := RecordDist(libs, order, dists[i], sitePackages, before);
      assert dists[..i + 1][..i] == dists[..i];
    }
    assert dists[..|dists|] == dists;
  }

  /** The loop over the requirement lines of one plugin with a requirements file. */
  method RecordPlugin(libs: map<string, Lib>, order: seq<string>, p: string, reqs: seq<Requirement>,
                      resolve: string -> Option<ResolutionError>, ghost t: Table)
    returns (libs': map<string, Lib>, order': seq<string>, failed: bool)
    requires Distinct(libs) && Holds(libs, order, t)
    modifies libs.Values
    ensures Distinct(libs')
    ensures Holds(libs', order', AddLines(t, LinesOf(p, reqs), resolve))
    ensures failed == NeedsGui(LinesOf(p, reqs), resolve)
    ensures forall k :: k in libs' ==> (k in libs && libs'[k] == libs[k]) || fresh(libs'[k])
  {
    libs', order', failed := libs, order, false;
    for j := 0 to |reqs|
      invariant Distinct(libs')
      invariant Holds(libs', order', AddLines(t, LinesOf(p, reqs[..j]), resolve))
      invariant failed == NeedsGui(LinesOf(p, reqs[..j]), resolve)
      invariant forall k :: k in libs' ==> (k in libs && libs'[k] == libs[k]) || fresh(libs'[k])
    {
      var requirement := reqs[j];
      var error := resolve(requirement.text);
      if error.Some? {
        failed := true;
      }
      var req := Req(p, requirement.text, error);
      ghost var lines := LinesOf(p, reqs[..j]);
      ghost var line := Line(p, requirement);
      libs', order' := RecordLine(libs', order', requirement.key, req, AddLines(t, lines, resolve));
      LinesOfSnoc(p, reqs, j);
      assert (lines + [line])[..|lines|] == lines;
      NeedsGuiSnoc(lines, line, resolve);
    }
    assert reqs[..|reqs|] == reqs;
  }

  /** `needs_gui` over two consecutive blocks of lines. */
  lemma NeedsGuiAppend(a: seq<Line>, b: seq<Line>, resolve: string -> Option<ResolutionError>)
    ensures NeedsGui(a + b, resolve) <==> NeedsGui(a, resolve) || NeedsGui(b, resolve)
  {
    var ab := a + b;
    if NeedsGui(b, resolve) {
      var i :| 0 <= i < |b| && resolve(b[i].req.text).Some?;
      assert ab[|a| + i] == b[i];
    }
    if NeedsGui(a, resolve) {
      var i :| 0 <= i < |a| && resolve(a[i].req.text).Some?;
      assert ab[i] == a[i];
    }
    if NeedsGui(ab, resolve) {
      var i :| 0 <= i < |ab| && resolve(ab[i].req.text).Some?;
      if i < |a| { assert ab[i] == a[i]; } else { assert ab[i] == b[i - |a|]; }
    }
  }

  /** Folding two consecutive blocks of lines is folding one after the other. */
  lemma {:induction false} AddLinesAppend(t: Table, a: seq<Line>, b: seq<Line>,
                                          resolve: string -> Option<ResolutionError>)
    ensures AddLines(t, a + b, resolve) == AddLines(AddLines(t, a, resolve), b, resolve)
    decreases |b|
  {
    if b == [] {
      assert a + b == a;
    } else {
      var b' := b[..|b| - 1];
      AddLinesAppend(t, a, b', resolve);
      assert (a + b)[..|a + b| - 1] == a + b';
    }
  }

  /**
   * The reconciliation pass over the installed distributions and the
   * checked plugins: fills a `defaultdict(Lib)` and the
   * `needs_gui` flag.
   */
  method CollectLibs(env: Environment, plugins: seq<string>, sitePackages: string)
    returns (libs: map<string, Lib>, order: seq<string>, needsGui: bool)
    ensures Distinct(libs)
    ensures forall k :: k in libs ==> fresh(libs[k])
    ensures Holds(libs, order, Libs(env, plugins, sitePackages))
    ensures needsGui == NeedsGui(Checked(plugins, env.requirementFiles), env.resolve)
  {
    libs, order := SeedLibs(env.distributions, sitePackages);
    var files := env.requirementFiles;
    ghost var seed := Seed(env.distributions, sitePackages);
    needsGui := false;
    for i := 0 to |plugins|
      invariant Distinct(libs)
      invariant forall k :: k in libs ==> fresh(libs[k])
      invariant Holds(libs, order, AddLines(seed, Checked(plugins[..i], files), env.resolve))
      invariant needsGui == NeedsGui(Checked(plugins[..i], files), env.resolve)
    {
      var p := plugins[i];
      ghost var done := Checked(plugins[..i], files);
      assert plugins[..i + 1][..i] == plugins[..i];
      if p in files {
        var failed;
        libs, order, failed := RecordPlugin(libs, order, p, files[p], env.resolve,
                                            AddLines(seed, done, env.resolve));
        needsGui := needsGui || failed;
        AddLinesAppend(seed, done, LinesOf(p, files[p]), env.resolve);
        NeedsGuiAppend(done, LinesOf(p, files[p]), env.resolve);
      } else {
        assert Checked(plugins[..i + 1], files) == done + [] == done;
      }
    }
    assert plugins[..|plugins|] == plugins;
  }
}
