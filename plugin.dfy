/**
 * The build plugin (src/plugin.ts): collect the route names of the page manifest, render
 * them as the union type `ENHANCE_ROUTE_PATH`, and write that file once at the first build
 * that succeeds and again whenever `pages.json` changes. Reading the manifest, the
 * environment and writing the file are the oracle `Io`.
 */
module Plugin {
  import opened Wrappers
  import opened Types
  import opened Text
  import Utils

  // ----- route names -----

  /** `routes.add(name)` on a `Set` kept in insertion order, for a truthy name only. */
  function AddName(names: seq<string>, name: string): seq<string> {
    if name == "" || name in names then names else names + [name]
  }

  /** The names of the entries' paths, in order of first appearance. */
  function NamesOf(es: seq<(string, Page)>): seq<string>
  {
    if es == [] then []
    else AddName(NamesOf(es[..|es| - 1]), Utils.ExtractSecondPathSegment(es[|es| - 1].0))
  }

  /** What `extractRouteNamesFromPages` returns, as a value. */
  function RouteNames(cfg: PagesConfig): seq<string> {
    NamesOf(Utils.ManifestEntries(cfg))
  }

  lemma NamesOfSnoc(es: seq<(string, Page)>, e: (string, Page))
    ensures NamesOf(es + [e]) == AddName(NamesOf(es), Utils.ExtractSecondPathSegment(e.0))
  {
    assert (es + [e])[..|es|] == es;
  }

  /**
   * A name is listed iff it is non-empty and the default name of some path, and no name is
   * listed twice.
   */
  lemma {:induction false} NamesOfMembers(es: seq<(string, Page)>, n: string)
    ensures n in NamesOf(es) <==> n != "" && exists i :: 0 <= i < |es| && Utils.ExtractSecondPathSegment(es[i].0) == n
    ensures forall i, j :: 0 <= i < j < |NamesOf(es)| ==> NamesOf(es)[i] != NamesOf(es)[j]
  {
    if es != [] {
      var init := es[..|es| - 1];
      NamesOfMembers(init, n);
      if n != "" && (exists i :: 0 <= i < |es| && Utils.ExtractSecondPathSegment(es[i].0) == n) {
        var i :| 0 <= i < |es| && Utils.ExtractSecondPathSegment(es[i].0) == n;
        if i < |es| - 1 {
          assert init[i] == es[i];
        }
      }
      if n != "" && (exists i :: 0 <= i < |init| && Utils.ExtractSecondPathSegment(init[i].0) == n) {
        var i :| 0 <= i < |init| && Utils.ExtractSecondPathSegment(init[i].0) == n;
        assert es[i] == init[i];
      }
    }
  }

  /**
   * The type lists exactly the routes the router registers from the same manifest under
   * the default naming.
   */
  lemma RouteNamesAreRegistryKeys(cfg: PagesConfig, n: string)
    ensures n in RouteNames(cfg) <==> n in Utils.RoutesFromManifest(cfg, Utils.DefaultNaming)
  {
    var es := Utils.ManifestEntries(cfg);
    NamesOfMembers(es, n);
    Utils.RegistryKeys(es, Utils.TabBarPaths(cfg), Utils.DefaultNaming, n);
    if n in RouteNames(cfg) {
      var i :| 0 <= i < |es| && Utils.ExtractSecondPathSegment(es[i].0) == n;
      assert Utils.NameOf(es[i], Utils.DefaultNaming) == Some(n);
    }
    if n in Utils.RoutesFromManifest(cfg, Utils.DefaultNaming) {
      var i :| 0 <= i < |es| && Utils.NameOf(es[i], Utils.DefaultNaming) == Some(n);
      assert Utils.ExtractSecondPathSegment(es[i].0) == n;
    }
  }

  /** One `forEach` over a page list. */
  method AddPageNames(routes: seq<string>, ghost done: seq<(string, Page)>, root: Option<string>, pages: seq<Page>)
    returns (updated: seq<string>)
    requires routes == NamesOf(done)
    ensures updated == NamesOf(done + Utils.PageEntries(root, pages))
  {
    updated := routes;
    assert done + Utils.PageEntries(root, pages[..0]) == done;
    for k := 0 to |pages|
      invariant updated == NamesOf(done + Utils.PageEntries(root, pages[..k]))
    {
      var page := pages[k];
      var fullPath := if root.Some? then root.value + "/" + page.path else page.path;
      var name := Utils.ExtractSecondPathSegment(fullPath);
      NamesStep(done, root, pages, k);
      if name != "" && name !in updated {
        updated := updated + [name];
      }
    }
    assert pages[..|pages|] == pages;
  }

  lemma NamesStep(done: seq<(string, Page)>, root: Option<string>, pages: seq<Page>, k: nat)
    requires k < |pages|
    ensures NamesOf(done + Utils.PageEntries(root, pages[..k + 1]))
            == AddName(NamesOf(done + Utils.PageEntries(root, pages[..k])), Utils.ExtractSecondPathSegment(Utils.FullPath(root, pages[k])))
  {
    Utils.PageEntriesSnoc(root, pages, k);
    var e := (Utils.FullPath(root, pages[k]), pages[k]);
    assert done + Utils.PageEntries(root, pages[..k + 1]) == (done + Utils.PageEntries(root, pages[..k])) + [e];
    NamesOfSnoc(done + Utils.PageEntries(root, pages[..k]), e);
  }

  /** `extractRouteNamesFromPages`: main pages, then each sub-package's pages as `root/path`. */
  method ExtractRouteNamesFromPages(pagesJson: PagesConfig) returns (routes: seq<string>)
    ensures routes == RouteNames(pagesJson)
  {
    routes := [];
    if pagesJson.pages.Some? {
      routes := AddPageNames(routes, [], None, pagesJson.pages.value);
      assert [] + Utils.PageEntries(None, pagesJson.pages.value) == Utils.PageEntries(None, pagesJson.pages.value);
    } else {
      assert Utils.PageEntries(None, []) == [];
    }
    ghost var mainDone := Utils.PageEntries(None, pagesJson.pages.GetOr([]));
    if pagesJson.subPackages.Some? {
      var subpackages := pagesJson.subPackages.value;
      assert mainDone + Utils.SubEntries(subpackages[..0]) == mainDone;
      for j := 0 to |subpackages|
        invariant routes == NamesOf(mainDone + Utils.SubEntries(subpackages[..j]))
      {
        var subpackage := subpackages[j];
        routes := AddPageNames(routes, mainDone + Utils.SubEntries(subpackages[..j]), Some(subpackage.root),
                               subpackage.pages);
        Utils.SubEntriesSnoc(mainDone, subpackages, j);
      }
      assert subpackages[..|subpackages|] == subpackages;
    } else {
      assert mainDone + Utils.SubEntries([]) == mainDone;
    }
  }

  // ----- the type definition -----

  /** `leq(a, b)` stands for `a.localeCompare(b) <= 0`. */
  ghost predicate Total(leq: (string, string) -> bool) {
    forall a, b :: leq(a, b) || leq(b, a)
  }

  ghost predicate Transitive(leq: (string, string) -> bool) {
    forall a, b, c :: leq(a, b) && leq(b, c) ==> leq(a, c)
  }

  predicate Sorted(s: seq<string>, leq: (string, string) -> bool) {
    forall i, j :: 0 <= i < j < |s| ==> leq(s[i], s[j])
  }

  /** Insert `x` before the first element it does not follow. */
  function Insert(x: string, s: seq<string>, leq: (string, string) -> bool): (r: seq<string>)
    ensures multiset(r) == multiset(s) + multiset{x}
  {
    if s == [] then [x]
    else if leq(x, s[0]) then [x] + s
    else
      assert s == [s[0]] + s[1..];
      [s[0]] + Insert(x, s[1..], leq)
  }

  /** `[...routeNames].sort(compare)`, as a stable insertion sort on a copy. */
  function SortNames(names: seq<string>, leq: (string, string) -> bool): (sorted: seq<string>)
    ensures multiset(sorted) == multiset(names)
  {
    if names == [] then []
    else
      assert names == [names[0]] + names[1..];
      Insert(names[0], SortNames(names[1..], leq), leq)
  }

  lemma {:induction false} InsertSorted(x: string, s: seq<string>, leq: (string, string) -> bool)
    requires Total(leq) && Transitive(leq)
    requires Sorted(s, leq)
    ensures Sorted(Insert(x, s, leq), leq)
  {
    if s != [] && !leq(x, s[0]) {
      var rest := Insert(x, s[1..], leq);
      InsertSorted(x, s[1..], leq);
      assert leq(s[0], x);
      forall k | 0 <= k < |rest| ensures leq(s[0], rest[k]) {
        assert rest[k] in multiset(rest);
        if rest[k] != x {
          assert rest[k] in multiset(s[1..]);
          var m :| 0 <= m < |s[1..]| && s[1..][m] == rest[k];
          assert s[m + 1] == rest[k];
        }
      }
      var r := [s[0]] + rest;
      forall i, j | 0 <= i < j < |r| ensures leq(r[i], r[j]) {
        if i > 0 {
          assert r[i] == rest[i - 1] && r[j] == rest[j - 1];
        }
      }
    }
  }

  /** The sorted copy is a permutation of the names, in the order `leq` gives. */
  lemma {:induction false} SortNamesSorted(names: seq<string>, leq: (string, string) -> bool)
    requires Total(leq) && Transitive(leq)
    ensures Sorted(SortNames(names, leq), leq)
    ensures multiset(SortNames(names, leq)) == multiset(names)
  {
    if names != [] {
      SortNamesSorted(names[1..], leq);
      InsertSorted(names[0], SortNames(names[1..], leq), leq);
    }
  }

  const Header := "export type ENHANCE_ROUTE_PATH ="

  /** The line of one route name in the union type. */
  function Line(name: string): string {
    "  | '" + name + "'"
  }

  function Lines(names: seq<string>): (lines: seq<string>)
    ensures |lines| == |names|
    ensures forall i :: 0 <= i < |names| ==> lines[i] == Line(names[i])
  {
    seq(|names|, i requires 0 <= i < |names| => Line(names[i]))
  }

  /** `generateTypeDefinition`: the header, then one line per name in sorted order. */
  function GenerateTypeDefinition(routeNames: seq<string>, leq: (string, string) -> bool): string {
    Header + "\n" + Join(Lines(SortNames(routeNames, leq)), "\n")
  }

  /** With no route name, the text is the header and an empty line. */
  lemma TypeDefinitionEmpty(leq: (string, string) -> bool)
    ensures Split(GenerateTypeDefinition([], leq), '\n') == [Header, ""]
  {
    HeaderThenBody([]);
  }

  /**
   * Read line by line, the text is the header followed by one line per route name, in
   * sorted order: n + 1 lines for n names.
   */
  lemma TypeDefinitionLines(routeNames: seq<string>, leq: (string, string) -> bool)
    requires routeNames != []
    requires forall i :: 0 <= i < |routeNames| ==> '\n' !in routeNames[i]
    ensures Split(GenerateTypeDefinition(routeNames, leq), '\n') == [Header] + Lines(SortNames(routeNames, leq))
  {
    var sorted := SortNames(routeNames, leq);
    var body := Lines(sorted);
    HeaderThenBody(body);
    SortedEmpty(routeNames, leq);
    LinesAvoidNewline(routeNames, sorted);
    BodyLines(body);
  }

  lemma BodyLines(body: seq<string>)
    requires body != []
    requires forall i :: 0 <= i < |body| ==> '\n' !in body[i]
    ensures Split(Join(body, "\n"), '\n') == body
  {
    assert "\n" == ['\n'];
    SplitJoin(body, '\n');
  }

  lemma SortedEmpty(names: seq<string>, leq: (string, string) -> bool)
    ensures SortNames(names, leq) == [] <==> names == []
  {
    var sorted := SortNames(names, leq);
    if names != [] {
      assert names[0] in multiset(names);
      assert |multiset(sorted)| > 0;
    }
  }

  lemma HeaderThenBody(body: seq<string>)
    ensures Split(Header + "\n" + Join(body, "\n"), '\n') == [Header] + Split(Join(body, "\n"), '\n')
    ensures body == [] ==> Split(Join(body, "\n"), '\n') == [""]
  {
    assert '\n' !in Header;
    assert "\n" == ['\n'];
    SplitAfterHead(Header, '\n', Join(body, "\n"));
  }

  lemma LinesAvoidNewline(names: seq<string>, sorted: seq<string>)
    requires forall i :: 0 <= i < |names| ==> '\n' !in names[i]
    requires multiset(sorted) == multiset(names)
    ensures forall i :: 0 <= i < |sorted| ==> '\n' !in Lines(sorted)[i]
  {
    forall i | 0 <= i < |sorted| ensures '\n' !in Lines(sorted)[i] {
      assert sorted[i] in multiset(names);
      var m :| 0 <= m < |names| && names[m] == sorted[i];
      assert Lines(sorted)[i] == "  | '" + sorted[i] + "'";
    }
  }

  // ----- the plugin -----

  /**
   * What the plugin's I/O does on one attempt: whether `UNI_INPUT_DIR`/`INIT_CWD` give a
   * directory, the manifest read and parsed from `pages.json` (`None` when that throws), and
   * whether writing the type file succeeds.
   */
  datatype Io = Io(inputDirOk: bool, manifest: Option<PagesConfig>, writeOk: bool)

  /** The text an attempt writes, or `None` when one of its steps throws. */
  function Generated(io: Io, leq: (string, string) -> bool): Option<string> {
    if io.inputDirOk && io.manifest.Some? && io.writeOk
    then Some(GenerateTypeDefinition(RouteNames(io.manifest.value), leq))
    else None
  }

  /** `getValidatedPaths` then `generateRouteTypeFile`: the text written, or `None`. */
  method GenerateRouteTypeFile(io: Io, leq: (string, string) -> bool) returns (written: Option<string>)
    ensures written == Generated(io, leq)
  {
    if !io.inputDirOk || io.manifest.None? {
      return None;
    }
    var routeNames := ExtractRouteNamesFromPages(io.manifest.value);
    var typeDefinition := GenerateTypeDefinition(routeNames, leq);
    if !io.writeOk {
      return None;
    }
    return Some(typeDefinition);
  }

  /** The plugin's flag and the type file's text as the plugin last wrote it. */
  datatype PluginState = PluginState(isFirstBuild: bool, output: Option<string>)

  /** `buildStart`: generate while the flag is set; clear it only after a success. */
  function BuildStep(s: PluginState, io: Io, leq: (string, string) -> bool): PluginState {
    if !s.isFirstBuild then s
    else
      var written := Generated(io, leq);
      if written.Some? then PluginState(false, written) else s
  }

  /** Several builds in a row. */
  function Builds(s: PluginState, ios: seq<Io>, leq: (string, string) -> bool): PluginState
    decreases |ios|
  {
    if ios == [] then s else Builds(BuildStep(s, ios[0], leq), ios[1..], leq)
  }

  /**
   * A failing build leaves the flag set, so the next build tries again; the first build
   * that succeeds writes the file and clears the flag, and later builds do nothing.
   */
  lemma {:induction false} BuildsRetryUntilSuccess(out: Option<string>, ios: seq<Io>, leq: (string, string) -> bool, k: nat)
    requires k < |ios| && Generated(ios[k], leq).Some?
    requires forall j :: 0 <= j < k ==> Generated(ios[j], leq).None?
    ensures Builds(PluginState(true, out), ios, leq) == PluginState(false, Generated(ios[k], leq))
  {
    if k == 0 {
      BuildsAfterSuccess(Generated(ios[0], leq), ios[1..], leq);
    } else {
      BuildsRetryUntilSuccess(out, ios[1..], leq, k - 1);
    }
  }

  /** While every attempt fails, nothing is written and the flag stays set. */
  lemma {:induction false} BuildsAllFail(out: Option<string>, ios: seq<Io>, leq: (string, string) -> bool)
    requires forall j :: 0 <= j < |ios| ==> Generated(ios[j], leq).None?
    ensures Builds(PluginState(true, out), ios, leq) == PluginState(true, out)
  {
    if ios != [] {
      BuildsAllFail(out, ios[1..], leq);
    }
  }

  /** Once the flag is clear, builds change nothing. */
  lemma {:induction false} BuildsAfterSuccess(out: Option<string>, ios: seq<Io>, leq: (string, string) -> bool)
    ensures Builds(PluginState(false, out), ios, leq) == PluginState(false, out)
  {
    if ios != [] {
      BuildsAfterSuccess(out, ios[1..], leq);
    }
  }

  /** What `handleHotUpdate` logs. */
  datatype HotLog = Ignored | Regenerated | RegenerationFailed

  /** `routeTypesPlugin(dts)`: the closure's flag and the file the plugin writes. */
  class RouteTypesPlugin {
    const dts: string
    var isFirstBuild: bool
    var output: Option<string>

    function State(): PluginState
      reads this
    {
      PluginState(isFirstBuild, output)
    }

    constructor (dts: string)
      ensures this.dts == dts
      ensures State() == PluginState(true, None)
    {
      this.dts := dts;
      isFirstBuild := true;
      output := None;
    }

    /** `buildStart`; `warned` is the `console.warn` of a failed attempt. */
    method BuildStart(io: Io, leq: (string, string) -> bool) returns (warned: bool)
      modifies this`isFirstBuild, this`output
      ensures State() == BuildStep(old(State()), io, leq)
      ensures warned <==> old(isFirstBuild) && Generated(io, leq).None?
    {
      warned := false;
      if isFirstBuild {
        var written := GenerateRouteTypeFile(io, leq);
        if written.Some? {
          output := written;
          isFirstBuild := false;
        } else {
          warned := true;
        }
      }
    }

    /** `handleHotUpdate`: regenerate when the changed file ends with `pages.json`; the flag is untouched. */
    method HandleHotUpdate(file: string, io: Io, leq: (string, string) -> bool) returns (log: HotLog)
      modifies this`output
      ensures !EndsWith(file, "pages.json") ==> output == old(output) && log == Ignored
      ensures EndsWith(file, "pages.json") && Generated(io, leq).Some? ==> output == Generated(io, leq) && log == Regenerated
      ensures EndsWith(file, "pages.json") && Generated(io, leq).None? ==> output == old(output) && log == RegenerationFailed
    {
      log := Ignored;
      if EndsWith(file, "pages.json") {
        var written := GenerateRouteTypeFile(io, leq);
        if written.Some? {
          output := written;
          log := Regenerated;
        } else {
          log := RegenerationFailed;
        }
      }
    }
  }
}
