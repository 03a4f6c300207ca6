/**
 * The values the router passes around: JavaScript values as far as the router inspects
 * them, query records, the page manifest, route metadata and the close modes.
 */
module Types {
  import opened Wrappers

  /**
   * A JavaScript value as the router sees it. `Num` carries the text `String(n)` gives,
   * `Obj` the text `JSON.stringify` gives, `Error` the message of an `Error` object.
   */
  datatype Value =
    | Undefined
    | Null
    | Bool(b: bool)
    | Num(text: string)
    | Str(s: string)
    | Obj(json: string)
    | Error(message: string)

  /** A `Record<string, any>` as its `Object.entries`, in enumeration order. */
  type Query = seq<(string, Value)>

  /** The keys of a record. */
  function Keys(q: Query): set<string> {
    set i | 0 <= i < |q| :: q[i].0
  }

  /** The value of a key in a record; the last entry for a key is the one that counts. */
  function Get(q: Query, k: string): (v: Option<Value>)
    ensures v.Some? <==> k in Keys(q)
  {
    if q == [] then None
    else if q[|q| - 1].0 == k then Some(q[|q| - 1].1)
    else
      var v := Get(q[..|q| - 1], k);
      assert Keys(q) == Keys(q[..|q| - 1]) + {q[|q| - 1].0};
      v
  }

  /** A record as an object literal has it: no key twice. */
  predicate DistinctKeys(q: Query) {
    forall i, j :: 0 <= i < j < |q| ==> q[i].0 != q[j].0
  }

  /** `CloseTypes`: push a page, replace the current page, or relaunch on a fresh stack. */
  datatype CloseType = Default | Current | All

  /** One page of `pages.json`; `rest` stands for its other fields, copied unchanged. */
  datatype Page = Page(path: string, pageType: Option<string>, rest: Value)

  datatype SubPackage = SubPackage(root: string, pages: seq<Page>)

  /** `pages.json` after parsing; `tabBarList` holds the `pagePath` of each `tabBar.list` item. */
  datatype PagesConfig = PagesConfig(
    pages: Option<seq<Page>>,
    subPackages: Option<seq<SubPackage>>,
    tabBarList: Option<seq<string>>)

  /** `RouteMeta`: the manifest page it was made from, its name, tab-bar flag and page path. */
  datatype RouteMeta = RouteMeta(page: Page, name: string, isTabBar: bool, url: string)

  /** A page on the uni-app page stack: its `route` and the `options` it was opened with. */
  datatype PageInstance = PageInstance(route: Option<string>, options: Option<Query>)
}
