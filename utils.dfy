/**
 * Route-name strategies, URL helpers and the route registry built from a parsed
 * `pages.json` (src/utils.ts).
 */
module Utils {
  import opened Wrappers
  import opened Text
  import opened Types
  import Uri

  // ----- route names -----

  /**
   * `extractSecondPathSegment`: drop the first and the last `/`-piece; a single remaining
   * piece is the name, several are joined with `_`.
   */
  function ExtractSecondPathSegment(url: string): (name: string)
    ensures |Split(url, '/')| <= 2 ==> name == ""
    ensures '/' !in name
  {
    var segments := Split(url, '/');
    var inner := if |segments| >= 2 then segments[1..|segments| - 1] else [];
    assert forall i :: 0 <= i < |inner| ==> '/' !in inner[i];
    if |inner| == 1 then inner[0]
    else
      JoinAvoids(inner, "_", '/');
      Join(inner, "_")
  }

  /** `RouteNameStrategy`: `'default'`, `'package_page'` or a function of the page path. */
  datatype Strategy = DefaultNaming | PackagePage | Custom(f: string -> string)

  /** `replace(/^\/+/, '')`. */
  function StripLeadingSlashes(s: string): (r: string)
    ensures |r| == 0 || r[0] != '/'
  {
    if |s| > 0 && s[0] == '/' then StripLeadingSlashes(s[1..]) else s
  }

  /** Whether `s` matches `/\.vue$/i`. */
  predicate HasVueExtension(s: string) {
    && |s| >= 4
    && s[|s| - 4] == '.'
    && (s[|s| - 3] == 'v' || s[|s| - 3] == 'V')
    && (s[|s| - 2] == 'u' || s[|s| - 2] == 'U')
    && (s[|s| - 1] == 'e' || s[|s| - 1] == 'E')
  }

  /** `replace(/\.vue$/i, '')`. */
  function StripVueExtension(s: string): string {
    if HasVueExtension(s) then s[..|s| - 4] else s
  }

  /** `filter(Boolean)` on strings: the non-empty ones, in order. */
  function NonEmptySegments(segs: seq<string>): (r: seq<string>)
    ensures forall i :: 0 <= i < |r| ==> r[i] != "" && r[i] in segs
    ensures (forall i :: 0 <= i < |segs| ==> segs[i] != "") ==> r == segs
  {
    if segs == [] then []
    else
      var rest := NonEmptySegments(segs[1..]);
      assert forall x :: x in segs[1..] ==> x in segs;
      assert [segs[0]] + segs[1..] == segs;
      if segs[0] == "" then rest else [segs[0]] + rest
  }

  /** The order-preserving part of `filter(Boolean)`: one more piece is kept iff it is non-empty. */
  lemma {:induction false} NonEmptySegmentsSnoc(segs: seq<string>, x: string)
    ensures NonEmptySegments(segs + [x]) == NonEmptySegments(segs) + (if x == "" then [] else [x])
  {
    if segs == [] {
      assert [x][1..] == [];
    } else {
      assert (segs + [x])[1..] == segs[1..] + [x];
      NonEmptySegmentsSnoc(segs[1..], x);
    }
  }

  /** The `package_page` name of the non-empty pieces: drop one final `index`, join the rest with `_`. */
  function PackageName(segments: seq<string>): (name: Option<string>)
    requires forall i :: 0 <= i < |segments| ==> segments[i] != "" && '/' !in segments[i]
    ensures name.Some? ==> name.value != "" && '/' !in name.value
  {
    var kept := if |segments| > 0 && segments[|segments| - 1] == "index"
                then segments[..|segments| - 1] else segments;
    if |kept| > 0 then
      JoinAvoids(kept, "_", '/');
      JoinNonEmpty(kept, "_");
      Some(Join(kept, "_"))
    else None
  }

  /** Pieces ending in `index` are named by the pieces before it. */
  lemma PackageNameDropsIndex(segs: seq<string>)
    requires |segs| >= 1
    requires forall i :: 0 <= i < |segs| ==> segs[i] != "" && '/' !in segs[i]
    ensures PackageName(segs + ["index"]) == Some(Join(segs, "_"))
  {
    assert (segs + ["index"])[..|segs|] == segs;
  }

  /** Pieces not ending in `index` are all kept. */
  lemma PackageNameKeepsAll(segs: seq<string>)
    requires |segs| >= 1 && segs[|segs| - 1] != "index"
    requires forall i :: 0 <= i < |segs| ==> segs[i] != "" && '/' !in segs[i]
    ensures PackageName(segs) == Some(Join(segs, "_"))
  {
  }

  /** There is no name exactly when nothing is left once one final `index` is dropped. */
  lemma PackageNameNone(segs: seq<string>)
    requires forall i :: 0 <= i < |segs| ==> segs[i] != "" && '/' !in segs[i]
    ensures PackageName(segs).None? <==> segs == [] || segs == ["index"]
  {
    if |segs| == 1 && segs[0] == "index" {
      assert segs == ["index"];
    }
  }

  /** The `package_page` name: the normalised path's non-empty pieces, named by `PackageName`. */
  function PackagePageName(routePath: string): (name: Option<string>)
    ensures name.Some? ==> name.value != "" && '/' !in name.value
  {
    var all := Split(StripVueExtension(StripLeadingSlashes(routePath)), '/');
    var segments := NonEmptySegments(all);
    assert forall i :: 0 <= i < |segments| ==> segments[i] != "" && '/' !in segments[i] by {
      forall i | 0 <= i < |segments| ensures segments[i] != "" && '/' !in segments[i] {
        assert segments[i] in all;
        var j :| 0 <= j < |all| && segments[i] == all[j];
      }
    }
    PackageName(segments)
  }

  /**
   * `resolveRouteName`: a function strategy's result as it is; `package_page` names the
   * normalised path; `default` is `extractSecondPathSegment` of the path as given.
   */
  function ResolveRouteName(routePath: string, strategy: Strategy): (name: Option<string>)
    ensures strategy.Custom? ==> name == Some(strategy.f(routePath))
    ensures strategy.DefaultNaming? ==> name == Some(ExtractSecondPathSegment(routePath))
    ensures strategy.PackagePage? && name.Some? ==> name.value != "" && '/' !in name.value
  {
    match strategy
    case Custom(f) => Some(f(routePath))
    case PackagePage => PackagePageName(routePath)
    case DefaultNaming => Some(ExtractSecondPathSegment(routePath))
  }

  lemma PiecesAvoidSlash(first: string, inner: seq<string>, last: string)
    requires '/' !in first && '/' !in last
    requires forall i :: 0 <= i < |inner| ==> '/' !in inner[i]
    ensures var parts := [first] + inner + [last];
            forall i :: 0 <= i < |parts| ==> '/' !in parts[i]
  {
    var parts := [first] + inner + [last];
    forall i | 0 <= i < |parts| ensures '/' !in parts[i] {
      if i == 0 {
        assert parts[i] == first;
      } else if i <= |inner| {
        assert parts[i] == inner[i - 1];
      } else {
        assert parts[i] == last;
      }
    }
  }

  /** The default name of a path made of `first`, the inner pieces and `last`. */
  lemma ExtractOfPieces(first: string, inner: seq<string>, last: string)
    requires '/' !in first && '/' !in last
    requires forall i :: 0 <= i < |inner| ==> '/' !in inner[i]
    ensures ExtractSecondPathSegment(Join([first] + inner + [last], "/")) == Join(inner, "_")
  {
    var parts := [first] + inner + [last];
    PiecesAvoidSlash(first, inner, last);
    SplitJoin(parts, '/');
    assert parts[1..|parts| - 1] == inner;
  }

  /** `a/b/index` is named `b`. */
  lemma ExtractOneInnerPiece()
    ensures ExtractSecondPathSegment("a/b/index") == "b"
  {
    ExtractOfPieces("a", ["b"], "index");
    assert ["a"] + ["b"] + ["index"] == ["a", "b", "index"];
    assert Join(["a", "b", "index"], "/") == "a/b/index";
  }

  /** `a/b/c/index` is named `b_c`. */
  lemma ExtractTwoInnerPieces()
    ensures ExtractSecondPathSegment("a/b/c/index") == "b_c"
  {
    ExtractOfPieces("a", ["b", "c"], "index");
    assert ["a"] + ["b", "c"] + ["index"] == ["a", "b", "c", "index"];
    assert Join(["a", "b", "c", "index"], "/") == "a/b/c/index";
    assert ["b", "c"][1..] == ["c"];
    assert Join(["b", "c"], "_") == "b_c";
  }

  /** `pages/index` has no inner piece and gets the empty name. */
  lemma ExtractNoInnerPiece()
    ensures ExtractSecondPathSegment("pages/index") == ""
  {
    ExtractOfPieces("pages", [], "index");
    assert ["pages"] + [] + ["index"] == ["pages", "index"];
    assert Join(["pages", "index"], "/") == "pages/index";
  }

  /** Under `default` a leading slash is not stripped: it shifts every piece by one. */
  lemma DefaultKeepsLeadingSlash()
    ensures ResolveRouteName("/pages/home/index", DefaultNaming) == Some("pages_home")
  {
    ExtractOfPieces("", ["pages", "home"], "index");
    assert [""] + ["pages", "home"] + ["index"] == ["", "pages", "home", "index"];
    assert Join(["", "pages", "home", "index"], "/") == "/pages/home/index";
    assert ["pages", "home"][1..] == ["home"];
    assert Join(["pages", "home"], "_") == "pages_home";
  }

  function Slashes(n: nat): (s: string)
    ensures |s| == n && forall i :: 0 <= i < n ==> s[i] == '/'
  {
    if n == 0 then "" else "/" + Slashes(n - 1)
  }

  lemma {:induction false} StripSlashesPrefix(n: nat, s: string)
    requires |s| == 0 || s[0] != '/'
    ensures StripLeadingSlashes(Slashes(n) + s) == s
  {
    if n > 0 {
      assert (Slashes(n) + s)[1..] == Slashes(n - 1) + s;
      StripSlashesPrefix(n - 1, s);
    }
  }

  /** `ext` is what `/\.vue$/i` removes from `body + ext`: a `.vue` in any case, or nothing. */
  predicate Extension(body: string, ext: string) {
    || (ext == "" && !HasVueExtension(body))
    || (|ext| == 4 && HasVueExtension(ext))
  }

  lemma StripExtension(body: string, ext: string)
    requires Extension(body, ext)
    ensures StripVueExtension(body + ext) == body
  {
    if ext == "" {
      assert body + ext == body;
    } else {
      assert HasVueExtension(body + ext);
      assert (body + ext)[..|body|] == body;
    }
  }

  /**
   * `package_page` on any number of leading slashes, then pieces joined with `/` (the first
   * non-empty, later ones possibly empty), then `.vue` in any case or no extension: the name
   * of the non-empty pieces, in order.
   */
  lemma PackagePageOfPieces(lead: nat, pieces: seq<string>, ext: string)
    requires |pieces| >= 1 && pieces[0] != ""
    requires forall i :: 0 <= i < |pieces| ==> '/' !in pieces[i]
    requires Extension(Join(pieces, "/"), ext)
    ensures var segs := NonEmptySegments(pieces);
            && (forall i :: 0 <= i < |segs| ==> segs[i] != "" && '/' !in segs[i])
            && ResolveRouteName(Slashes(lead) + Join(pieces, "/") + ext, PackagePage) == PackageName(segs)
  {
    var body := Join(pieces, "/");
    assert body[..|pieces[0]|] == pieces[0] by {
      if |pieces| > 1 { assert body == pieces[0] + "/" + Join(pieces[1..], "/"); }
    }
    assert body[0] == pieces[0][0];
    assert (body + ext)[0] == body[0];
    StripSlashesPrefix(lead, body + ext);
    assert Slashes(lead) + body + ext == Slashes(lead) + (body + ext);
    StripExtension(body, ext);
    SplitJoin(pieces, '/');
    var segs := NonEmptySegments(pieces);
    forall i | 0 <= i < |segs| ensures segs[i] != "" && '/' !in segs[i] {
      assert segs[i] in pieces;
    }
  }

  /**
   * `package_page` on `/…/seg1/…/segk/index.vue` (any number of leading slashes, `.vue` in any
   * case or no extension) names the page `seg1_…_segk`.
   */
  lemma PackagePageOfSegments(lead: nat, segs: seq<string>, ext: string)
    requires |segs| >= 1
    requires forall i :: 0 <= i < |segs| ==> segs[i] != "" && '/' !in segs[i]
    requires Extension(Join(segs + ["index"], "/"), ext)
    ensures ResolveRouteName(Slashes(lead) + Join(segs + ["index"], "/") + ext, PackagePage)
         == Some(Join(segs, "_"))
  {
    var parts := segs + ["index"];
    PackagePageOfPieces(lead, parts, ext);
    assert NonEmptySegments(parts) == parts;
    PackageNameDropsIndex(segs);
  }

  /** Empty pieces are dropped: `a//b` is named like `a/b`. */
  lemma PackagePageDropsEmptyPieces(lead: nat, pieces: seq<string>, ext: string)
    requires |pieces| >= 1 && pieces[0] != ""
    requires forall i :: 0 <= i < |pieces| ==> '/' !in pieces[i]
    requires Extension(Join(pieces, "/"), ext)
    requires Extension(Join(NonEmptySegments(pieces), "/"), ext)
    ensures ResolveRouteName(Slashes(lead) + Join(pieces, "/") + ext, PackagePage)
         == ResolveRouteName(Slashes(lead) + Join(NonEmptySegments(pieces), "/") + ext, PackagePage)
  {
    var segs := NonEmptySegments(pieces);
    PackagePageOfPieces(lead, pieces, ext);
    assert segs[0] == pieces[0] by {
      assert NonEmptySegments(pieces) == [pieces[0]] + NonEmptySegments(pieces[1..]);
    }
    PackagePageOfPieces(lead, segs, ext);
    assert NonEmptySegments(segs) == segs;
  }

  /** Whatever the path, there is no name exactly when no piece but one final `index` remains. */
  lemma PackagePageNone(routePath: string)
    ensures var segs := NonEmptySegments(Split(StripVueExtension(StripLeadingSlashes(routePath)), '/'));
            ResolveRouteName(routePath, PackagePage).None? <==> segs == [] || segs == ["index"]
  {
    var all := Split(StripVueExtension(StripLeadingSlashes(routePath)), '/');
    var segs := NonEmptySegments(all);
    forall i | 0 <= i < |segs| ensures segs[i] != "" && '/' !in segs[i] {
      assert segs[i] in all;
      var j :| 0 <= j < |all| && segs[i] == all[j];
    }
    PackageNameNone(segs);
  }

  /** Two pieces joined with a one-character separator. */
  lemma JoinTwo(a: string, b: string, sep: string)
    ensures Join([a, b], sep) == a + sep + b
  {
    assert [a, b][1..] == [b];
  }

  /** `a//b` is named `a_b`. */
  lemma PackagePageEmptyPieceExample()
    ensures ResolveRouteName("a//b", PackagePage) == Some("a_b")
  {
    var pieces := ["a", "", "b"];
    assert pieces[1..] == ["", "b"];
    JoinTwo("", "b", "/");
    assert Join(pieces, "/") == "a//b";
    assert NonEmptySegments(pieces[1..]) == ["b"] by {
      assert pieces[1..][1..] == ["b"];
      assert NonEmptySegments(["b"]) == ["b"];
    }
    assert NonEmptySegments(pieces) == ["a", "b"];
    assert Slashes(0) + Join(pieces, "/") + "" == "a//b";
    assert !HasVueExtension("a//b");
    PackagePageOfPieces(0, pieces, "");
    assert ResolveRouteName("a//b", PackagePage) == PackageName(["a", "b"]);
    PackageNameKeepsAll(["a", "b"]);
    JoinTwo("a", "b", "_");
    assert "a" + "_" + "b" == "a_b";
  }

  /** `pages/home` has no final `index` and keeps both pieces. */
  lemma PackagePageNoIndexExample()
    ensures ResolveRouteName("pages/home", PackagePage) == Some("pages_home")
  {
    HomePieces();
    HomeName();
  }

  lemma HomeName()
    ensures PackageName(["pages", "home"]) == Some("pages_home")
  {
    PackageNameKeepsAll(["pages", "home"]);
    JoinTwo("pages", "home", "_");
    assert "pages" + "_" + "home" == "pages_home";
  }

  lemma HomePieces()
    ensures ResolveRouteName("pages/home", PackagePage) == PackageName(["pages", "home"])
  {
    HomePath();
    PackagePageOfPieces(0, ["pages", "home"], "");
  }

  lemma HomePath()
    ensures Slashes(0) + Join(["pages", "home"], "/") + "" == "pages/home"
    ensures Extension(Join(["pages", "home"], "/"), "")
    ensures NonEmptySegments(["pages", "home"]) == ["pages", "home"]
  {
    JoinTwo("pages", "home", "/");
    assert "pages" + "/" + "home" == "pages/home";
    assert !HasVueExtension("pages/home");
    assert ["pages", "home"][1..] == ["home"];
    assert NonEmptySegments(["home"]) == ["home"];
  }

  /** `index.vue` leaves nothing to name. */
  lemma PackagePageIndexOnlyExample()
    ensures ResolveRouteName("index.vue", PackagePage).None?
  {
    var pieces := ["index"];
    assert Join(pieces, "/") == "index";
    assert "index" + ".vue" == "index.vue";
    assert NonEmptySegments(pieces) == pieces;
    PackagePageOfPieces(0, pieces, ".vue");
  }

  /** `/` and the empty path leave nothing to name. */
  lemma PackagePageEmptyExamples()
    ensures ResolveRouteName("/", PackagePage).None?
    ensures ResolveRouteName("", PackagePage).None?
  {
    assert StripLeadingSlashes("/") == "";
    assert Split("", '/') == [""];
    assert NonEmptySegments([""]) == [];
  }

  /** `package_page` ignores leading slashes. */
  lemma PackagePageIgnoresLeadingSlash(routePath: string)
    ensures ResolveRouteName("/" + routePath, PackagePage) == ResolveRouteName(routePath, PackagePage)
  {
    assert ("/" + routePath)[1..] == routePath;
    assert StripLeadingSlashes("/" + routePath) == StripLeadingSlashes(routePath);
    assert PackagePageName("/" + routePath) == PackagePageName(routePath);
  }

  // ----- URLs -----

  /** `ensureLeadingSlash`. */
  function EnsureLeadingSlash(url: string): (r: string)
    ensures |r| > 0 && r[0] == '/'
    ensures StartsWith(url, "/") ==> r == url
    ensures !StartsWith(url, "/") ==> r == "/" + url
  {
    if |url| > 0 && url[0] == '/' then url else "/" + url
  }

  lemma EnsureLeadingSlashIdempotent(url: string)
    ensures EnsureLeadingSlash(EnsureLeadingSlash(url)) == EnsureLeadingSlash(url)
  {
  }

  /** `typeof v === "object" && v !== null ? JSON.stringify(v) : String(v)`. */
  function Serialize(v: Value): string {
    match v
    case Undefined => "undefined"
    case Null => "null"
    case Bool(b) => if b then "true" else "false"
    case Num(text) => text
    case Str(s) => s
    case Obj(json) => json
    case Error(_) => "{}"
  }

  /** `filter(([, value]) => value !== undefined)`. */
  function DefinedEntries(q: Query): (r: Query)
    ensures forall i :: 0 <= i < |r| ==> r[i].1 != Undefined
    ensures (forall i :: 0 <= i < |q| ==> q[i].1 == Undefined) <==> r == []
  {
    if q == [] then []
    else
      var rest := DefinedEntries(q[1..]);
      assert (forall i :: 0 <= i < |q[1..]| ==> q[1..][i].1 == Undefined)
         <==> (forall i :: 1 <= i < |q| ==> q[i].1 == Undefined);
      if q[0].1 == Undefined then rest else [q[0]] + rest
  }

  /**
   * `filter` keeps the entries in order and drops exactly the `undefined` ones (`null` and
   * every other value stay): one more entry is kept iff its value is defined.
   */
  lemma {:induction false} DefinedEntriesSnoc(q: Query, e: (string, Value))
    ensures DefinedEntries(q + [e]) == DefinedEntries(q) + (if e.1 == Undefined then [] else [e])
  {
    if q == [] {
      assert [e][1..] == [];
    } else {
      assert (q + [e])[1..] == q[1..] + [e];
      DefinedEntriesSnoc(q[1..], e);
    }
  }

  /** One `key=value` piece of the query string. */
  function QueryPair(entry: (string, Value)): string {
    Uri.EncodeURIComponent(entry.0) + "=" + Uri.EncodeURIComponent(Serialize(entry.1))
  }

  function QueryPairs(q: Query): (r: seq<string>)
    ensures |r| == |q|
    ensures forall i :: 0 <= i < |r| ==> r[i] == QueryPair(q[i])
  {
    if q == [] then [] else [QueryPair(q[0])] + QueryPairs(q[1..])
  }

  /** `buildUrlWithQuery`: the slash-led path, then `?` and the pairs of defined entries. */
  function BuildUrlWithQuery(url: string, query: Option<Query>): (r: string)
    ensures DefinedEntries(query.GetOr([])) == [] ==> r == EnsureLeadingSlash(url)
    ensures |r| > 0 && r[0] == '/'
  {
    var normalized := EnsureLeadingSlash(url);
    var entries := DefinedEntries(query.GetOr([]));
    if |entries| == 0 then normalized
    else normalized + "?" + Join(QueryPairs(entries), "&")
  }

  lemma EncodedAvoids(s: string, c: char)
    requires c == '&' || c == '='
    ensures c !in Uri.EncodeURIComponent(s)
  {
    var e := Uri.EncodeURIComponent(s);
    assert forall i :: 0 <= i < |e| ==> e[i] != c;
  }

  /** A query piece splits at its one `=` into the encoded key and the encoded value. */
  lemma QueryPairParts(entry: (string, Value))
    ensures '&' !in QueryPair(entry)
    ensures Split(QueryPair(entry), '=')
         == [Uri.EncodeURIComponent(entry.0), Uri.EncodeURIComponent(Serialize(entry.1))]
  {
    var k := Uri.EncodeURIComponent(entry.0);
    var v := Uri.EncodeURIComponent(Serialize(entry.1));
    EncodedAvoids(entry.0, '&');
    EncodedAvoids(entry.0, '=');
    EncodedAvoids(Serialize(entry.1), '&');
    EncodedAvoids(Serialize(entry.1), '=');
    assert QueryPair(entry) == k + ['='] + v;
    SplitAfterHead(k, '=', v);
    SplitWhole(v, '=');
  }

  /**
   * When some entry is defined, the URL is the slash-led path, one `?`, and a query string
   * that splits at `&` into one piece per defined entry, in entry order; `null` is kept.
   */
  lemma QueryStringRoundTrip(url: string, query: Option<Query>)
    requires DefinedEntries(query.GetOr([])) != []
    ensures exists qs :: BuildUrlWithQuery(url, query) == EnsureLeadingSlash(url) + "?" + qs
                      && Split(qs, '&') == QueryPairs(DefinedEntries(query.GetOr([])))
  {
    var entries := DefinedEntries(query.GetOr([]));
    var pairs := QueryPairs(entries);
    forall i | 0 <= i < |pairs| ensures '&' !in pairs[i] {
      QueryPairParts(entries[i]);
    }
    SplitJoin(pairs, '&');
  }

  /** `{a: 1}` on a page path gives `?a=1`; an `undefined` value adds nothing. */
  lemma QueryExample()
    ensures BuildUrlWithQuery("pages/detail/index", Some([("a", Num("1"))])) == "/pages/detail/index?a=1"
    ensures BuildUrlWithQuery("/pages/detail/index", Some([("a", Undefined)])) == "/pages/detail/index"
  {
    assert DefinedEntries([("a", Num("1"))]) == [("a", Num("1"))];
    assert Uri.EncodeURIComponent("a") == "a";
    assert Uri.EncodeURIComponent("1") == "1";
  }

  // ----- close modes -----

  /** The string value of a `CloseTypes` member. */
  function CloseName(c: CloseType): string {
    match c
    case Default => "default"
    case Current => "current"
    case All => "all"
  }

  /**
   * `resolveCloseType` with the fall-back to `default` applied to every string that is not
   * a member name (the as-written version is `ResolveCloseTypeAsWritten`).
   */
  function ResolveCloseType(close: Option<string>): (c: CloseType)
    ensures c == Current <==> close == Some("current")
    ensures c == All <==> close == Some("all")
    ensures close.Some? && close.value in {"default", "current", "all"} ==> CloseName(c) == close.value
  {
    if close.None? || close.value == "" then Default
    else if close.value == "current" then Current
    else if close.value == "all" then All
    else Default
  }

  /** A resolved mode resolves to itself. */
  lemma ResolveCloseTypeIdempotent(close: Option<string>)
    ensures ResolveCloseType(Some(CloseName(ResolveCloseType(close)))) == ResolveCloseType(close)
  {
  }

  /** The names an object inherits from `Object.prototype`, all of which `in` accepts. */
  const ObjectPrototypeNames: set<string> := {
    "constructor", "hasOwnProperty", "isPrototypeOf", "propertyIsEnumerable",
    "toString", "toLocaleString", "valueOf", "__proto__",
    "__defineGetter__", "__defineSetter__", "__lookupGetter__", "__lookupSetter__"}

  /** What `resolveCloseType` returns as written: a mode, or an inherited member of the enum object. */
  datatype CloseResult = Mode(mode: CloseType) | InheritedMember(member: string)

  /** `resolveCloseType` as written: `close in CloseTypes` also holds for inherited names. */
  function ResolveCloseTypeAsWritten(close: Option<string>): (r: CloseResult)
    ensures r.InheritedMember? <==> close.Some? && close.value in ObjectPrototypeNames
  {
    if close.None? || close.value == "" then Mode(Default)
    else if close.value == "default" then Mode(Default)
    else if close.value == "current" then Mode(Current)
    else if close.value == "all" then Mode(All)
    else if close.value in ObjectPrototypeNames then InheritedMember(close.value)
    else Mode(Default)
  }

  /** The two agree except on inherited names, where the as-written one yields no mode. */
  lemma CloseTypeFinding(close: Option<string>)
    ensures close.Some? && close.value in ObjectPrototypeNames ==> !ResolveCloseTypeAsWritten(close).Mode?
    ensures !(close.Some? && close.value in ObjectPrototypeNames)
            ==> ResolveCloseTypeAsWritten(close) == Mode(ResolveCloseType(close))
    ensures ResolveCloseTypeAsWritten(Some("toString")) == InheritedMember("toString")
    ensures ResolveCloseType(Some("toString")) == Default
  {
  }

  // ----- the registry built from pages.json -----

  /** `page.path` for a main page, `${root}/${page.path}` for a page of a sub-package. */
  function FullPath(root: Option<string>, page: Page): string {
    if root.Some? then root.value + "/" + page.path else page.path
  }

  /** The pages of one list, each with its full path, in manifest order. */
  function PageEntries(root: Option<string>, pages: seq<Page>): (es: seq<(string, Page)>)
    ensures |es| == |pages|
    ensures forall i :: 0 <= i < |es| ==> es[i] == (FullPath(root, pages[i]), pages[i])
  {
    seq(|pages|, i requires 0 <= i < |pages| => (FullPath(root, pages[i]), pages[i]))
  }

  lemma PageEntriesSnoc(root: Option<string>, pages: seq<Page>, k: nat)
    requires k < |pages|
    ensures PageEntries(root, pages[..k + 1]) == PageEntries(root, pages[..k]) + [(FullPath(root, pages[k]), pages[k])]
  {
  }

  function SubEntries(subs: seq<SubPackage>): seq<(string, Page)>
  {
    if subs == [] then []
    else SubEntries(subs[..|subs| - 1]) + PageEntries(Some(subs[|subs| - 1].root), subs[|subs| - 1].pages)
  }

  /** Every page of the manifest with its full path, main pages first, as the source visits them. */
  function ManifestEntries(cfg: PagesConfig): seq<(string, Page)>
  {
    PageEntries(None, cfg.pages.GetOr([])) + SubEntries(cfg.subPackages.GetOr([]))
  }

  function TabBarPaths(cfg: PagesConfig): set<string>
  {
    var list := cfg.tabBarList.GetOr([]);
    set i | 0 <= i < |list| :: list[i]
  }

  /** The route an entry registers, if its name is present and non-empty. */
  function RouteFor(entry: (string, Page), tabs: set<string>, strategy: Strategy): (meta: Option<RouteMeta>)
    ensures meta.Some? ==> meta.value.name != "" && meta.value.url == entry.0 && meta.value.page == entry.1
    ensures meta.Some? ==> (meta.value.isTabBar <==> entry.0 in tabs || entry.1.pageType == Some("tabBar"))
    ensures meta.Some? <==> (var n := ResolveRouteName(entry.0, strategy); n.Some? && n.value != "")
  {
    var name := ResolveRouteName(entry.0, strategy);
    if name.Some? && name.value != "" then
      Some(RouteMeta(entry.1, name.value, entry.0 in tabs || entry.1.pageType == Some("tabBar"), entry.0))
    else None
  }

  function Registered(m: map<string, RouteMeta>, meta: Option<RouteMeta>): map<string, RouteMeta> {
    if meta.Some? then m[meta.value.name := meta.value] else m
  }

  /** The registry after visiting `es` in order: each nameable entry is set under its name. */
  function Registry(es: seq<(string, Page)>, tabs: set<string>, strategy: Strategy): map<string, RouteMeta>
  {
    if es == [] then map[]
    else Registered(Registry(es[..|es| - 1], tabs, strategy), RouteFor(es[|es| - 1], tabs, strategy))
  }

  /** `parseRoutesFromPagesJson`, as a value. */
  function RoutesFromManifest(cfg: PagesConfig, strategy: Strategy): map<string, RouteMeta>
  {
    Registry(ManifestEntries(cfg), TabBarPaths(cfg), strategy)
  }

  lemma RegistrySnoc(es: seq<(string, Page)>, e: (string, Page), tabs: set<string>, strategy: Strategy)
    ensures Registry(es + [e], tabs, strategy) == Registered(Registry(es, tabs, strategy), RouteFor(e, tabs, strategy))
  {
    assert (es + [e])[..|es|] == es;
  }

  lemma RegistryStep(done: seq<(string, Page)>, root: Option<string>, pages: seq<Page>, k: nat,
                     tabs: set<string>, strategy: Strategy)
    requires k < |pages|
    ensures Registry(done + PageEntries(root, pages[..k + 1]), tabs, strategy)
            == Registered(Registry(done + PageEntries(root, pages[..k]), tabs, strategy),
                          RouteFor((FullPath(root, pages[k]), pages[k]), tabs, strategy))
  {
    PageEntriesSnoc(root, pages, k);
    var e := (FullPath(root, pages[k]), pages[k]);
    assert done + PageEntries(root, pages[..k + 1]) == (done + PageEntries(root, pages[..k])) + [e];
    RegistrySnoc(done + PageEntries(root, pages[..k]), e, tabs, strategy);
  }

  /** One `forEach` over a page list: each page with a non-empty name is set under that name. */
  method AddPages(routeMeta: map<string, RouteMeta>, ghost done: seq<(string, Page)>, root: Option<string>,
                  pages: seq<Page>, tabBarPaths: set<string>, strategy: Strategy)
    returns (updated: map<string, RouteMeta>)
    requires routeMeta == Registry(done, tabBarPaths, strategy)
    ensures updated == Registry(done + PageEntries(root, pages), tabBarPaths, strategy)
  {
    updated := routeMeta;
    assert done + PageEntries(root, pages[..0]) == done;
    for k := 0 to |pages|
      invariant updated == Registry(done + PageEntries(root, pages[..k]), tabBarPaths, strategy)
    {
      var page := pages[k];
      var fullPath := if root.Some? then root.value + "/" + page.path else page.path;
      var name := ResolveRouteName(fullPath, strategy);
      RegistryStep(done, root, pages, k, tabBarPaths, strategy);
      ghost var before := updated;
      if name.Some? && name.value != "" {
        updated := updated[name.value := RouteMeta(page, name.value,
                     fullPath in tabBarPaths || page.pageType == Some("tabBar"), fullPath)];
      }
      assert updated == Registered(before, RouteFor((fullPath, page), tabBarPaths, strategy));
    }
    assert pages[..|pages|] == pages;
  }

  /** `parseRoutesFromPagesJson`: the tab-bar paths, then the main pages, then every sub-package. */
  method ParseRoutesFromPagesJson(routes: PagesConfig, strategy: Strategy) returns (routeMeta: map<string, RouteMeta>)
    ensures routeMeta == RoutesFromManifest(routes, strategy)
  {
    routeMeta := map[];
    var tabBarPaths: set<string> := {};
    if routes.tabBarList.Some? {
      var list := routes.tabBarList.value;
      for i := 0 to |list|
        invariant tabBarPaths == set j | 0 <= j < i :: list[j]
      {
        tabBarPaths := tabBarPaths + {list[i]};
      }
    }
    assert tabBarPaths == TabBarPaths(routes);

    if routes.pages.Some? {
      routeMeta := AddPages(routeMeta, [], None, routes.pages.value, tabBarPaths, strategy);
      assert [] + PageEntries(None, routes.pages.value) == PageEntries(None, routes.pages.value);
    } else {
      assert PageEntries(None, []) == [];
    }
    ghost var mainDone := PageEntries(None, routes.pages.GetOr([]));
    assert routeMeta == Registry(mainDone, tabBarPaths, strategy);

    if routes.subPackages.Some? {
      routeMeta := AddSubPackages(routeMeta, mainDone, routes.subPackages.value, tabBarPaths, strategy);
    } else {
      assert mainDone + SubEntries([]) == mainDone;
    }
  }

  lemma SubEntriesSnoc(done: seq<(string, Page)>, subs: seq<SubPackage>, j: nat)
    requires j < |subs|
    ensures done + SubEntries(subs[..j + 1]) == done + SubEntries(subs[..j]) + PageEntries(Some(subs[j].root), subs[j].pages)
  {
    assert subs[..j + 1][..j] == subs[..j];
  }

  /** The `forEach` over the sub-packages, each page with the path `root/path`. */
  method AddSubPackages(routeMeta: map<string, RouteMeta>, ghost done: seq<(string, Page)>,
                        subpackages: seq<SubPackage>, tabBarPaths: set<string>, strategy: Strategy)
    returns (updated: map<string, RouteMeta>)
    requires routeMeta == Registry(done, tabBarPaths, strategy)
    ensures updated == Registry(done + SubEntries(subpackages), tabBarPaths, strategy)
  {
    updated := routeMeta;
    assert done + SubEntries(subpackages[..0]) == done;
    for j := 0 to |subpackages|
      invariant updated == Registry(done + SubEntries(subpackages[..j]), tabBarPaths, strategy)
    {
      var subpackage := subpackages[j];
      updated := AddPages(updated, done + SubEntries(subpackages[..j]), Some(subpackage.root),
                          subpackage.pages, tabBarPaths, strategy);
      SubEntriesSnoc(done, subpackages, j);
    }
    assert subpackages[..|subpackages|] == subpackages;
  }

  /** The name under which an entry registers, if any. */
  function NameOf(entry: (string, Page), strategy: Strategy): Option<string> {
    var n := ResolveRouteName(entry.0, strategy);
    if n.Some? && n.value != "" then n else None
  }

  /** Registering one entry adds exactly its name, if it has one. */
  lemma RegisteredKey(m: map<string, RouteMeta>, e: (string, Page), tabs: set<string>, strategy: Strategy, n: string)
    ensures n in Registered(m, RouteFor(e, tabs, strategy)) <==> n in m || NameOf(e, strategy) == Some(n)
  {
  }

  /** A key is present exactly when some entry has that name. */
  lemma {:induction false} RegistryKeys(es: seq<(string, Page)>, tabs: set<string>, strategy: Strategy, n: string)
    ensures n in Registry(es, tabs, strategy) <==> exists i :: 0 <= i < |es| && NameOf(es[i], strategy) == Some(n)
  {
    if es != [] {
      var init := es[..|es| - 1];
      var last := es[|es| - 1];
      RegistryKeys(init, tabs, strategy, n);
      assert Registry(es, tabs, strategy) == Registered(Registry(init, tabs, strategy), RouteFor(last, tabs, strategy));
      RegisteredKey(Registry(init, tabs, strategy), last, tabs, strategy, n);
      SomeSnoc(es, init, e => NameOf(e, strategy) == Some(n));
    }
  }

  /** Some element satisfies `p` iff some element before the last does or the last one does. */
  lemma SomeSnoc<T>(es: seq<T>, init: seq<T>, p: T -> bool)
    requires es != [] && init == es[..|es| - 1]
    ensures (exists i :: 0 <= i < |es| && p(es[i]))
        <==> (exists i :: 0 <= i < |init| && p(init[i])) || p(es[|es| - 1])
  {
    if exists i :: 0 <= i < |init| && p(init[i]) {
      var i :| 0 <= i < |init| && p(init[i]);
      assert es[i] == init[i];
    }
    if exists i :: 0 <= i < |es| && p(es[i]) {
      var i :| 0 <= i < |es| && p(es[i]);
      if i < |init| { assert init[i] == es[i]; }
    }
  }

  /** Last write wins: a key holds the route of the last entry with that name. */
  lemma {:induction false} RegistryLastWins(es: seq<(string, Page)>, tabs: set<string>, strategy: Strategy, i: nat)
    requires i < |es| && NameOf(es[i], strategy).Some?
    requires forall j :: i < j < |es| ==> NameOf(es[j], strategy) != NameOf(es[i], strategy)
    ensures var n := NameOf(es[i], strategy).value;
            n in Registry(es, tabs, strategy) && Some(Registry(es, tabs, strategy)[n]) == RouteFor(es[i], tabs, strategy)
  {
    var init := es[..|es| - 1];
    if i < |es| - 1 {
      assert es[i] == init[i];
      RegistryLastWins(init, tabs, strategy, i);
      assert NameOf(es[|es| - 1], strategy) != NameOf(es[i], strategy);
    }
  }

  /** Every key holds the route made from some entry carrying that name. */
  lemma {:induction false} RegistrySource(es: seq<(string, Page)>, tabs: set<string>, strategy: Strategy, n: string)
    requires n in Registry(es, tabs, strategy)
    ensures exists i :: 0 <= i < |es| && RouteFor(es[i], tabs, strategy) == Some(Registry(es, tabs, strategy)[n])
    ensures Registry(es, tabs, strategy)[n].name == n
  {
    var init := es[..|es| - 1];
    var last := RouteFor(es[|es| - 1], tabs, strategy);
    if last.Some? && last.value.name == n {
    } else {
      RegistrySource(init, tabs, strategy, n);
      var i :| 0 <= i < |init| && RouteFor(init[i], tabs, strategy) == Some(Registry(init, tabs, strategy)[n]);
      assert es[i] == init[i];
    }
  }

  /**
   * The shape of the registry `parseRoutesFromPagesJson` builds: each key is its route's
   * name; the route's `url` is the full path of a manifest page and `page` that page; it is
   * a tab-bar route iff that path is in `tabBar.list` or the page's `type` is `"tabBar"`.
   */
  lemma ManifestRouteShape(cfg: PagesConfig, strategy: Strategy, n: string)
    requires n in RoutesFromManifest(cfg, strategy)
    ensures var meta := RoutesFromManifest(cfg, strategy)[n];
            && meta.name == n
            && (meta.isTabBar <==> meta.url in TabBarPaths(cfg) || meta.page.pageType == Some("tabBar"))
            && exists i :: 0 <= i < |ManifestEntries(cfg)| && ManifestEntries(cfg)[i] == (meta.url, meta.page)
  {
    RegistrySource(ManifestEntries(cfg), TabBarPaths(cfg), strategy, n);
  }

  /**
   * Under the default naming, the name of each registered route is what
   * `extractSecondPathSegment` makes of its page path, so a page opened at that path is
   * read back under the same name.
   */
  lemma DefaultNameOfUrl(cfg: PagesConfig, n: string)
    requires n in RoutesFromManifest(cfg, DefaultNaming)
    ensures ExtractSecondPathSegment(RoutesFromManifest(cfg, DefaultNaming)[n].url) == n
  {
    var es := ManifestEntries(cfg);
    RegistrySource(es, TabBarPaths(cfg), DefaultNaming, n);
    var i :| 0 <= i < |es| && RouteFor(es[i], TabBarPaths(cfg), DefaultNaming) == Some(RoutesFromManifest(cfg, DefaultNaming)[n]);
  }

  /** Sub-package entries carry the path `root/path` of a page of some sub-package. */
  lemma {:induction false} SubEntryPaths(subs: seq<SubPackage>, k: nat)
    requires k < |SubEntries(subs)|
    ensures exists s, p :: 0 <= s < |subs| && 0 <= p < |subs[s].pages|
              && SubEntries(subs)[k] == (subs[s].root + "/" + subs[s].pages[p].path, subs[s].pages[p])
  {
    var init := subs[..|subs| - 1];
    var lastPkg := subs[|subs| - 1];
    if k < |SubEntries(init)| {
      SubEntryPaths(init, k);
      var s, p :| 0 <= s < |init| && 0 <= p < |init[s].pages|
              && SubEntries(init)[k] == (init[s].root + "/" + init[s].pages[p].path, init[s].pages[p]);
      assert subs[s] == init[s];
    } else {
      var p := k - |SubEntries(init)|;
      assert SubEntries(subs)[k] == PageEntries(Some(lastPkg.root), lastPkg.pages)[p];
    }
  }
}
