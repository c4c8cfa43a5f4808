/** The resolver from front-end entrypoint names to `<script>` and
    `<link>` tags. It runs in one of two modes: with a dev server (read from
    an explicit override or from the hot file) every entrypoint is served by
    that server; without one, entrypoints are looked up in the build
    manifest, which is read once and kept in the object's `manifest` slot. */
module Vite {
  import opened Wrappers
  import opened PhpStrings
  import opened PhpValues
  import opened OrderedSet

  /** The constructor arguments, readonly for the object's lifetime. The
      environment is a free string: only the exact value "prod" disables
      the dev server. */
  datatype Config = Config(
    manifestPath: string,
    hotFile: string,
    devServer: Option<string>,
    environment: string,
    buildBase: string)

  /** The manifest file as the filesystem and `json_decode` see it. */
  datatype ManifestFile =
    | Missing              // `is_file` is false
    | Unreadable           // `file_get_contents` returned false
    | NotJson              // `json_decode` threw
    | Json(data: Value)    // the decoded document

  /** What the filesystem holds when a public operation runs: the hot
      file's contents (None when it is not a file; an unreadable hot file
      reads as the empty string), the manifest file, and what `md5_file`
      returned for it (None for false). */
  datatype Host = Host(hot: Option<string>, manifest: ManifestFile, manifestHash: Option<string>)

  /** The exceptions `tags` lets escape. */
  datatype Error =
    | ManifestNotFound(path: string)
    | ManifestUnreadable(path: string)
    | ManifestInvalidJson
    | ManifestInvalidStructure
    | EntryNotFound(entry: string)

  /** The `array|string $entrypoints` argument. */
  datatype Entrypoints = One(name: string) | Many(values: seq<Value>)

  /** One emitted tag, before it is turned into markup. */
  datatype Tag = Script(src: string) | Stylesheet(href: string)

  /** The records collected in production mode, in entrypoint order and
      with repetitions: every css path and every script file met. */
  datatype Assets = Assets(css: seq<string>, files: seq<string>)

  // ---------------------------------------------------------------------
  // Entrypoint normalisation

  /** The values the argument stands for: a single string is a one-element
      list. */
  function Candidates(ep: Entrypoints): (vs: seq<Value>)
    ensures ep.One? ==> vs == [Str(ep.name)]
    ensures ep.Many? ==> vs == ep.values
  {
    match ep
    case One(name) => [Str(name)]
    case Many(values) => values
  }

  /** A value that normalisation drops: not a string, or a string that
      trims to nothing. */
  predicate Blank(v: Value)
  {
    !v.Str? || Trim(v.s, Whitespace) == []
  }

  /** `array_map` with `trim` (non-strings become "") followed by
      `array_filter` dropping "" and `array_values`: the trimmed strings
      that are not empty, in order. */
  function TrimmedNames(vs: seq<Value>): (names: seq<string>)
    ensures |names| <= |vs|
    ensures forall i :: 0 <= i < |names| ==>
              names[i] != [] && names[i][0] !in Whitespace && names[i][|names[i]| - 1] !in Whitespace
  {
    if vs == [] then []
    else
      var rest := TrimmedNames(vs[1..]);
      if Blank(vs[0]) then rest else [Trim(vs[0].s, Whitespace)] + rest
  }

  function Normalize(ep: Entrypoints): seq<string>
  {
    TrimmedNames(Candidates(ep))
  }

  // ---------------------------------------------------------------------
  // Mode detection, URLs and markup

  /** `devServerUrl`: the environment "prod" rules the dev server out;
      otherwise a non-empty override wins over the hot file; otherwise the
      hot file's trimmed contents, unless empty. Both sources lose their
      trailing slashes. */
  function DevServerUrl(config: Config, hot: Option<string>): (url: Option<string>)
    ensures config.environment == "prod" ==> url.None?
    ensures config.environment != "prod" && config.devServer.Some? && config.devServer.value != [] ==> url.Some?
    ensures !(config.devServer.Some? && config.devServer.value != []) ==>
              (url.Some? <==> config.environment != "prod" && hot.Some? && Trim(hot.value, Whitespace) != [])
    ensures url.Some? ==> url.value == [] || url.value[|url.value| - 1] != '/'
  {
    if config.environment == "prod" then None
    else if config.devServer.Some? && config.devServer.value != [] then
      Some(RTrim(config.devServer.value, Slash))
    else
      match hot
      case None => None
      case Some(text) =>
        var trimmed := Trim(text, Whitespace);
        if trimmed == [] then None else Some(RTrim(trimmed, Slash))
  }

  /** `assetUrl` exactly as written: with a build base made only of slashes
      (such as "/" or "") it yields "//" followed by the file, which a
      browser reads as a URL on another host. */
  function AssetUrlAsWritten(buildBase: string, file: string): (url: string)
    ensures |url| >= 2 && url[0] == '/'
  {
    "/" + Trim(buildBase, Slash) + "/" + LTrim(file, Slash)
  }

  /** `assetUrl` as intended: the build base with exactly one leading slash
      and none trailing, then one slash, then the file without leading
      slashes. The result is always a path on the page's own host: it
      starts with one slash and never with two. It agrees with the code as
      written whenever the base has a character other than a slash. */
  function AssetUrl(buildBase: string, file: string): (url: string)
    ensures url != [] && url[0] == '/'
    ensures |url| == 1 || url[1] != '/'
    ensures Trim(buildBase, Slash) != [] ==> url == AssetUrlAsWritten(buildBase, file)
  {
    var base := Trim(buildBase, Slash);
    if base == [] then "/" + LTrim(file, Slash) else "/" + base + "/" + LTrim(file, Slash)
  }

  const ScriptOpen: string := "<script type=\"module\" src=\""
  const ScriptClose: string := "\"></script>"
  const StyleOpen: string := "<link rel=\"stylesheet\" href=\""
  const StyleClose: string := "\">"

  /** `scriptTag` and `styleTag`. `escape` stands for `htmlspecialchars`
      and is left uninterpreted: whatever it does, a script is a `<script`
      element and a stylesheet a `<link` element. */
  function Markup(t: Tag, escape: string -> string): string
  {
    match t
    case Script(src) => ScriptOpen + escape(src) + ScriptClose
    case Stylesheet(href) => StyleOpen + escape(href) + StyleClose
  }

  /** Whatever `escape` does, a script tag is a module `<script` element
      whose `src` attribute holds exactly the escaped source, and a
      stylesheet tag a `<link` element whose `href` holds exactly the
      escaped address: the markup splits into the opening text, the
      escaped value and the closing text, and nothing else. */
  lemma MarkupElement(t: Tag, escape: string -> string)
    ensures t.Script? ==>
      var m := Markup(t, escape);
      |m| == |ScriptOpen| + |escape(t.src)| + |ScriptClose| &&
      m[..|ScriptOpen|] == ScriptOpen &&
      m[|ScriptOpen|..|m| - |ScriptClose|] == escape(t.src) &&
      m[|m| - |ScriptClose|..] == ScriptClose
    ensures t.Stylesheet? ==>
      var m := Markup(t, escape);
      |m| == |StyleOpen| + |escape(t.href)| + |StyleClose| &&
      m[..|StyleOpen|] == StyleOpen &&
      m[|StyleOpen|..|m| - |StyleClose|] == escape(t.href) &&
      m[|m| - |StyleClose|..] == StyleClose
  {
    match t
    case Script(src) =>
      var m := Markup(t, escape);
      assert m == ScriptOpen + escape(src) + ScriptClose;
      assert m[..|ScriptOpen|] == ScriptOpen;
      assert m[|ScriptOpen|..|m| - |ScriptClose|] == escape(src);
      assert m[|m| - |ScriptClose|..] == ScriptClose;
    case Stylesheet(href) =>
      var m := Markup(t, escape);
      assert m == StyleOpen + escape(href) + StyleClose;
      assert m[..|StyleOpen|] == StyleOpen;
      assert m[|StyleOpen|..|m| - |StyleClose|] == escape(href);
      assert m[|m| - |StyleClose|..] == StyleClose;
  }

  function Markups(tags: seq<Tag>, escape: string -> string): (ms: seq<string>)
    ensures |ms| == |tags|
    ensures forall i :: 0 <= i < |tags| ==> ms[i] == Markup(tags[i], escape)
  {
    seq(|tags|, i requires 0 <= i < |tags| => Markup(tags[i], escape))
  }

  /** `implode("\n", $tags)`. */
  function Render(tags: seq<Tag>, escape: string -> string): string
  {
    Implode("\n", Markups(tags, escape))
  }

  // ---------------------------------------------------------------------
  // The two modes, as specifications

  /** Dev mode: the client script, then one script per entrypoint, in the
      caller's order, each with its leading slashes removed. */
  function DevTags(url: string, names: seq<string>): (tags: seq<Tag>)
    ensures |tags| == |names| + 1
    ensures tags[0] == Script(url + "/@vite/client")
    ensures forall i :: 0 <= i < |names| ==> tags[i + 1] == Script(url + "/" + LTrim(names[i], Slash))
  {
    [Script(url + "/@vite/client")] + seq(|names|, i requires 0 <= i < |names| => Script(url + "/" + LTrim(names[i], Slash)))
  }

  /** `json_decode` and the structure check of `loadManifest`. */
  function Decode(path: string, file: ManifestFile): (r: Result<seq<Item>, Error>)
    ensures r.Ok? <==> file.Json? && file.data.Arr?
    ensures r.Ok? ==> r.value == file.data.items
    ensures file.Missing? ==> r == Err(ManifestNotFound(path))
    ensures file.Unreadable? ==> r == Err(ManifestUnreadable(path))
    ensures file.NotJson? ==> r == Err(ManifestInvalidJson)
    ensures file.Json? && !file.data.Arr? ==> r == Err(ManifestInvalidStructure)
  {
    match file
    case Missing => Err(ManifestNotFound(path))
    case Unreadable => Err(ManifestUnreadable(path))
    case NotJson => Err(ManifestInvalidJson)
    case Json(data) => if data.Arr? then Ok(data.items) else Err(ManifestInvalidStructure)
  }

  /** What `loadManifest` returns given the slot's content: the cached
      manifest when there is one, whatever the file now holds. */
  function LoadResult(config: Config, slot: Option<seq<Item>>, file: ManifestFile): (r: Result<seq<Item>, Error>)
    ensures slot.Some? ==> r == Ok(slot.value)
    ensures r.Err? ==> slot.None? && !(file.Json? && file.data.Arr?)
    ensures slot.None? && file.Json? && file.data.Arr? ==> r == Ok(file.data.items)
    ensures slot.None? && file.Missing? ==> r == Err(ManifestNotFound(config.manifestPath))
  {
    if slot.Some? then Ok(slot.value) else Decode(config.manifestPath, file)
  }

  /** The slot after `loadManifest`: filled by the first success, never
      emptied or replaced. */
  function SlotAfterLoad(config: Config, slot: Option<seq<Item>>, file: ManifestFile): (s: Option<seq<Item>>)
    ensures slot.Some? ==> s == slot
    ensures s.Some? <==> LoadResult(config, slot, file).Ok?
    ensures s.Some? ==> s.value == LoadResult(config, slot, file).value
  {
    match LoadResult(config, slot, file)
    case Ok(m) => Some(m)
    case Err(_) => None
  }

  /** The manifest record for one entrypoint (leading slashes removed); an
      absent key or a value that is not an array is `EntryNotFound`. */
  function ResolveEntry(m: seq<Item>, entry: string): Result<seq<Item>, Error>
  {
    var key := LTrim(entry, Slash);
    match Lookup(m, key)
    case Some(Arr(data)) => Ok(data)
    case _ => Err(EntryNotFound(key))
  }

  /** The non-empty strings among `values`, in order. */
  function CssPaths(values: seq<Value>): (paths: seq<string>)
    ensures |paths| <= |values|
  {
    if values == [] then []
    else
      var n := |values| - 1;
      var last := values[n];
      CssPaths(values[..n]) + (if last.Str? && last.s != [] then [last.s] else [])
  }

  /** The stylesheets a record declares: the non-empty strings of its
      `css` array, if it has one. */
  function CssOf(data: seq<Item>): seq<string>
  {
    match Lookup(data, "css")
    case Some(Arr(items)) => CssPaths(Values(items))
    case _ => []
  }

  /** The script a record declares: its `file`, if a non-empty string. */
  function FileOf(data: seq<Item>): (files: seq<string>)
    ensures |files| <= 1
    ensures files != [] ==> files[0] != [] && Lookup(data, "file") == Some(Str(files[0]))
    ensures Lookup(data, "file").Some? && Lookup(data, "file").value.Str? && Lookup(data, "file").value.s != []
      ==> files == [Lookup(data, "file").value.s]
  {
    match Lookup(data, "file")
    case Some(Str(f)) => if f != [] then [f] else []
    case _ => []
  }

  /** Production mode, before deduplication: every entrypoint's css paths
      and script file, in entrypoint order; the first entrypoint without a
      record fails the whole resolution. */
  function Resolve(m: seq<Item>, names: seq<string>): Result<Assets, Error>
  {
    if names == [] then Ok(Assets([], []))
    else
      var n := |names| - 1;
      match Resolve(m, names[..n])
      case Err(e) => Err(e)
      case Ok(a) =>
        match ResolveEntry(m, names[n])
        case Err(e) => Err(e)
        case Ok(data) => Ok(Assets(a.css + CssOf(data), a.files + FileOf(data)))
  }

  function StyleTags(buildBase: string, paths: seq<string>): (tags: seq<Tag>)
    ensures |tags| == |paths|
    ensures forall i :: 0 <= i < |paths| ==> tags[i] == Stylesheet(AssetUrlAsWritten(buildBase, paths[i]))
  {
    seq(|paths|, i requires 0 <= i < |paths| => Stylesheet(AssetUrlAsWritten(buildBase, paths[i])))
  }

  function ScriptTags(buildBase: string, paths: seq<string>): (tags: seq<Tag>)
    ensures |tags| == |paths|
    ensures forall i :: 0 <= i < |paths| ==> tags[i] == Script(AssetUrlAsWritten(buildBase, paths[i]))
  {
    seq(|paths|, i requires 0 <= i < |paths| => Script(AssetUrlAsWritten(buildBase, paths[i])))
  }

  /** The tags of the collected assets: the deduplicated stylesheets, then
      the deduplicated scripts. */
  function AssetTags(buildBase: string, a: Assets): seq<Tag>
  {
    StyleTags(buildBase, Dedup(a.css)) + ScriptTags(buildBase, Dedup(a.files))
  }

  /** Production mode: resolve every name, then tag what was collected. */
  function ProdTags(buildBase: string, m: seq<Item>, names: seq<string>): Result<seq<Tag>, Error>
  {
    match Resolve(m, names)
    case Err(e) => Err(e)
    case Ok(a) => Ok(AssetTags(buildBase, a))
  }

  /** `tags` as a whole, given the manifest slot and the filesystem: no
      names, no tags; a dev server, dev tags; otherwise the manifest. */
  function TagList(config: Config, slot: Option<seq<Item>>, host: Host, ep: Entrypoints): Result<seq<Tag>, Error>
  {
    var names := Normalize(ep);
    if names == [] then Ok([])
    else
      match DevServerUrl(config, host.hot)
      case Some(url) => Ok(DevTags(url, names))
      case None =>
        match LoadResult(config, slot, host.manifest)
        case Err(e) => Err(e)
        case Ok(m) => ProdTags(config.buildBase, m, names)
  }

  /** The slot after `tags`: only production mode with at least one name
      loads the manifest. */
  function SlotAfterTags(config: Config, slot: Option<seq<Item>>, host: Host, ep: Entrypoints): Option<seq<Item>>
  {
    if Normalize(ep) == [] || DevServerUrl(config, host.hot).Some? then slot
    else SlotAfterLoad(config, slot, host.manifest)
  }

  // ---------------------------------------------------------------------
  // Version and preamble

  /** `version`: "dev" with a dev server; otherwise the manifest's hash
      when the file exists and hashing gave a non-empty string; otherwise
      "dev" again. It never fails and is never empty. */
  function Version(config: Config, host: Host): (v: string)
    ensures v != []
    ensures DevServerUrl(config, host.hot).Some? ==> v == "dev"
    ensures v == "dev" || (DevServerUrl(config, host.hot).None? && !host.manifest.Missing? && host.manifestHash == Some(v))
    ensures DevServerUrl(config, host.hot).None? && !host.manifest.Missing? && host.manifestHash.Some? && host.manifestHash.value != []
      ==> v == host.manifestHash.value
  {
    if DevServerUrl(config, host.hot).Some? then "dev"
    else if !host.manifest.Missing? && host.manifestHash.Some? && host.manifestHash.value != [] then host.manifestHash.value
    else "dev"
  }

  const PreambleOpen: string := "<script type=\"module\">"

  /** `reactRefreshPreamble`: empty without a dev server, otherwise the
      fixed React refresh snippet importing `<url>/@react-refresh`.
      `jsonEncode` stands for `json_encode` and is left uninterpreted. */
  function ReactRefreshPreamble(config: Config, hot: Option<string>, jsonEncode: string -> string): (p: string)
    ensures p == [] <==> DevServerUrl(config, hot).None?
    ensures p != [] ==> |p| > |PreambleOpen| && p[..|PreambleOpen|] == PreambleOpen
  {
    match DevServerUrl(config, hot)
    case None => ""
    case Some(url) =>
      PreambleOpen
      + "import RefreshRuntime from " + jsonEncode(url + "/@react-refresh") + ";"
      + "RefreshRuntime.injectIntoGlobalHook(window);"
      + "window.$RefreshReg$ = () => {};"
      + "window.$RefreshSig$ = () => (type) => type;"
      + "window.__vite_plugin_react_preamble_installed__ = true;"
      + "</script>"
  }

  // ---------------------------------------------------------------------
  // The loops of `tags`

  /** The dev-mode loop: the client tag, then one script tag per name. */
  method DevServerTags(url: string, names: seq<string>, escape: string -> string) returns (tags: seq<string>)
    ensures tags == Markups(DevTags(url, names), escape)
  {
    ghost var spec := DevTags(url, names);
    ghost var ms := Markups(spec, escape);
    var client := Script(url + "/@vite/client");
    assert client == spec[0];
    tags := [Markup(client, escape)];
    for i := 0 to |names|
      invariant tags == ms[..i + 1]
    {
      var t := Script(url + "/" + LTrim(names[i], Slash));
      assert t == spec[i + 1];
      assert ms[..i + 2] == ms[..i + 1] + [ms[i + 1]];
      tags := tags + [Markup(t, escape)];
    }
    assert ms[..|names| + 1] == ms;
  }

  /** Once an entrypoint has no record, no later entrypoint changes the
      outcome. */
  lemma {:induction false} ResolveErrSticky(m: seq<Item>, names: seq<string>, k: nat)
    requires k <= |names| && Resolve(m, names[..k]).Err?
    ensures Resolve(m, names) == Resolve(m, names[..k])
  {
    if k < |names| {
      var n := |names| - 1;
      assert names[..n][..k] == names[..k];
      ResolveErrSticky(m, names[..n], k);
    } else {
      assert names[..k] == names;
    }
  }

  /** The inner loop over a record's `css` array: each non-empty string is
      inserted into the ordered set of stylesheets. */
  method InsertStyles(styles: seq<string>, values: seq<Value>, ghost seen: seq<string>) returns (result: seq<string>)
    requires styles == Dedup(seen)
    ensures result == Dedup(seen + CssPaths(values))
  {
    result := styles;
    assert values[..0] == [] && seen + CssPaths([]) == seen;
    for k := 0 to |values|
      invariant result == Dedup(seen + CssPaths(values[..k]))
    {
      CssPathsSnoc(seen, values, k);
      if values[k].Str? && values[k].s != [] {
        DedupSnoc(seen + CssPaths(values[..k]), values[k].s);
        result := Insert(result, values[k].s);
      }
    }
    assert values[..|values|] == values;
  }

  /** One more value adds its path, if it has one, after those of the
      values before it. */
  lemma CssPathsSnoc(seen: seq<string>, values: seq<Value>, k: nat)
    requires k < |values|
    ensures values[k].Str? && values[k].s != [] ==>
              seen + CssPaths(values[..k + 1]) == seen + CssPaths(values[..k]) + [values[k].s]
    ensures !(values[k].Str? && values[k].s != []) ==>
              seen + CssPaths(values[..k + 1]) == seen + CssPaths(values[..k])
  {
    assert values[..k + 1][..k] == values[..k];
  }

  /** The production-mode loop over entrypoints, with `$styles` and
      `$scripts` as ordered sets: the result is the deduplicated
      resolution, or the first missing entrypoint. */
  method CollectAssets(m: seq<Item>, names: seq<string>) returns (r: Result<Assets, Error>)
    ensures Resolve(m, names).Err? ==> r == Resolve(m, names)
    ensures Resolve(m, names).Ok? ==>
              r == Ok(Assets(Dedup(Resolve(m, names).value.css), Dedup(Resolve(m, names).value.files)))
  {
    var styles: seq<string> := [];
    var scripts: seq<string> := [];
    ghost var css: seq<string> := [];
    ghost var files: seq<string> := [];
    for i := 0 to |names|
      invariant Resolve(m, names[..i]) == Ok(Assets(css, files))
      invariant styles == Dedup(css) && scripts == Dedup(files)
    {
      assert names[..i + 1][..i] == names[..i];
      var key := LTrim(names[i], Slash);
      var found := Lookup(m, key);
      if !(found.Some? && found.value.Arr?) {
        assert Resolve(m, names[..i + 1]) == Err(EntryNotFound(key));
        ResolveErrSticky(m, names, i + 1);
        return Err(EntryNotFound(key));
      }
      var data := found.value.items;
      assert ResolveEntry(m, names[i]) == Ok(data);
      var cssValue := Lookup(data, "css");
      if cssValue.Some? && cssValue.value.Arr? {
        styles := InsertStyles(styles, Values(cssValue.value.items), css);
      } else {
        assert CssOf(data) == [];
        assert css + CssOf(data) == css;
      }
      css := css + CssOf(data);
      var fileValue := Lookup(data, "file");
      if fileValue.Some? && fileValue.value.Str? && fileValue.value.s != [] {
        DedupSnoc(files, fileValue.value.s);
        scripts := Insert(scripts, fileValue.value.s);
      } else {
        assert files + FileOf(data) == files;
      }
      files := files + FileOf(data);
    }
    assert names[..|names|] == names;
    r := Ok(Assets(styles, scripts));
  }

  /** The first emitting loop: one stylesheet tag per path, in order. */
  method EmitStyles(buildBase: string, styles: seq<string>, escape: string -> string)
    returns (tags: seq<string>)
    ensures tags == Markups(StyleTags(buildBase, styles), escape)
  {
    ghost var spec := StyleTags(buildBase, styles);
    ghost var ms := Markups(spec, escape);
    tags := [];
    for k := 0 to |styles|
      invariant tags == ms[..k]
    {
      var t := Stylesheet(AssetUrlAsWritten(buildBase, styles[k]));
      assert t == spec[k];
      assert ms[..k + 1] == ms[..k] + [ms[k]];
      tags := tags + [Markup(t, escape)];
    }
    assert ms[..|styles|] == ms;
  }

  /** The second emitting loop: one script tag per path, in order. */
  method EmitScripts(buildBase: string, scripts: seq<string>, escape: string -> string)
    returns (tags: seq<string>)
    ensures tags == Markups(ScriptTags(buildBase, scripts), escape)
  {
    ghost var spec := ScriptTags(buildBase, scripts);
    ghost var ms := Markups(spec, escape);
    tags := [];
    for k := 0 to |scripts|
      invariant tags == ms[..k]
    {
      var t := Script(AssetUrlAsWritten(buildBase, scripts[k]));
      assert t == spec[k];
      assert ms[..k + 1] == ms[..k] + [ms[k]];
      tags := tags + [Markup(t, escape)];
    }
    assert ms[..|scripts|] == ms;
  }

  /** Markup of a concatenation is the concatenation of the markups. */
  lemma MarkupsAppend(a: seq<Tag>, b: seq<Tag>, escape: string -> string)
    ensures Markups(a + b, escape) == Markups(a, escape) + Markups(b, escape)
  {
    var l, r := Markups(a + b, escape), Markups(a, escape) + Markups(b, escape);
    forall i | 0 <= i < |l| ensures l[i] == r[i] {
      if i < |a| {
        assert (a + b)[i] == a[i];
      } else {
        assert (a + b)[i] == b[i - |a|];
      }
    }
  }

  /** Both emitting loops: every stylesheet tag, then every script tag. */
  method EmitTags(buildBase: string, styles: seq<string>, scripts: seq<string>, escape: string -> string)
    returns (tags: seq<string>)
    ensures tags == Markups(StyleTags(buildBase, styles) + ScriptTags(buildBase, scripts), escape)
  {
    var styleTags := EmitStyles(buildBase, styles, escape);
    var scriptTags := EmitScripts(buildBase, scripts, escape);
    MarkupsAppend(StyleTags(buildBase, styles), ScriptTags(buildBase, scripts), escape);
    tags := styleTags + scriptTags;
  }

  // ---------------------------------------------------------------------
  // The resolver object

  class Resolver {
    const config: Config
    /** The memoised manifest: None until the first successful load. */
    var manifest: Option<seq<Item>>

    constructor (manifestPath: string, hotFile: string, devServer: Option<string>, environment: string, buildBase: string)
      ensures config == Config(manifestPath, hotFile, devServer, environment, buildBase)
      ensures manifest.None?
    {
      config := Config(manifestPath, hotFile, devServer, environment, buildBase);
      manifest := None;
    }

    /** `loadManifest`: the cached manifest if there is one, else the
        decoded file, which is then cached. */
    method LoadManifest(file: ManifestFile) returns (r: Result<seq<Item>, Error>)
      modifies this
      ensures r == LoadResult(config, old(manifest), file)
      ensures manifest == SlotAfterLoad(config, old(manifest), file)
    {
      if manifest.Some? {
        return Ok(manifest.value);
      }
      r := Decode(config.manifestPath, file);
      if r.Ok? {
        manifest := Some(r.value);
      }
    }

    /** `tags`. */
    method Tags(entrypoints: Entrypoints, host: Host, escape: string -> string) returns (r: Result<string, Error>)
      modifies this
      ensures TagList(config, old(manifest), host, entrypoints).Ok? ==>
                r == Ok(Render(TagList(config, old(manifest), host, entrypoints).value, escape))
      ensures TagList(config, old(manifest), host, entrypoints).Err? ==>
                r == Err(TagList(config, old(manifest), host, entrypoints).error)
      ensures manifest == SlotAfterTags(config, old(manifest), host, entrypoints)
    {
      var names := Normalize(entrypoints);
      if names == [] {
        return Ok("");
      }
      var devServer := DevServerUrl(config, host.hot);
      if devServer.Some? {
        var tags := DevServerTags(devServer.value, names, escape);
        return Ok(Implode("\n", tags));
      }
      var loaded := LoadManifest(host.manifest);
      if loaded.Err? {
        return Err(loaded.error);
      }
      var collected := CollectAssets(loaded.value, names);
      if collected.Err? {
        return Err(collected.error);
      }
      var tags := EmitTags(config.buildBase, collected.value.css, collected.value.files, escape);
      r := Ok(Implode("\n", tags));
    }
  }
}
