/** What the resolver promises its callers, stated over the specification
    functions of module `Vite` and proved for every input. */
module ViteProperties {
  import opened Wrappers
  import opened PhpStrings
  import opened PhpValues
  import opened OrderedSet
  import opened Vite

  // ---------------------------------------------------------------------
  // Entrypoint normalisation

  /** Normalisation drops an entry exactly when it is blank. */
  lemma {:induction false} TrimmedNamesEmptyIff(vs: seq<Value>)
    ensures TrimmedNames(vs) == [] <==> forall i :: 0 <= i < |vs| ==> Blank(vs[i])
  {
    if vs != [] {
      TrimmedNamesEmptyIff(vs[1..]);
      assert forall i :: 1 <= i < |vs| ==> vs[i] == vs[1..][i - 1];
    }
  }

  /** One entrypoint normalises to nothing when it is blank, and otherwise
      to its trimmed string. */
  lemma TrimmedNamesSingle(v: Value)
    ensures TrimmedNames([v]) == if Blank(v) then [] else [Trim(v.s, Whitespace)]
  {
    assert [v][1..] == [];
  }

  /** Normalisation treats each entrypoint on its own: it distributes over
      concatenation, so order is kept and no entry affects another. */
  lemma {:induction false} TrimmedNamesAppend(a: seq<Value>, b: seq<Value>)
    ensures TrimmedNames(a + b) == TrimmedNames(a) + TrimmedNames(b)
  {
    if a != [] {
      assert (a + b)[0] == a[0] && (a + b)[1..] == a[1..] + b;
      TrimmedNamesAppend(a[1..], b);
    } else {
      assert a + b == b;
    }
  }

  /** A string value is blank exactly when it holds nothing but the
      whitespace `trim` strips. */
  lemma BlankStringIff(s: string)
    ensures Blank(Str(s)) <==> forall i :: 0 <= i < |s| ==> s[i] in Whitespace
  {
    TrimSpec(s, Whitespace);
  }

  /** When every entrypoint is a non-string or blank, `tags` returns the
      empty string whatever the dev server, the manifest file and the
      cache hold, and the cache is left as it was. */
  lemma BlankEntrypointsRenderNothing(config: Config, slot1: Option<seq<Item>>, slot2: Option<seq<Item>>,
                                      host1: Host, host2: Host, ep: Entrypoints, escape: string -> string)
    requires forall i :: 0 <= i < |Candidates(ep)| ==> Blank(Candidates(ep)[i])
    ensures TagList(config, slot1, host1, ep) == TagList(config, slot2, host2, ep) == Ok([])
    ensures Render([], escape) == []
    ensures SlotAfterTags(config, slot1, host1, ep) == slot1
  {
    TrimmedNamesEmptyIff(Candidates(ep));
  }

  // ---------------------------------------------------------------------
  // Mode detection

  /** A non-empty override outside "prod" decides the dev server alone:
      the hot file is not consulted, and the URL is the override without
      its trailing slashes. */
  lemma OverrideWins(config: Config, hot1: Option<string>, hot2: Option<string>)
    requires config.environment != "prod"
    requires config.devServer.Some? && config.devServer.value != []
    ensures DevServerUrl(config, hot1) == DevServerUrl(config, hot2)
    ensures DevServerUrl(config, hot1).Some?
    ensures var url := DevServerUrl(config, hot1).value;
            var given := config.devServer.value;
            |url| <= |given| && url == given[..|url|] &&
            forall i :: |url| <= i < |given| ==> given[i] == '/'
  {
    RTrimSpec(config.devServer.value, Slash);
  }

  /** Without an override (outside "prod"), the hot file decides: a blank
      or absent file means no dev server, otherwise its trimmed contents
      without trailing slashes. */
  lemma HotFileDecides(config: Config, text: string)
    requires config.environment != "prod"
    requires config.devServer.None? || config.devServer.value == []
    ensures DevServerUrl(config, None).None?
    ensures DevServerUrl(config, Some(text)).None? <==> forall i :: 0 <= i < |text| ==> text[i] in Whitespace
    ensures DevServerUrl(config, Some(text)).Some? ==>
              var url := DevServerUrl(config, Some(text)).value;
              var trimmed := Trim(text, Whitespace);
              |url| <= |trimmed| && url == trimmed[..|url|] &&
              forall i :: |url| <= i < |trimmed| ==> trimmed[i] == '/'
  {
    TrimSpec(text, Whitespace);
    RTrimSpec(Trim(text, Whitespace), Slash);
  }

  // ---------------------------------------------------------------------
  // Dev mode

  /** With a dev server and at least one name, `tags` yields the dev tags,
      whatever the cache and the manifest file hold, and leaves the cache
      alone. */
  lemma DevModeSkipsManifest(config: Config, slot1: Option<seq<Item>>, slot2: Option<seq<Item>>,
                             host1: Host, host2: Host, ep: Entrypoints)
    requires host1.hot == host2.hot && DevServerUrl(config, host1.hot).Some?
    requires Normalize(ep) != []
    ensures TagList(config, slot1, host1, ep) == TagList(config, slot2, host2, ep)
              == Ok(DevTags(DevServerUrl(config, host1.hot).value, Normalize(ep)))
    ensures SlotAfterTags(config, slot1, host1, ep) == slot1
  {
  }

  // ---------------------------------------------------------------------
  // Production mode: failure

  /** Resolution succeeds exactly when every entrypoint has a record. */
  lemma {:induction false} ResolveOkIff(m: seq<Item>, names: seq<string>)
    ensures Resolve(m, names).Ok? <==> forall i :: 0 <= i < |names| ==> ResolveEntry(m, names[i]).Ok?
  {
    if names != [] {
      var n := |names| - 1;
      ResolveOkIff(m, names[..n]);
      assert forall i :: 0 <= i < n ==> names[..n][i] == names[i];
    }
  }

  /** The error names the first entrypoint without a record (with its
      leading slashes removed); nothing is produced for the others. */
  lemma {:induction false} ResolveReportsFirstMissing(m: seq<Item>, names: seq<string>, k: nat)
    requires k < |names| && ResolveEntry(m, names[k]).Err?
    requires forall j :: 0 <= j < k ==> ResolveEntry(m, names[j]).Ok?
    ensures Resolve(m, names) == Err(EntryNotFound(LTrim(names[k], Slash)))
  {
    var n := |names| - 1;
    if k < n {
      ResolveReportsFirstMissing(m, names[..n], k);
    } else {
      ResolveOkIff(m, names[..n]);
      assert forall j :: 0 <= j < n ==> names[..n][j] == names[j];
    }
  }

  /** A missing entry fails the whole call: `tags` returns that error and
      no tags at all. */
  lemma MissingEntryFailsCall(config: Config, slot: Option<seq<Item>>, m: seq<Item>, host: Host, ep: Entrypoints, k: nat)
    requires DevServerUrl(config, host.hot).None?
    requires LoadResult(config, slot, host.manifest) == Ok(m)
    requires k < |Normalize(ep)| && ResolveEntry(m, Normalize(ep)[k]).Err?
    requires forall j :: 0 <= j < k ==> ResolveEntry(m, Normalize(ep)[j]).Ok?
    ensures TagList(config, slot, host, ep) == Err(EntryNotFound(LTrim(Normalize(ep)[k], Slash)))
  {
    ResolveReportsFirstMissing(m, Normalize(ep), k);
  }

  // ---------------------------------------------------------------------
  // Production mode: what is collected and how it is emitted

  /** The css paths of a record: exactly its non-empty strings. */
  lemma {:induction false} CssPathsSpec(values: seq<Value>)
    ensures forall p :: p in CssPaths(values) <==> p != [] && Str(p) in values
  {
    if values != [] {
      var n := |values| - 1;
      CssPathsSpec(values[..n]);
      assert values == values[..n] + [values[n]];
    }
  }

  /** The record of `name` resolves and lists `p` among its css paths. */
  predicate CssFrom(m: seq<Item>, name: string, p: string)
  {
    ResolveEntry(m, name).Ok? && p in CssOf(ResolveEntry(m, name).value)
  }

  /** The record of `name` resolves and names `f` as its file. */
  predicate FileFrom(m: seq<Item>, name: string, f: string)
  {
    ResolveEntry(m, name).Ok? && f in FileOf(ResolveEntry(m, name).value)
  }

  /** Before deduplication, the css paths are those of every entrypoint's
      record, and nothing else. */
  lemma {:induction false} ResolveCollectsCss(m: seq<Item>, names: seq<string>, p: string)
    requires Resolve(m, names).Ok?
    ensures p in Resolve(m, names).value.css <==> exists i :: 0 <= i < |names| && CssFrom(m, names[i], p)
  {
    if names != [] {
      var n := |names| - 1;
      var init := names[..n];
      ResolveCollectsCss(m, init, p);
      var a := Resolve(m, init).value;
      var data := ResolveEntry(m, names[n]).value;
      assert Resolve(m, names).value.css == a.css + CssOf(data);
      assert forall i :: 0 <= i < n ==> init[i] == names[i];
      if p in a.css {
        var i :| 0 <= i < n && CssFrom(m, init[i], p);
        assert CssFrom(m, names[i], p);
      } else if p in CssOf(data) {
        assert CssFrom(m, names[n], p);
      }
    }
  }

  /** Before deduplication, the script files are those of every
      entrypoint's record, and nothing else. */
  lemma {:induction false} ResolveCollectsFiles(m: seq<Item>, names: seq<string>, f: string)
    requires Resolve(m, names).Ok?
    ensures f in Resolve(m, names).value.files <==> exists i :: 0 <= i < |names| && FileFrom(m, names[i], f)
  {
    if names != [] {
      var n := |names| - 1;
      var init := names[..n];
      ResolveCollectsFiles(m, init, f);
      var a := Resolve(m, init).value;
      var data := ResolveEntry(m, names[n]).value;
      assert Resolve(m, names).value.files == a.files + FileOf(data);
      assert forall i :: 0 <= i < n ==> init[i] == names[i];
      if f in a.files {
        var i :| 0 <= i < n && FileFrom(m, init[i], f);
        assert FileFrom(m, names[i], f);
      } else if f in FileOf(data) {
        assert FileFrom(m, names[n], f);
      }
    }
  }

  /** Production output: the deduplicated stylesheets, then the
      deduplicated scripts, each rooted by `assetUrl` as written; so every
      stylesheet tag comes before every script tag. */
  lemma AssetTagsLayout(buildBase: string, a: Assets)
    ensures var styles, scripts := Dedup(a.css), Dedup(a.files);
            var tags := AssetTags(buildBase, a);
            |tags| == |styles| + |scripts| &&
            (forall i :: 0 <= i < |styles| ==> tags[i] == Stylesheet(AssetUrlAsWritten(buildBase, styles[i]))) &&
            (forall i :: 0 <= i < |scripts| ==> tags[|styles| + i] == Script(AssetUrlAsWritten(buildBase, scripts[i])))
    ensures var tags := AssetTags(buildBase, a);
            forall i, j :: 0 <= i < j < |tags| && tags[j].Stylesheet? ==> tags[i].Stylesheet?
  {
    var styles, scripts := Dedup(a.css), Dedup(a.files);
    var st, sc := StyleTags(buildBase, styles), ScriptTags(buildBase, scripts);
    var tags := AssetTags(buildBase, a);
    assert tags == st + sc;
    forall i | 0 <= i < |scripts| ensures tags[|styles| + i] == Script(AssetUrlAsWritten(buildBase, scripts[i])) {
      assert tags[|styles| + i] == sc[i];
    }
    forall i, j | 0 <= i < j < |tags| && tags[j].Stylesheet? ensures tags[i].Stylesheet? {
      assert tags[i] == st[i];
    }
  }

  /** Whenever the build base has a character other than a slash, the
      production output already uses the corrected URL: the code as written
      goes wrong only for a base made of slashes. */
  lemma AssetTagsCorrectedUnlessRootBase(buildBase: string, a: Assets)
    requires Trim(buildBase, Slash) != []
    ensures var styles, scripts := Dedup(a.css), Dedup(a.files);
            var tags := AssetTags(buildBase, a);
            |tags| == |styles| + |scripts| &&
            (forall i :: 0 <= i < |styles| ==> tags[i] == Stylesheet(AssetUrl(buildBase, styles[i]))) &&
            (forall i :: 0 <= i < |scripts| ==> tags[|styles| + i] == Script(AssetUrl(buildBase, scripts[i])))
  {
    AssetTagsLayout(buildBase, a);
    var styles, scripts := Dedup(a.css), Dedup(a.files);
    var tags := AssetTags(buildBase, a);
    forall i | 0 <= i < |styles| ensures tags[i] == Stylesheet(AssetUrl(buildBase, styles[i])) {
      assert AssetUrl(buildBase, styles[i]) == AssetUrlAsWritten(buildBase, styles[i]);
    }
    forall i | 0 <= i < |scripts| ensures tags[|styles| + i] == Script(AssetUrl(buildBase, scripts[i])) {
      assert AssetUrl(buildBase, scripts[i]) == AssetUrlAsWritten(buildBase, scripts[i]);
    }
  }

  // ---------------------------------------------------------------------
  // Asset URLs

  /** Extra slashes around the build base, or in front of the file, do not
      change the URL. */
  lemma AssetUrlIgnoresSlashPadding(buildBase: string, file: string, p: string, q: string, r: string)
    requires forall i :: 0 <= i < |p| ==> p[i] == '/'
    requires forall i :: 0 <= i < |q| ==> q[i] == '/'
    requires forall i :: 0 <= i < |r| ==> r[i] == '/'
    ensures AssetUrl(p + buildBase + q, file) == AssetUrl(buildBase, file)
    ensures AssetUrl(buildBase, r + file) == AssetUrl(buildBase, file)
    ensures AssetUrlAsWritten(p + buildBase + q, file) == AssetUrlAsWritten(buildBase, file)
    ensures AssetUrlAsWritten(buildBase, r + file) == AssetUrlAsWritten(buildBase, file)
  {
    LTrimPrefix(r, file, Slash);
    assert p + buildBase + q == p + (buildBase + q);
    LTrimPrefix(p, buildBase + q, Slash);
    LTrimAppend(buildBase, q, Slash);
    var l := LTrim(buildBase, Slash);
    if l == [] {
      LTrimPrefix(q, [], Slash);
      assert q + [] == q;
    } else {
      RTrimSuffix(l, q, Slash);
    }
  }

  /** The code as written turns a build base of slashes only (such as "/"
      or "") into a URL that starts with "//", which browsers read as
      naming another host; the intended URL is the file under the site
      root. */
  lemma AsWrittenRootBaseIsProtocolRelative(buildBase: string, file: string)
    requires forall i :: 0 <= i < |buildBase| ==> buildBase[i] == '/'
    ensures AssetUrlAsWritten(buildBase, file)[..2] == "//"
    ensures AssetUrl(buildBase, file) == "/" + LTrim(file, Slash)
  {
    TrimSpec(buildBase, Slash);
  }

  /** With a build base of "/", a file without leading slashes gets two
      slashes in front as written and one when corrected. */
  lemma RootBase(file: string)
    requires file == [] || file[0] != '/'
    ensures AssetUrlAsWritten("/", file) == "//" + file
    ensures AssetUrl("/", file) == "/" + file
  {
    assert LTrim("/", Slash) == LTrim("", Slash) == "";
    assert Trim("/", Slash) == "";
    assert LTrim(file, Slash) == file;
  }

  // ---------------------------------------------------------------------
  // The manifest cache

  /** After a successful load, every later load returns the same manifest
      and keeps the slot as it is, whatever the file then holds. */
  lemma LoadManifestMemoised(config: Config, slot: Option<seq<Item>>, file1: ManifestFile, file2: ManifestFile)
    requires LoadResult(config, slot, file1).Ok?
    ensures var filled := SlotAfterLoad(config, slot, file1);
            filled.Some? &&
            LoadResult(config, filled, file2) == LoadResult(config, slot, file1) &&
            SlotAfterLoad(config, filled, file2) == filled
  {
  }

  /** Once the manifest is cached, the manifest file no longer matters to
      `tags`. */
  lemma CachedManifestNotReread(config: Config, m: seq<Item>, host1: Host, host2: Host, ep: Entrypoints)
    requires host1.hot == host2.hot
    ensures TagList(config, Some(m), host1, ep) == TagList(config, Some(m), host2, ep)
    ensures SlotAfterTags(config, Some(m), host1, ep) == Some(m)
  {
  }

  /** Calling `tags` again with the same arguments on the same filesystem
      gives the same result and leaves the cache as the first call left
      it. */
  lemma TagsRepeatable(config: Config, slot: Option<seq<Item>>, host: Host, ep: Entrypoints)
    ensures var after := SlotAfterTags(config, slot, host, ep);
            TagList(config, after, host, ep) == TagList(config, slot, host, ep) &&
            SlotAfterTags(config, after, host, ep) == after
  {
  }

  /** The same, on the object: two calls in a row return the same. */
  method TagsTwice(v: Resolver, ep: Entrypoints, host: Host, escape: string -> string)
    returns (first: Result<string, Error>, second: Result<string, Error>)
    modifies v
    ensures first == second
  {
    ghost var slot := v.manifest;
    first := v.Tags(ep, host, escape);
    TagsRepeatable(v.config, slot, host, ep);
    second := v.Tags(ep, host, escape);
  }

  // ---------------------------------------------------------------------
  // Scenarios of the test suite

  /** A hot file holding "https://vite.local" in environment "dev": the
      client script, then the entrypoint, both on the dev server; and a
      React refresh preamble. */
  lemma DevServerScenario(config: Config, host: Host, slot: Option<seq<Item>>, jsonEncode: string -> string)
    requires config == Config("hot.manifest", "hot", None, "dev", "/build")
    requires host.hot == Some("https://vite.local")
    ensures TagList(config, slot, host, One("resources/js/app.tsx")) ==
              Ok([Script("https://vite.local/@vite/client"), Script("https://vite.local/resources/js/app.tsx")])
    ensures ReactRefreshPreamble(config, host.hot, jsonEncode) != []
  {
    assert "https://vite.local" + "/@vite/client" == "https://vite.local/@vite/client";
    assert "https://vite.local" + "/" + "resources/js/app.tsx" == "https://vite.local/resources/js/app.tsx";
    HotFileScenario(config, host, slot, "resources/js/app.tsx");
  }

  /** A hot file holding a URL with nothing to trim, no configured dev
      server, and one clean entrypoint: the client script, then the
      entrypoint, both under that URL. */
  lemma HotFileScenario(config: Config, host: Host, slot: Option<seq<Item>>, name: string)
    requires config.environment != "prod" && config.devServer.None?
    requires host.hot.Some?
    requires var url := host.hot.value;
             url != [] && url[0] !in Whitespace && url[|url| - 1] !in Whitespace && url[|url| - 1] != '/'
    requires name != [] && name[0] !in Whitespace && name[|name| - 1] !in Whitespace && name[0] != '/'
    ensures DevServerUrl(config, host.hot) == Some(host.hot.value)
    ensures TagList(config, slot, host, One(name)) ==
              Ok([Script(host.hot.value + "/@vite/client"), Script(host.hot.value + "/" + name)])
  {
    var url := host.hot.value;
    assert LTrim(url, Whitespace) == url;
    assert RTrim(url, Whitespace) == url;
    assert Trim(url, Whitespace) == url;
    assert RTrim(url, Slash) == url;
    assert DevServerUrl(config, host.hot) == Some(url);
    NameNormalizes(name);
    assert LTrim(name, Slash) == name;
    var tags := DevTags(url, [name]);
    assert tags[1] == Script(url + "/" + name);
    assert tags == [Script(url + "/@vite/client"), Script(url + "/" + name)];
    assert TagList(config, slot, host, One(name)) == Ok(tags);
  }

  /** A name with no surrounding whitespace normalises to itself. */
  lemma NameNormalizes(name: string)
    requires name != [] && name[0] !in Whitespace && name[|name| - 1] !in Whitespace
    ensures Normalize(One(name)) == [name]
  {
    assert LTrim(name, Whitespace) == name;
    assert RTrim(name, Whitespace) == name;
    assert Trim(name, Whitespace) == name;
    assert !Blank(Str(name));
    assert [Str(name)][1..] == [];
    assert TrimmedNames([]) == [];
  }

  /** The manifest of the test suite in environment "prod" with base
      "/build": the stylesheet, then the script. */
  lemma ManifestScenario(config: Config, host: Host)
    requires config == Config("manifest.json", "manifest.json.hot", None, "prod", "/build")
    requires host.manifest == Json(Arr([Item("resources/js/app.tsx", Arr([Item("file", Str("assets/app.123.js")),
                                        Item("css", Arr([Item("0", Str("assets/app.123.css"))]))]))]))
    ensures TagList(config, None, host, One("resources/js/app.tsx")) ==
              Ok([Stylesheet("/build/" + "assets/app.123.css"), Script("/build/" + "assets/app.123.js")])
  {
    ProdScenario(config, host, "resources/js/app.tsx", "assets/app.123.js", "assets/app.123.css");
    BuildUrl("assets/app.123.css");
    BuildUrl("assets/app.123.js");
  }

  /** The same manifest and an entrypoint it lacks: the call fails. */
  lemma MissingEntryScenario(config: Config, host: Host)
    requires config == Config("manifest.json", "manifest.json.hot", None, "prod", "/build")
    requires host.manifest == Json(Arr([Item("resources/js/app.tsx", Arr([Item("file", Str("assets/app.123.js")),
                                        Item("css", Arr([Item("0", Str("assets/app.123.css"))]))]))]))
    ensures TagList(config, None, host, One("missing/entry.tsx")) == Err(EntryNotFound("missing/entry.tsx"))
  {
    MissingScenario(config, host, "missing/entry.tsx");
  }

  /** With base "/build", a file without leading slashes lands under
      "/build/". */
  lemma BuildUrl(file: string)
    requires file == [] || file[0] != '/'
    ensures AssetUrlAsWritten("/build", file) == "/build/" + file
  {
    assert LTrim("/build", Slash) == LTrim("build", Slash) == "build";
    assert RTrim("build", Slash) == "build";
    assert Trim("/build", Slash) == "build";
    assert LTrim(file, Slash) == file;
  }

  /** A record with a non-empty `file` and one non-empty `css` path
      declares exactly that script and that stylesheet. */
  lemma RecordAssets(file: string, css: string)
    requires file != [] && css != []
    ensures var record := [Item("file", Str(file)), Item("css", Arr([Item("0", Str(css))]))];
            CssOf(record) == [css] && FileOf(record) == [file]
  {
    var record := [Item("file", Str(file)), Item("css", Arr([Item("0", Str(css))]))];
    assert Lookup(record, "file") == Some(Str(file));
    assert record[1..] == [Item("css", Arr([Item("0", Str(css))]))];
    assert Lookup(record, "css") == Some(Arr([Item("0", Str(css))]));
    var values := Values([Item("0", Str(css))]);
    assert values == [Str(css)];
    assert values[..0] == [];
    assert CssPaths(values[..0]) == [];
    assert CssPaths(values) == [css];
  }

  /** Production mode with a one-record manifest on the filesystem and
      that record's name: its stylesheet, then its script. */
  lemma ProdScenario(config: Config, host: Host, name: string, file: string, css: string)
    requires config.environment == "prod"
    requires name != [] && name[0] !in Whitespace && name[|name| - 1] !in Whitespace && name[0] != '/'
    requires file != [] && css != []
    requires host.manifest == Json(Arr([Item(name, Arr([Item("file", Str(file)), Item("css", Arr([Item("0", Str(css))]))]))]))
    ensures TagList(config, None, host, One(name)) ==
              Ok([Stylesheet(AssetUrlAsWritten(config.buildBase, css)), Script(AssetUrlAsWritten(config.buildBase, file))])
  {
    var record := [Item("file", Str(file)), Item("css", Arr([Item("0", Str(css))]))];
    var m := [Item(name, Arr(record))];
    NameNormalizes(name);
    assert LTrim(name, Slash) == name;
    assert ResolveEntry(m, name) == Ok(record);
    RecordAssets(file, css);
    ResolveSingle(m, name, record);
    SingleAssetTags(config.buildBase, css, file);
    assert LoadResult(config, None, host.manifest) == Ok(m);
  }

  /** Resolving one name is resolving its record. */
  lemma ResolveSingle(m: seq<Item>, name: string, data: seq<Item>)
    requires ResolveEntry(m, name) == Ok(data)
    ensures Resolve(m, [name]) == Ok(Assets(CssOf(data), FileOf(data)))
  {
    assert [name][..0] == [];
    assert Resolve(m, []) == Ok(Assets([], []));
    assert [] + CssOf(data) == CssOf(data) && [] + FileOf(data) == FileOf(data);
  }

  /** One stylesheet and one script give one tag each, stylesheet first. */
  lemma SingleAssetTags(buildBase: string, css: string, file: string)
    ensures AssetTags(buildBase, Assets([css], [file])) ==
              [Stylesheet(AssetUrlAsWritten(buildBase, css)), Script(AssetUrlAsWritten(buildBase, file))]
  {
    DedupSingle(css);
    DedupSingle(file);
    SingleTag(buildBase, css, file);
  }

  /** One path gives one tag of each kind. */
  lemma SingleTag(buildBase: string, css: string, file: string)
    ensures StyleTags(buildBase, [css]) == [Stylesheet(AssetUrlAsWritten(buildBase, css))]
    ensures ScriptTags(buildBase, [file]) == [Script(AssetUrlAsWritten(buildBase, file))]
  {
  }

  /** One element makes a set of one. */
  lemma DedupSingle(x: string)
    ensures Dedup([x]) == [x]
  {
    assert [x][..0] == [];
  }

  /** Production mode with a manifest lacking the entrypoint: the call
      fails and names the entrypoint. */
  lemma MissingScenario(config: Config, host: Host, missing: string)
    requires config.environment == "prod"
    requires missing != [] && missing[0] !in Whitespace && missing[|missing| - 1] !in Whitespace && missing[0] != '/'
    requires host.manifest.Json? && host.manifest.data.Arr?
    requires forall i :: 0 <= i < |host.manifest.data.items| ==> host.manifest.data.items[i].key != missing
    ensures TagList(config, None, host, One(missing)) == Err(EntryNotFound(missing))
  {
    var m := host.manifest.data.items;
    NameNormalizes(missing);
    assert LTrim(missing, Slash) == missing;
    LookupSpec(m, missing);
    assert ResolveEntry(m, missing) == Err(EntryNotFound(missing));
    assert [missing][..0] == [];
    assert Resolve(m, [missing]) == Err(EntryNotFound(missing));
  }

  // ---------------------------------------------------------------------
  // Version and preamble

  /** `version` falls back to "dev" whenever the manifest cannot give a
      hash, so its token never tells production without a manifest from
      development. */
  lemma VersionFallsBack(config: Config, host: Host)
    requires host.manifest.Missing? || host.manifestHash.None? || host.manifestHash == Some("")
    ensures Version(config, host) == "dev"
  {
  }
}
