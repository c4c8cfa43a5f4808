# phpsoftbox/vite — a verified Dafny model of the `Vite` tag resolver

`Vite` (src/Vite.php) turns front-end entrypoint names into HTML tags. The names are
Vite entrypoints such as `resources/js/app.tsx`.

- **Dev-server mode.** A dev server is known when the environment is not `"prod"` and
  either a non-empty `devServer` override is configured or the hot file is non-blank.
  In this mode every entrypoint becomes a `<script type="module">` on that server,
  preceded by the `@vite/client` script.
- **Production mode.** Every entrypoint is looked up in the build manifest. The manifest
  is read and decoded on first use, then memoised in the object's `manifest` slot. The
  `css` paths and `file` scripts of all records are collected into two insertion-ordered
  sets. All stylesheet `<link>` tags are emitted first, then all script tags, each rooted
  under `buildBase`.
- **Other operations.** `version` gives a cache-busting token. `reactRefreshPreamble`
  gives the React refresh snippet, which is empty without a dev server.

The files:

- `wrappers.dfy`: `Option` and `Result`.
- `php_strings.dfy`: PHP's `trim`, `ltrim` and `rtrim` with a character list, and
  `implode`, with what they keep and what they strip.
- `php_values.dfy`: decoded PHP values. An array is an ordered list of key/value items.
  Also `array_key_exists` lookup and iteration over values.
- `ordered_set.dfy`: a PHP associative array used as an ordered set (`$set[$x] = true`,
  then `array_keys`). It is modelled as a left fold of `Insert`, `Dedup`, and proved to
  hold each element once, in first-seen order.
- `vite.dfy`: the resolver.
  - Its configuration, and the filesystem as a `Host` snapshot.
  - Specification functions for every step: normalisation, `devServerUrl`, `assetUrl`,
    the tag markup, the two modes, the manifest slot, `version` and the preamble.
  - The loops of `tags` as methods proved against those functions.
  - The class `Resolver`. It holds the readonly configuration and the mutable
    `manifest` slot. `LoadManifest` and `Tags` update that slot as the PHP object does.
- `vite_properties.dfy`: what the resolver promises, proved for all inputs, and the two
  scenarios of tests/ViteTest.php.

The filesystem is a parameter. A `Host` carries three things:

- the hot file's contents (`None` when `is_file` is false);
- the state of the manifest file: missing, unreadable, not JSON, or the decoded document;
- what `md5_file` returned.

`htmlspecialchars` and `json_encode` are parameters `escape` and `jsonEncode` of type
`string -> string` and are left uninterpreted. Every property holds whatever they do.

## Model

| member | source | states |
|---|---|---|
| PhpStrings.LTrimSpec | src/Vite.php:169 | `ltrim(s, cs)` removes a prefix made only of characters of `cs` and keeps the rest of `s` unchanged; what remains does not start with a character of `cs` |
| PhpStrings.RTrimSpec | src/Vite.php:150 | `rtrim(s, cs)` removes a suffix made only of characters of `cs` and keeps the rest unchanged |
| PhpStrings.TrimSlice | src/Vite.php:52 | `trim` keeps a contiguous slice of its argument, and everything it drops before and after that slice is in the strip list |
| PhpStrings.TrimSpec | src/Vite.php:52 | `trim` keeps a contiguous slice and drops only characters of the strip list on either side; the result is empty exactly when every character is in the list |
| PhpStrings.Implode | src/Vite.php:67 | `implode` of no parts is empty, of one part is that part, and is never shorter than its first part |
| PhpStrings.ImplodeAppend | src/Vite.php:67 | imploding two non-empty lists one after the other is imploding each and joining them with one more separator |
| PhpStrings.LTrimPrefix | src/Vite.php:169 | characters of the strip list in front of a string do not change `ltrim` |
| PhpStrings.LTrimAppend | src/Vite.php:167 | `ltrim` of a concatenation keeps the second part whole once the first has a character outside the list |
| PhpStrings.RTrimSuffix | src/Vite.php:167 | characters of the strip list after a string do not change `rtrim` |
| PhpValues.LookupSpec | src/Vite.php:77 | `array_key_exists` fails exactly when no item has the key; otherwise the value is that of the first item with the key |
| PhpValues.Values | src/Vite.php:84 | iterating an array yields each item's value, in order |
| OrderedSet.InsertSpec | src/Vite.php:86 | `$set[$x] = true` keeps the keys free of duplicates, adds exactly `x`, and leaves the earlier keys in place |
| OrderedSet.DedupSpec | src/Vite.php:86-101 | the keys after inserting a sequence hold each of its elements exactly once, nothing else, in the order of first occurrence |
| OrderedSet.DedupSnoc | src/Vite.php:92 | inserting one more element updates the ordered set by `Insert` |
| OrderedSet.FirstIndexAppend | src/Vite.php:86 | elements appended later do not move the first occurrence of an earlier element |
| Vite.TrimmedNames | src/Vite.php:50-53 | normalised names are never empty and never start or end with whitespace, and there are no more of them than inputs |
| Vite.DevServerUrl | src/Vite.php:143-163 | `"prod"` gives no dev server; a non-empty override gives one; otherwise a dev server exists exactly when the hot file exists and is not blank; the URL never ends in `/` |
| Vite.AssetUrlAsWritten | src/Vite.php:165-170 | `assetUrl` as written always starts with `/` and has at least two characters |
| Vite.AssetUrl | src/Vite.php:165-170 | the corrected `assetUrl` starts with exactly one `/` and agrees with the code as written whenever the base has a character other than `/` |
| Vite.MarkupElement | src/Vite.php:197-205 | whatever the escaping does, a script tag's markup is exactly the module `<script` opening, the escaped source, then `"></script>`; a stylesheet's is the `<link rel="stylesheet"` opening, the escaped address, then `">` |
| Vite.Markups | src/Vite.php:96-105 | one markup string per tag, in order |
| Vite.MarkupsAppend | src/Vite.php:96-105 | the markup of stylesheets followed by scripts is the stylesheets' markup followed by the scripts' markup |
| Vite.DevTags | src/Vite.php:59-67 | dev mode gives `1 + n` scripts: `<url>/@vite/client`, then each name under the URL with its leading slashes removed, in caller order |
| Vite.Decode | src/Vite.php:178-190 | the manifest loads exactly when the file decodes to an array, and then it is that array; a missing file is `ManifestNotFound` with the path, an unreadable one `ManifestUnreadable` with the path, bad JSON `ManifestInvalidJson`, and a non-array document `ManifestInvalidStructure` |
| Vite.LoadResult | src/Vite.php:172-195 | a filled slot is returned as is; with an empty slot, an array document is returned and a missing file is `ManifestNotFound` with the configured path; an error happens only with an empty slot and a file that does not decode to an array |
| Vite.SlotAfterLoad | src/Vite.php:172-195 | the slot is filled exactly when loading succeeds, with what was loaded, and is never replaced once filled |
| Vite.FileOf | src/Vite.php:91-93 | a record contributes at most one script, and only a non-empty string stored under `file`; such a string is always contributed |
| Vite.StyleTags | src/Vite.php:97-99 | one stylesheet per path, in order, rooted by `assetUrl` as written |
| Vite.ScriptTags | src/Vite.php:101-103 | one script per path, in order, rooted by `assetUrl` as written |
| Vite.Version | src/Vite.php:108-122 | `version` is never empty; it is `"dev"` with a dev server; without one, an existing manifest file with a non-empty hash gives that hash; any other value is `"dev"` |
| Vite.ReactRefreshPreamble | src/Vite.php:124-141 | the preamble is empty exactly when there is no dev server, and otherwise opens a module `<script>` |
| Vite.DevServerTags | src/Vite.php:59-67 | the dev-mode loop produces exactly the markup of `DevTags` |
| Vite.ResolveErrSticky | src/Vite.php:74-79 | once an entrypoint fails, later entrypoints do not change the outcome |
| Vite.InsertStyles | src/Vite.php:83-89 | the inner `css` loop leaves the ordered set of every non-empty string path met so far |
| Vite.CssPathsSnoc | src/Vite.php:84-88 | one more `css` value adds its path, if it is a non-empty string, after the earlier ones |
| Vite.CollectAssets | src/Vite.php:70-94 | the entrypoint loop fails with the first missing entry's error, or yields the ordered sets of all collected css paths and files |
| Vite.EmitStyles | src/Vite.php:96-99 | the stylesheet loop produces the markup of `StyleTags`, one `assetUrl` as written per path |
| Vite.EmitScripts | src/Vite.php:101-103 | the script loop produces the markup of `ScriptTags`, one `assetUrl` as written per path |
| Vite.EmitTags | src/Vite.php:96-105 | both loops together produce the stylesheets' markup, then the scripts' markup |
| Vite.Resolver.constructor | src/Vite.php:34-43 | the configuration is the constructor's arguments and the manifest slot starts empty |
| Vite.Resolver.LoadManifest | src/Vite.php:172-195 | `loadManifest` returns `LoadResult` of the old slot and sets the slot to `SlotAfterLoad` |
| Vite.Resolver.Tags | src/Vite.php:48-106 | `tags` returns the newline-joined markup of `TagList`, or its error, and leaves the slot as `SlotAfterTags` says |
| ViteProperties.TrimmedNamesEmptyIff | src/Vite.php:50-55 | normalisation leaves nothing exactly when every entry is a non-string or blank |
| ViteProperties.TrimmedNamesSingle | src/Vite.php:50-53 | one entry normalises to nothing when blank and to its trimmed string otherwise |
| ViteProperties.TrimmedNamesAppend | src/Vite.php:50-53 | normalisation distributes over concatenation: each entry is normalised on its own and order is kept |
| ViteProperties.BlankStringIff | src/Vite.php:52-53 | a string entry is dropped exactly when it consists only of `trim`'s whitespace |
| ViteProperties.BlankEntrypointsRenderNothing | src/Vite.php:50-57 | with only blank or non-string entries, `tags` returns `""` whatever the dev server, manifest file and cache hold, and leaves the cache alone |
| ViteProperties.OverrideWins | src/Vite.php:149-151 | outside `"prod"`, a non-empty override decides the URL regardless of the hot file; the URL is the override minus its trailing slashes |
| ViteProperties.HotFileDecides | src/Vite.php:153-162 | without an override, no hot file means no dev server; a hot file gives none exactly when it is blank; otherwise the URL is its trimmed contents minus trailing slashes |
| ViteProperties.DevModeSkipsManifest | src/Vite.php:59-68 | with a dev server, `tags` gives the dev tags whatever the cache and the manifest file hold, and does not touch the cache |
| ViteProperties.ResolveOkIff | src/Vite.php:74-79 | resolution succeeds exactly when every entrypoint has a record |
| ViteProperties.ResolveReportsFirstMissing | src/Vite.php:74-79 | the error names the first entrypoint without a record, with its leading slashes removed |
| ViteProperties.MissingEntryFailsCall | src/Vite.php:70-79 | whatever the cache holds, once the manifest loads, a missing entry makes the whole call fail with that entry's error and no output |
| ViteProperties.CssPathsSpec | src/Vite.php:83-89 | a record's css paths are exactly its non-empty string values |
| ViteProperties.ResolveCollectsCss | src/Vite.php:74-89 | a path is collected exactly when some entrypoint's record lists it among its css paths |
| ViteProperties.ResolveCollectsFiles | src/Vite.php:74-93 | a script is collected exactly when some entrypoint's record names it as its file |
| ViteProperties.AssetTagsLayout | src/Vite.php:96-103 | production output is the deduplicated stylesheets, then the deduplicated scripts, each rooted by `assetUrl` as written; no stylesheet follows a script |
| ViteProperties.AssetTagsCorrectedUnlessRootBase | src/Vite.php:96-103 | when the build base has a character other than `/`, every production tag already carries the corrected URL |
| ViteProperties.AssetUrlIgnoresSlashPadding | src/Vite.php:165-170 | extra slashes around the build base or in front of the file change neither the URL as written nor the corrected one |
| ViteProperties.AsWrittenRootBaseIsProtocolRelative | src/Vite.php:167-169 | as written, a build base of slashes only gives a URL starting with `//`; the corrected URL is the file under `/` |
| ViteProperties.RootBase | src/Vite.php:167-169 | with base `"/"`, a file such as `assets/app.123.js` becomes `//assets/app.123.js` as written and `/assets/app.123.js` corrected |
| ViteProperties.LoadManifestMemoised | src/Vite.php:174-176 | after a successful load, every later load returns the same manifest and keeps the slot, whatever the file then holds |
| ViteProperties.CachedManifestNotReread | src/Vite.php:174-176 | once the manifest is cached, the manifest file no longer affects `tags` |
| ViteProperties.TagsRepeatable | src/Vite.php:48-106 | calling `tags` again on the same filesystem gives the same result and leaves the cache as the first call left it |
| ViteProperties.TagsTwice | src/Vite.php:48-106 | two consecutive `tags` calls on one object with the same arguments return the same |
| ViteProperties.DevServerScenario | tests/ViteTest.php:20-39 | hot file `https://vite.local` in `"dev"`: the client script and `https://vite.local/resources/js/app.tsx`, and a non-empty preamble |
| ViteProperties.HotFileScenario | src/Vite.php:59-67 | a clean hot-file URL and one clean entrypoint give the client script and the entrypoint under that URL |
| ViteProperties.NameNormalizes | src/Vite.php:50-53 | a single name without surrounding whitespace normalises to itself |
| ViteProperties.ManifestScenario | tests/ViteTest.php:44-66 | the test manifest in `"prod"` with base `/build` gives `/build/assets/app.123.css`, then `/build/assets/app.123.js` |
| ViteProperties.MissingEntryScenario | tests/ViteTest.php:47-52 | the test's manifest with an entrypoint it lacks (a request of this model's own, not one of the tests) fails with that entrypoint's name |
| ViteProperties.ProdScenario | src/Vite.php:70-105 | a one-record manifest gives that record's stylesheet, then its script, both rooted by `assetUrl` as written |
| ViteProperties.MissingScenario | src/Vite.php:77-78 | a manifest without the entrypoint's key fails the call with that name |
| ViteProperties.RecordAssets | src/Vite.php:83-93 | a record with a non-empty `file` and one non-empty `css` path declares exactly those |
| ViteProperties.ResolveSingle | src/Vite.php:74-94 | resolving one name collects exactly its record's css paths and file |
| ViteProperties.SingleAssetTags | src/Vite.php:96-103 | one stylesheet and one script give one tag each, stylesheet first, rooted by `assetUrl` as written |
| ViteProperties.SingleTag | src/Vite.php:96-103 | one path gives one tag of each kind |
| ViteProperties.DedupSingle | src/Vite.php:86 | a single insertion gives a one-element set |
| ViteProperties.BuildUrl | src/Vite.php:167-169 | with base `/build`, `assetUrl` as written puts a file without a leading slash under `/build/` |
| ViteProperties.VersionFallsBack | src/Vite.php:114-121 | without a manifest file or a non-empty hash, `version` is `"dev"` |

## Left out

- Filesystem I/O (`is_file`, `file_get_contents`, `md5_file`) is a `Host` snapshot given to each call. An unreadable hot file counts as empty, as PHP's `(string) false` does. Changes to the files between calls are modelled only by passing a different `Host`.
- `json_decode` is abstracted to the `ManifestFile` cases. The decoded document is a `Value`, and a JSON list gets the string keys "0", "1", ….
- `htmlspecialchars` and `json_encode` are uninterpreted parameters. Their character tables and their failure modes are not modelled.
- The body of `reactRefreshPreamble` is copied as a fixed string. Only its emptiness guard and its opening element are stated.
- Exceptions become `Error` values. Their message texts are not modelled. `JsonException` and `RuntimeException` are distinguished only by the `Error` case.
- PHP turns numeric-string array keys (such as `"123"`) into integers. With `strict_types`, such a css path or file then makes `assetUrl` throw a `TypeError`. The model keeps every key a string and does not model this failure.
- The constructor's default arguments (`environment = 'prod'`, `buildBase = '/build'`, `devServer = null`) are not modelled; the constructor takes all five.
- Concurrency is not modelled. PHP runs one request at a time, and the only mutable field is the manifest slot.
- `Version` and `ReactRefreshPreamble` are functions of the configuration and the `Host` rather than methods of `Resolver`. They read only readonly constructor fields and change nothing.

## Findings

| source | as written | input that shows it | evidently intended | confidence | as-written member | corrected member |
|---|---|---|---|---|---|---|
| src/Vite.php:165-170 | `'/' . trim($buildBase, '/') . '/' . ltrim($file, '/')` | `buildBase = "/"` (or `""`) and file `assets/app.123.js` give `//assets/app.123.js`, which a browser reads as host `assets` | the file under the site root, `/assets/app.123.js` | not executed | ViteProperties.AsWrittenRootBaseIsProtocolRelative | Vite.AssetUrl |

The resolver (`StyleTags`, `ScriptTags`, `EmitStyles`, `EmitScripts` and so `Resolver.Tags`) follows `assetUrl` as written. `Vite.AssetUrl` is the corrected definition. `ViteProperties.AssetTagsCorrectedUnlessRootBase` shows that the production output already carries the corrected URLs whenever the build base has a character other than `/`.
