/** The build configuration (vite.config.ts): the command dispatch, the two
    configurations, and the `transform` hook of the global-SCSS plugin. The
    plugin objects of the libraries are opaque and stand as tags. */
module ViteConfig {
  import opened Common

  datatype Plugin = TsconfigPaths | GlobalScss | Svgr | React

  /** A Vite user configuration: its plugin list and its optional `base`. */
  datatype UserConfig = UserConfig(plugins: seq<Plugin>, base: Option<string>)

  /** `baseConfig.plugins`. */
  const BASE_PLUGINS: seq<Plugin> := [TsconfigPaths, GlobalScss, Svgr, React]

  /** The public path of the production build. */
  const PROD_BASE: string := "/tools/local-memory"

  function DevConfig(): (r: UserConfig)
    ensures r.base.None? && |r.plugins| == 4
    ensures TsconfigPaths in r.plugins && GlobalScss in r.plugins && Svgr in r.plugins && React in r.plugins
  {
    UserConfig(BASE_PLUGINS, None)
  }

  function ProdConfig(): (r: UserConfig)
    ensures r.plugins == DevConfig().plugins && r.base == Some(PROD_BASE) && r != DevConfig()
  {
    UserConfig(BASE_PLUGINS, Some(PROD_BASE))
  }

  /** The configuration `defineConfig` picks and whether it warns about an
      unknown command. */
  datatype Selection = Selection(config: UserConfig, warned: bool)

  /** `serve` picks the development configuration, `build` the production
      one; any other command warns and falls back to development. */
  function DefineConfig(command: string): (r: Selection)
    ensures r.config.plugins == BASE_PLUGINS
    ensures r.config.base.Some? <==> command == "build"
    ensures r.config.base.Some? ==> r.config.base.value == PROD_BASE
    ensures r.warned <==> command != "serve" && command != "build"
  {
    if command == "serve" then Selection(DevConfig(), false)
    else if command == "build" then Selection(ProdConfig(), false)
    else Selection(DevConfig(), true)
  }

  /** `s.startsWith(prefix)`. */
  predicate StartsWith(s: string, prefix: string) {
    |prefix| <= |s| && s[..|prefix|] == prefix
  }

  /** `s.includes(sub)`, scanning from the front. */
  predicate Includes(s: string, sub: string)
    decreases |s|
  {
    StartsWith(s, sub) || (|s| > 0 && Includes(s[1..], sub))
  }

  /** `sub` occurs in `s` starting at position `i`. */
  ghost predicate OccursAt(s: string, sub: string, i: int) {
    0 <= i && i + |sub| <= |s| && s[i..i + |sub|] == sub
  }

  /** The scan agrees with the definition of a substring: `sub` occurs at
      some position of `s`. */
  lemma {:induction false} IncludesAt(s: string, sub: string)
    ensures Includes(s, sub) <==> exists i :: OccursAt(s, sub, i)
    decreases |s|
  {
    if StartsWith(s, sub) {
      assert OccursAt(s, sub, 0);
    }
    if exists i :: OccursAt(s, sub, i) {
      var i :| OccursAt(s, sub, i);
      if i == 0 {
        assert StartsWith(s, sub);
      } else {
        assert OccursAt(s[1..], sub, i - 1) by {
          assert s[1..][i - 1..i - 1 + |sub|] == s[i..i + |sub|];
        }
      }
    }
    if |s| > 0 {
      IncludesAt(s[1..], sub);
      if Includes(s[1..], sub) {
        var i :| OccursAt(s[1..], sub, i);
        assert OccursAt(s, sub, i + 1) by {
          assert s[1..][i..i + |sub|] == s[i + 1..i + 1 + |sub|];
        }
      }
    }
  }

  /** The `{code, map}` record `transform` returns; the source map (`map`) is always null. */
  datatype Transformed = Transformed(code: string, sourceMap: Option<string>)

  /** The line put in front of every stylesheet: a Sass `@use` of the styles
      directory with its members in the global namespace. */
  function Prepend(stylesDir: string): string {
    "@use \"" + stylesDir + "\" as *;"
  }

  /** `transform(content, id)` for a module whose `path.parse(id)` has the
      given `root` and `base`, with the resolved `src/styles` directory:
      stylesheets whose parsed root does not contain `node_modules` and
      that are not partials get the `@use` line and a newline in front of
      their content; everything else is left alone (null). */
  function Transform(content: string, root: string, base: string, stylesDir: string): (r: Option<Transformed>)
    ensures r.Some? <==> !Includes(root, "node_modules") && Includes(base, ".scss") && !StartsWith(base, "_")
    ensures r.Some? ==> r.value.sourceMap.None?
    ensures r.Some? ==> |r.value.code| == |Prepend(stylesDir)| + 1 + |content|
    ensures r.Some? ==> r.value.code[..|Prepend(stylesDir)|] == Prepend(stylesDir)
    ensures r.Some? ==> r.value.code[|Prepend(stylesDir)|] == '\n'
    ensures r.Some? ==> r.value.code[|Prepend(stylesDir)| + 1..] == content
  {
    if !Includes(root, "node_modules") && Includes(base, ".scss") then
      if !StartsWith(base, "_") then
        var modified := Prepend(stylesDir) + "\n" + content;
        assert modified[|Prepend(stylesDir)| + 1..] == content;
        Some(Transformed(modified, None))
      else None
    else None
  }

  /** What `path.parse` gives as `root`: empty for a relative id, `/` on
      POSIX, and on Windows a separator or a drive with or without one
      (UNC roots are not covered). */
  predicate ParsedRoot(root: string) {
    || root == "" || root == "/" || root == "\\"
    || (|root| == 2 && root[1] == ':')
    || (|root| == 3 && root[1] == ':' && (root[2] == '/' || root[2] == '\\'))
  }

  /** No parsed root is long enough to contain `node_modules`, so the
      exclusion never fires: a module under `node_modules/` is rewritten
      like any other, and the outcome depends on `base` alone. */
  lemma NodeModulesExclusionIsDead(content: string, root: string, base: string, stylesDir: string)
    requires ParsedRoot(root)
    ensures !Includes(root, "node_modules")
    ensures Transform(content, root, base, stylesDir).Some? <==> Includes(base, ".scss") && !StartsWith(base, "_")
  {
    IncludesAt(root, "node_modules");
  }

  /** A partial (`_name.scss`) is never rewritten, wherever it lives. */
  lemma PartialsUntouched(content: string, root: string, base: string, stylesDir: string)
    requires StartsWith(base, "_")
    ensures Transform(content, root, base, stylesDir).None?
  {
  }
}
