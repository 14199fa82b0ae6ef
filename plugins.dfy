/** The pure half of wp_palvelu_install_activate_plugins(): which names are
    allowed, how a plugin path is reduced to its folder, which installed
    plugins are selected, and what active_plugins holds afterwards. The loop
    that writes the option is Install.Site.ActivatePlugins. */
module Plugins {

  import opened Php
  import opened StringOrder
  import opened Store

  /** The allowlist used when WP_AUTO_ACTIVATE_PLUGINS is not defined. */
  const DefaultAllowList: seq<string> := ["https-domain-alias"]

  /** explode(',', WP_AUTO_ACTIVATE_PLUGINS) when the constant is defined,
      the built-in list otherwise. Names are taken as written: a space after
      a comma stays part of the next name. */
  function AllowList(autoActivate: Option<string>): seq<string> {
    match autoActivate
    case None => DefaultAllowList
    case Some(list) => Explode(',', list)
  }

  /** Without the constant the built-in list applies; with it, the names are
      the comma-free pieces that join back into the constant's value. */
  lemma AllowListSpec(autoActivate: Option<string>)
    ensures autoActivate.None? ==> AllowList(autoActivate) == DefaultAllowList
    ensures autoActivate.Some? ==>
      var names := AllowList(autoActivate);
      && |names| >= 1
      && Implode(',', names) == autoActivate.value
      && (forall i :: 0 <= i < |names| ==> ',' !in names[i])
  {
    if autoActivate.Some? {
      ImplodeExplode(',', autoActivate.value);
      ExplodeNoSeparator(',', autoActivate.value);
    }
  }

  /** explode('/', $plugin_path)[0]: the part of the path before its first
      slash, or the whole path when it has none. */
  function PluginFolder(path: string): string {
    Explode('/', path)[0]
  }

  /** The folder is the longest slash-free prefix of the path. */
  lemma PluginFolderSpec(path: string)
    ensures var folder := PluginFolder(path);
      && folder <= path && '/' !in folder
      && (|folder| == |path| || path[|folder|] == '/')
  {
    ExplodeHead('/', path);
  }

  /** The installed plugin paths whose folder is on the allowlist, in the
      order get_plugins() lists them. */
  function MatchedPlugins(installed: seq<string>, allow: seq<string>): seq<string> {
    if installed == [] then []
    else
      var init, last := installed[..|installed| - 1], installed[|installed| - 1];
      MatchedPlugins(init, allow) + (if PluginFolder(last) in allow then [last] else [])
  }

  /** A path is selected exactly when it is installed and its folder is on
      the allowlist. */
  lemma {:induction false} MatchedMembers(installed: seq<string>, allow: seq<string>)
    ensures forall p :: p in MatchedPlugins(installed, allow) <==> p in installed && PluginFolder(p) in allow
  {
    if installed != [] {
      var init, last := installed[..|installed| - 1], installed[|installed| - 1];
      assert installed == init + [last];
      MatchedMembers(init, allow);
    }
  }

  /** A selected path occurs in the selection exactly as often as among the
      installed plugins; any other path does not occur. */
  lemma {:induction false} MatchedCount(installed: seq<string>, allow: seq<string>, p: string)
    ensures multiset(MatchedPlugins(installed, allow))[p] == if PluginFolder(p) in allow then multiset(installed)[p] else 0
  {
    if installed != [] {
      var init, last := installed[..|installed| - 1], installed[|installed| - 1];
      assert installed == init + [last];
      MatchedCount(init, allow, p);
    }
  }

  /** The options after wp_palvelu_install_activate_plugins(): when some plugin
      is selected, active_plugins is replaced by the sorted selection (the
      accumulator starts empty, so earlier active plugins are dropped);
      otherwise nothing is written. */
  function ActivatedOptions(options: map<string, Value>, installed: seq<string>, autoActivate: Option<string>): map<string, Value>
  {
    WithActivePlugins(options, SortStrings(MatchedPlugins(installed, AllowList(autoActivate))))
  }

  /** The options once the accumulator `current` has been written to
      active_plugins; an accumulator still empty has written nothing. */
  function WithActivePlugins(options: map<string, Value>, current: seq<string>): map<string, Value>
  {
    if current == [] then options else options["active_plugins" := ListValue(current)]
  }

  /** Writing a non-empty accumulator supersedes any earlier write. */
  lemma RewriteActivePlugins(options: map<string, Value>, earlier: seq<string>, current: seq<string>)
    requires current != []
    ensures WithActivePlugins(options, earlier)["active_plugins" := ListValue(current)] == WithActivePlugins(options, current)
  {
  }

  /** The selection is empty exactly when no installed plugin's folder is
      on the allowlist. */
  lemma NothingMatched(installed: seq<string>, allow: seq<string>)
    ensures MatchedPlugins(installed, allow) == [] <==> forall p :: p in installed ==> PluginFolder(p) !in allow
  {
    var matched := MatchedPlugins(installed, allow);
    MatchedMembers(installed, allow);
    if matched != [] {
      assert matched[0] in matched;
    }
  }

  /** When no installed plugin is on the allowlist, the options are left as
      they were. */
  lemma NoneActivated(options: map<string, Value>, installed: seq<string>, autoActivate: Option<string>)
    requires forall p :: p in installed ==> PluginFolder(p) !in AllowList(autoActivate)
    ensures ActivatedOptions(options, installed, autoActivate) == options
  {
    var matched := MatchedPlugins(installed, AllowList(autoActivate));
    NothingMatched(installed, AllowList(autoActivate));
    SortStringsSpec(matched);
    assert |SortStrings(matched)| == |multiset(matched)| == 0;
  }

  /** What active_plugins holds after activation, stated without the sorting
      function: when some installed plugin is on the allowlist, a sorted list
      holding every selected installed path exactly as often as it is
      installed, and nothing else; no other option changes. */
  lemma ActivatedExactly(options: map<string, Value>, installed: seq<string>, autoActivate: Option<string>)
    requires exists p :: p in installed && PluginFolder(p) in AllowList(autoActivate)
    ensures var after := ActivatedOptions(options, installed, autoActivate);
      var allow := AllowList(autoActivate);
      && "active_plugins" in after
      && after == options["active_plugins" := after["active_plugins"]]
      && ListItems(after["active_plugins"]).Some?
      && var active := ListItems(after["active_plugins"]).value;
         && Sorted(active)
         && (forall p :: multiset(active)[p] == if PluginFolder(p) in allow then multiset(installed)[p] else 0)
  {
    var allow := AllowList(autoActivate);
    var matched := MatchedPlugins(installed, allow);
    NothingMatched(installed, allow);
    var sorted := SortStrings(matched);
    SortStringsSpec(matched);
    assert sorted != [] by {
      assert |sorted| == |multiset(matched)| == |matched|;
    }
    ListRoundTrip(sorted);
    forall p ensures multiset(sorted)[p] == if PluginFolder(p) in allow then multiset(installed)[p] else 0 {
      MatchedCount(installed, allow, p);
    }
  }

  /** Activation writes active_plugins and no other option. */
  lemma ActivationUntouched(options: map<string, Value>, installed: seq<string>, autoActivate: Option<string>)
    ensures Untouched(options, ActivatedOptions(options, installed, autoActivate), {"active_plugins"})
  {
  }

  /** One turn of the activation loop: a selected path joins the sorted
      selection so far, any other path leaves it as it is. */
  lemma ActivationStep(installed: seq<string>, i: nat, allow: seq<string>)
    requires i < |installed|
    ensures var before := SortStrings(MatchedPlugins(installed[..i], allow));
      var after := SortStrings(MatchedPlugins(installed[..i + 1], allow));
      && (PluginFolder(installed[i]) in allow ==> after == SortStrings(before + [installed[i]]) && after != [])
      && (PluginFolder(installed[i]) !in allow ==> after == before)
  {
    var m := MatchedPlugins(installed[..i], allow);
    var x := installed[i];
    assert installed[..i + 1][..i] == installed[..i];
    assert installed[..i + 1][i] == x;
    assert MatchedPlugins(installed[..i + 1], allow) == m + (if PluginFolder(x) in allow then [x] else []);
    if PluginFolder(x) in allow {
      SortAppend(m, x);
      SortStringsSpec(m + [x]);
      assert x in multiset(m + [x]);
    } else {
      assert m + [] == m;
    }
  }
}
