# WP-palvelu install drop-in, modelled in Dafny

The repository's one real file, `htdocs/wp-content/install.php`, replaces
WordPress's installer. It defines three functions:

- `wp_install()` writes the site options and resolves the administrator.
- `wp_install_defaults()` writes the Finnish service defaults, the first post,
  the widgets and the default category.
- `wp_palvelu_install_activate_plugins()` switches on the installed plugins
  whose folder is on an allowlist.

The model is imperative, like the source:

- The site's database is a class, `Install.Site`. Its fields are the tables
  written: options, logins, accounts, roles, user meta, posts, terms,
  term_taxonomy and the network's categories.
- Each PHP function is a method, and so is each block of writes inside one.
- Methods are proved against pure specification functions of the old state.
  Lemmas then prove, about those functions, what the drop-in promises: the
  language fallback, the three-way administrator decision, the fixed
  defaults, the welcome panel ending off, and the sorted exact plugin list.

Everything the framework computes arrives as one `Framework` value:

- the guessed URL, the generated password, the home URL and the clock;
- the multisite flags, the network's first-post text, the super admins and
  the table prefixes of the site and the network;
- the installed plugins and `WP_AUTO_ACTIVATE_PLUGINS`;
- the translation function `__()`, and `sanitize_title(_x(...))` as one text
  function.

The files:

- `php.dfy` (`Php`): the PHP primitives used: truthiness, `trim()`,
  `explode()`/`implode()` with a one-character separator, `str_replace()`.
- `sort.dfy` (`StringOrder`): `sort()` on plugin paths, by `strcmp()` order,
  with its sorted-permutation specification and uniqueness.
- `store.dfy` (`Store`): option values (PHP scalars and ordered arrays), runs
  of `update_option()` calls, and the table rows.
- `plugins.dfy` (`Plugins`): the pure half of the plugin activation.
- `install.dfy` (`Install`): the specification functions of both install
  functions, their lemmas, and class `Site`.

Details of the code worth noting:

- The language falls back to `fi` whenever `$language` is PHP-falsy, so
  `"0"` falls back as well as the empty string.
- For an existing user, the returned password is the trimmed supplied
  password.
- `WP_AUTO_ACTIVATE_PLUGINS`, once defined, always wins, even when it is
  empty. `explode(',', '')` gives `['']`.
- On a network, admin_email is changed by an SQL UPDATE, which does nothing
  when the option row is missing.
- On a network, the stock first-post template links the network's name to its
  home URL when that URL does not itself contain `SITE_NAME`. A URL that does
  is also rewritten by the second `str_replace()`, unless the network is
  itself named `SITE_NAME`.
- On a network, every other user loses this site's `user_level` and
  `capabilities` rows, so the administrator ends as the only user with a role
  on the site.

## Model

| member | source | states |
|---|---|---|
| Php.Explode | htdocs/wp-content/install.php:290 | explode() always returns at least one piece |
| Php.ImplodeExplode | htdocs/wp-content/install.php:290 | joining the pieces of explode() with the separator gives back the string |
| Php.ExplodeNoSeparator | htdocs/wp-content/install.php:290 | no piece of explode() contains the separator |
| Php.ExplodeImplode | htdocs/wp-content/install.php:290 | separator-free pieces, joined and split again, come back unchanged |
| Php.ExplodeHead | htdocs/wp-content/install.php:299 | the first piece of explode() is the longest separator-free prefix, followed by the separator or the end |
| Php.TrimSpec | htdocs/wp-content/install.php:61 | trim() leaves a slice of the input; everything removed is trimmable and neither end of the rest is |
| Php.TrimIdempotent | htdocs/wp-content/install.php:61 | trimming the trimmed password strips nothing more |
| Php.TrimStartSpec | htdocs/wp-content/install.php:61 | the leading scan skips only trimmable characters and stops at the first that is not |
| Php.TrimEndSpec | htdocs/wp-content/install.php:61 | the trailing scan drops only trimmable characters and stops after the last that is not |
| Php.Truthy | htdocs/wp-content/install.php:37 | PHP truthiness of a string: false exactly for '' and '0'; used by Install.ChooseLanguage and Install.Resolve |
| Php.Trim | htdocs/wp-content/install.php:61 | trim() as the leading scan followed by the trailing scan; what it keeps is stated by Php.TrimSpec |
| Php.Replace | htdocs/wp-content/install.php:159-160 | str_replace() left to right without rescanning the replacement; with an empty search string it returns the subject; its behaviour on an occurrence is stated by Php.ReplaceFirst |
| Php.ReplaceAbsent | htdocs/wp-content/install.php:159-160 | a subject that does not contain the search string comes back unchanged |
| Php.ReplaceFirst | htdocs/wp-content/install.php:159-160 | when the search string first occurs right after a prefix, the prefix is kept, that occurrence becomes the replacement, and the rest is replaced in the same way |
| Php.ContainsSplit | htdocs/wp-content/install.php:159-160 | a character outside the search string separates two pieces without it, so no occurrence straddles them |
| Php.FillLinkTarget | htdocs/wp-content/install.php:159 | in `lead"u">n tail`, replacing the URL placeholder u puts the URL between the quotes and changes nothing else |
| Php.FillLinkText | htdocs/wp-content/install.php:160 | in `lead"url">n tail`, replacing the name placeholder n puts the name after the bracket and changes nothing else |
| StringOrder.LeTotal | htdocs/wp-content/install.php:306 | strcmp() order makes any two strings comparable |
| StringOrder.LeAntisymmetric | htdocs/wp-content/install.php:306 | strcmp() order relates two strings both ways only when they are equal |
| StringOrder.LeTransitive | htdocs/wp-content/install.php:306 | strcmp() order is transitive |
| StringOrder.InsertSorted | htdocs/wp-content/install.php:306 | inserting into a sorted list keeps it sorted |
| StringOrder.InsertCount | htdocs/wp-content/install.php:306 | insertion adds exactly one occurrence of the element |
| StringOrder.SortStrings | htdocs/wp-content/install.php:306 | sort() by insertion in strcmp() order; that the result is a sorted permutation is stated by StringOrder.SortStringsSpec |
| StringOrder.SortStringsSpec | htdocs/wp-content/install.php:306 | sort() returns a sorted permutation of its input |
| StringOrder.SortedUnique | htdocs/wp-content/install.php:306 | two sorted lists with the same elements are equal, so sort()'s result is determined whatever algorithm it uses |
| StringOrder.SortAppend | htdocs/wp-content/install.php:305-306 | appending to the sorted accumulator and sorting again equals sorting everything appended so far |
| Store.ListRoundTrip | htdocs/wp-content/install.php:191 | a PHP list stored as an array value reads back as the same list |
| Store.Write | htdocs/wp-content/install.php:118-146 | a run of update_option() calls, each replacing its option whole, in order; stated by Store.WriteLookup and Store.WriteUntouched |
| Store.WriteUntouched | htdocs/wp-content/install.php:118-146 | a run of update_option() calls changes no option outside the names it writes |
| Store.WriteLookup | htdocs/wp-content/install.php:118-146 | after a run of writes, an option holds the value of the last write to its name |
| Store.UntouchedChain | htdocs/wp-content/install.php:112-276 | two runs of writes in a row leave alone every option neither of them writes |
| Plugins.AllowList | htdocs/wp-content/install.php:289-295 | the allowlist: the default entry, or the constant split at commas; stated by Plugins.AllowListSpec |
| Plugins.AllowListSpec | htdocs/wp-content/install.php:289-295 | without the constant the allowlist is ['https-domain-alias']; with it, the comma-free names that join back into the constant |
| Plugins.PluginFolder | htdocs/wp-content/install.php:299 | the first piece of the path split at '/'; stated by Plugins.PluginFolderSpec |
| Plugins.PluginFolderSpec | htdocs/wp-content/install.php:299 | the folder is the longest slash-free prefix of the path |
| Plugins.MatchedPlugins | htdocs/wp-content/install.php:298-300 | the installed paths whose folder is allowed, in installed order; stated by Plugins.MatchedMembers and Plugins.MatchedCount |
| Plugins.ActivatedOptions | htdocs/wp-content/install.php:298-310 | the options after activation: untouched when nothing matches, otherwise active_plugins is the sorted selection; stated by Plugins.NoneActivated and Plugins.ActivatedExactly |
| Plugins.WithActivePlugins | htdocs/wp-content/install.php:307 | the options once the loop's accumulator is written to active_plugins, unchanged while it is empty; stated by Plugins.RewriteActivePlugins and the loop invariant of Install.Site.ActivatePlugins |
| Plugins.MatchedMembers | htdocs/wp-content/install.php:298-300 | a path is selected exactly when it is installed and its folder is on the allowlist |
| Plugins.MatchedCount | htdocs/wp-content/install.php:298-305 | a selected path occurs as often as among the installed plugins, any other path not at all |
| Plugins.NothingMatched | htdocs/wp-content/install.php:298-300 | the selection is empty exactly when no installed plugin's folder is on the allowlist |
| Plugins.NoneActivated | htdocs/wp-content/install.php:298-310 | when no installed plugin matches, the options are left as they were, active_plugins included |
| Plugins.ActivatedExactly | htdocs/wp-content/install.php:298-310 | when one matches, active_plugins is replaced by a sorted list holding exactly the matched installed paths, each as often as installed, and nothing else changes |
| Plugins.ActivationUntouched | htdocs/wp-content/install.php:307 | activation writes no option but active_plugins |
| Plugins.ActivationStep | htdocs/wp-content/install.php:298-307 | one loop turn: a matched path joins the sorted selection, which is then non-empty; any other path leaves it alone |
| Plugins.RewriteActivePlugins | htdocs/wp-content/install.php:305-307 | writing a non-empty accumulator replaces whatever an earlier turn wrote |
| Install.ChooseLanguage | htdocs/wp-content/install.php:37-41 | WPLANG is the language when it is PHP-truthy, 'fi' otherwise |
| Install.Resolve | htdocs/wp-content/install.php:60-75 | exactly one of three branches: existing user iff the login exists; generated password iff it does not and the trimmed password is falsy; chosen password otherwise |
| Install.PasswordMessage | htdocs/wp-content/install.php:65-74 | each branch's message: the translated random-password note, the translated chosen-password text wrapped in <em>, or the translated inherited note; returned through Install.Site.ResolveAdmin and Install.Site.Install |
| Install.SiteWrites | htdocs/wp-content/install.php:37-54 | wp_install()'s option writes in order, the pingback flag only for a non-public site; stated by Install.SiteOptionsHold and Install.SiteNamesNotDefaults |
| Install.SiteOptionsHold | htdocs/wp-content/install.php:37-54 | after the whole install: WPLANG chosen or 'fi', siteurl the guessed URL, title, visibility and tagline as written, default_pingback_flag 0 whether public or not, admin_email the given one or, on a network, the administrator's |
| Install.OptionDefaultsWritten | htdocs/wp-content/install.php:118-146 | the defaults: timezone Europe/Helsinki, comment_moderation 1, comment_whitelist, default_comment_status, default_ping_status and default_pingback_flag 0, permalink '/%postname%/' |
| Install.WithOptionDefaults | htdocs/wp-content/install.php:118-146 | the options after the seven regional and discussion writes; stated by Install.OptionDefaultsWritten and Install.OptionDefaultsUntouched |
| Install.OptionDefaultsUntouched | htdocs/wp-content/install.php:118-146 | those writes change no other option |
| Install.OptionDefaultsKept | htdocs/wp-content/install.php:118-276 | later writes to other names keep those defaults |
| Install.DefaultsHold | htdocs/wp-content/install.php:118-276 | the defaults still hold when wp_install_defaults() returns, whatever the options held before |
| Install.DefaultsUntouched | htdocs/wp-content/install.php:112-277 | wp_install_defaults() writes only the option names it lists |
| Install.SeededOptions | htdocs/wp-content/install.php:118-236 | the options before activation: the defaults, the widgets, the network admin_email and default_category, in that order; stated by Install.DefaultsHold and Install.AdminEmailAndCategoryHold |
| Install.DefaultedOptions | htdocs/wp-content/install.php:118-276 | those options after the plugin activation; stated by Install.DefaultsHold, Install.DefaultsUntouched and Install.SiteOptionsHold |
| Install.AdminEmailAndCategoryHold | htdocs/wp-content/install.php:198-239 | on a network an existing admin_email ends as the administrator's address, otherwise unchanged; with global terms default_category ends as the category id |
| Install.WidgetIdsSpec | htdocs/wp-content/install.php:191 | the sidebar ids are, position by position, instance 2 of each listed widget: "search-2" for "search" |
| Install.SidebarWidgetsConfigured | htdocs/wp-content/install.php:185-191 | each value of sidebar-1 names instance 2 of a widget whose option is written with that instance; the inactive bucket is empty |
| Install.WithWidgetDefaults | htdocs/wp-content/install.php:185-191 | the options after the six widget writes and the sidebar layout; stated by Install.SidebarWidgetsConfigured and Install.WidgetDefaultsUntouched |
| Install.WidgetDefaultsUntouched | htdocs/wp-content/install.php:185-191 | the widget writes change only the widget options and sidebars_widgets |
| Install.NetworkAdminEmailUntouched | htdocs/wp-content/install.php:204 | the network UPDATE changes no option but admin_email |
| Install.NetworkAdminEmail | htdocs/wp-content/install.php:204 | on a network an existing admin_email becomes the administrator's address, otherwise nothing; stated by Install.NetworkAdminEmailUntouched and Install.AdminEmailAndCategoryHold |
| Install.DefaultCategoryUntouched | htdocs/wp-content/install.php:236 | setting default_category changes no other option |
| Install.DefaultCategoryOption | htdocs/wp-content/install.php:236 | with global terms default_category becomes the category id, otherwise nothing; stated by Install.DefaultCategoryUntouched and Install.AdminEmailAndCategoryHold |
| Install.DefaultTerm | htdocs/wp-content/install.php:241-248 | the terms row: the translated category name, its slug, group 0, the category id; inserted by Install.Site.CreateDefaultCategory |
| Install.DefaultTermTaxonomy | htdocs/wp-content/install.php:250-258 | the term_taxonomy row: count 0, empty description, parent 0, taxonomy 'category', the category id; inserted by Install.Site.CreateDefaultCategory |
| Install.OptionDefaultNamesApart | htdocs/wp-content/install.php:118-236 | the regional and discussion names are not among the later writes |
| Install.SiteNamesNotDefaults | htdocs/wp-content/install.php:37-54 | wp_install_defaults() writes none of WPLANG, blogname, blog_public, blogdescription, siteurl |
| Install.CategoryId | htdocs/wp-content/install.php:222-239 | the default category id: 1 without global terms, else the network category's id for the slug, existing or newly inserted; stated by Install.CategoryLookupOrInsert |
| Install.SeededCategories | htdocs/wp-content/install.php:222-239 | the network categories after the lookup-or-insert; stated by Install.CategoryLookupOrInsert |
| Install.CategoryLookupOrInsert | htdocs/wp-content/install.php:222-239 | with global terms the id is the one the network categories hold for the slug afterwards, inserted only when the slug is new; without them it is 1 and nothing is inserted |
| Install.FirstPostContent | htdocs/wp-content/install.php:153-163 | the first post's text: the Finnish welcome on a single site; on a network the first_post text, or the translated stock template when it is empty, with both placeholders replaced; stated by Install.NetworkFirstPostVerbatim and Install.NetworkTemplateFilled |
| Install.FirstPost | htdocs/wp-content/install.php:165-181 | the posts row inserted: that text, the administrator as author, the clock's times, the translated title and slug, GUID home + '/?p=1'; appended by Install.Site.InsertFirstPost |
| Install.NetworkFirstPostVerbatim | htdocs/wp-content/install.php:153-160 | a network first_post text without placeholders is used as written |
| Install.TemplatePlaceholdersOnce | htdocs/wp-content/install.php:157 | in the stock template each placeholder occurs only in its own slot, and the name placeholder never contains the URL placeholder |
| Install.NetworkTemplateFilled | htdocs/wp-content/install.php:153-160 | with an empty network first_post and the stock template untranslated, the post reads "Welcome to <a href="URL">NAME</a>. This is your first post. Edit or delete it, then start blogging!" with the network's home URL and name, provided the URL holds no SITE_NAME |
| Install.WelcomePanelAfterCleanup | htdocs/wp-content/install.php:193-265 | whichever first show_welcome_panel write happened (1, 2 or none), the clean-up and the last write leave it 0 and the rest of the user meta as the clean-up alone leaves it |
| Install.OfferedWelcomePanel | htdocs/wp-content/install.php:193-196 | the first show_welcome_panel write: 1 on a single site, 2 on a network for a user who is not a super admin and lacks the row, otherwise nothing; stated by Install.WelcomePanelAfterCleanup and Install.Site.OfferWelcomePanel |
| Install.KeptOnNetworkSite | htdocs/wp-content/install.php:207-208 | a row survives the two DELETEs unless another user's key is this site's user_level or capabilities; stated by Install.CleanupSteps |
| Install.KeptOnNetwork | htdocs/wp-content/install.php:206-212 | that, and not the first site's capabilities row of an administrator who is neither super admin nor user 1; stated by Install.NetworkCleanup |
| Install.WithoutOthers | htdocs/wp-content/install.php:207-208 | one DELETE: other users' rows under one key removed; composed into Install.PrunedMeta by Install.CleanupSteps |
| Install.PrunedMeta | htdocs/wp-content/install.php:206-212 | the user meta after the clean-up, unchanged on a single site; stated by Install.NetworkCleanup, Install.CleanupSteps and Install.PasswordNagSurvives |
| Install.PrunedRoles | htdocs/wp-content/install.php:206-212 | the roles after the clean-up: on a network only the administrator's; stated by Install.AdministratorOnly |
| Install.NetworkCleanup | htdocs/wp-content/install.php:206-212 | the clean-up only deletes; on a network no other user keeps a user_level or capabilities row on this site; rows under other keys, and every row on a single site, are kept |
| Install.CleanupSteps | htdocs/wp-content/install.php:207-212 | the two DELETEs and the conditional delete, one after the other, leave exactly the pruned user meta |
| Install.PasswordNagSurvives | htdocs/wp-content/install.php:67-212 | the password nag flag set for a new administrator survives the clean-up |
| Install.AdministratorOnly | htdocs/wp-content/install.php:78-212 | after set_role() and the clean-up the user is an administrator; on a network no other user keeps a role on the site |
| Install.Site.constructor | htdocs/wp-content/install.php:34-35 | the state populate_options() and populate_roles() leave, possibly with users already in a shared table |
| Install.Site.CreateUser | htdocs/wp-content/install.php:66-72 | wp_create_user() adds one login and one account under the next id and keeps the table consistent |
| Install.Site.ResolveAdmin | htdocs/wp-content/install.php:60-78 | the three branches with their password, message, nag flag, email flag and user table; a created user never gets an empty password; administrator is the user's role in every branch |
| Install.Site.WriteSiteOptions | htdocs/wp-content/install.php:37-54 | the options are the old ones after the site writes, pingback flag only for a non-public site |
| Install.Site.SetUpSite | htdocs/wp-content/install.php:37-78 | the site writes followed by the administrator resolution, with its role |
| Install.Site.Install | htdocs/wp-content/install.php:27-100 | every field's new value as the drop-in's own lines leave it, and the returned record: url is the guessed URL that siteurl holds; id, password and message come from the branch; role administrator, and on a network the only role on the site; other users' permission rows pruned; show_welcome_panel 0 |
| Install.Site.InsertFirstPost | htdocs/wp-content/install.php:148-181 | one post is appended, with GUID home + '/?p=1' and the single-site or network text |
| Install.Site.WriteOptionDefaults | htdocs/wp-content/install.php:118-146 | the options after the regional and discussion writes |
| Install.Site.WriteWidgetDefaults | htdocs/wp-content/install.php:185-191 | the options after the widget and sidebar writes |
| Install.Site.OfferWelcomePanel | htdocs/wp-content/install.php:193-196 | 1 on a single site; 2 on a network unless super admin or already set |
| Install.Site.ForceNetworkAdminEmail | htdocs/wp-content/install.php:198-204 | on a network, an existing admin_email becomes the administrator's address |
| Install.Site.RemoveOtherPermissions | htdocs/wp-content/install.php:206-212 | the user meta and roles become the pruned ones of Install.NetworkCleanup |
| Install.Site.CreateDefaultCategory | htdocs/wp-content/install.php:217-258 | the category id, the network category insert, default_category, and one terms and one term_taxonomy row |
| Install.Site.WriteContent | htdocs/wp-content/install.php:118-196 | the defaults, the first post, the widgets and the first welcome-panel write |
| Install.Site.FinishDefaults | htdocs/wp-content/install.php:198-276 | the admin_email UPDATE, the clean-up of other users' permissions, the category, show_welcome_panel 0 and the plugin activation |
| Install.Site.InstallDefaults | htdocs/wp-content/install.php:112-277 | every field's new value as wp_install_defaults()'s own lines leave it; show_welcome_panel ends 0; on a network the administrator is the only user with a role on the site |
| Install.Site.ActivatePlugins | htdocs/wp-content/install.php:282-311 | the loop leaves exactly the options of the activation specification |

## Left out

- Framework setup calls (`wp_check_mysql_version`, `wp_cache_flush`, `make_db_current_silent`, `populate_options`, `populate_roles`) have no code in this repository. Their effect is the initial state given to the constructor.
- The deprecated-argument notice is a log message only.
- Rewrite rules (`wp_install_maybe_enable_pretty_permalinks`, `flush_rewrite_rules`, `$wp_rewrite`) are external routing machinery.
- Hooks (`do_action`) and the `include_once` of plugin files run code that is not part of this repository.
- `wp_new_blog_notification()` does nothing in this drop-in.
- Install.Site.ResolveAdmin: `set_role('administrator')` (line 78) is modelled as a write to `roles` only, and `roles` alone gives this site's capabilities row for the administrator; a capabilities row already in `userMeta` under that user is left as it was. The `user_level` row `set_role()` also writes, and the default meta rows `wp_create_user()` (lines 66 and 72) writes, are not modelled. `userMeta` holds the rows the drop-in's own lines write or delete, on top of whatever the initial state held; this holds for the contracts of Install.Site.SetUpSite, Install.Site.InstallDefaults and Install.Site.Install too.
- The network clean-up (lines 206-212) is modelled on the user-meta map and on `roles`, which stands for this site's `capabilities` rows. The model assumes the table prefix is not the network prefix followed by `1_`, so the first site's `capabilities` key is never this site's.
- The `term_relationships` insert (line 182) uses `$cat_tt_id` before it is assigned, which is undefined-variable behaviour.
- `__()`, `_x()`, `sanitize_title()` and `esc_url()` are framework functions. The first three are uninterpreted functions in `Framework`; `esc_url(network_home_url())` is one given string.
- `in_array()` uses loose comparison. The model compares plugin folders as strings, so it assumes no folder or allowlist name is a numeric string (`'1' == '01'` holds in PHP).
- `sort()` on numeric-looking strings compares them as numbers. Plugin paths end in `.php`, so the model uses `strcmp()` order.
- `wp_create_user()` is modelled as always succeeding. Password hashing and the other columns of the users row are not modelled.
- `update_user_option(..., true)` writes a global user option. The model keeps it in the same user-meta map as `update_user_meta()`.
- The network categories table is modelled as a map from slug to id; the name and timestamp columns of the insert are dropped.
- The clock, the generated password, the home URL and the network's first_post come in as values. Their creation (randomness, database reads) is not modelled.
