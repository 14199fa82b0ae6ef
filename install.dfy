/** The install drop-in: wp_install(), wp_install_defaults() and
    wp_palvelu_install_activate_plugins() as methods of a site whose database
    tables are the fields of class Site. What the framework computes (the
    guessed URL, the generated password, the installed plugins, multisite
    flags, the clock, the translations) arrives in a Framework value. */
module Install {

  import opened Php
  import opened StringOrder
  import opened Store
  import opened Plugins

  /** The results of framework calls the drop-in makes but does not define. */
  datatype Framework = Framework(
    guessedUrl: string,                  // wp_guess_url()
    generatedPassword: string,           // wp_generate_password(12, false)
    home: string,                        // get_option('home')
    now: string,                         // current_time('mysql')
    nowGmt: string,                      // current_time('mysql', 1)
    multisite: bool,                     // is_multisite()
    superAdmins: set<nat>,               // the ids for which is_super_admin() holds
    networkFirstPost: Option<string>,    // get_site_option('first_post'); None when unset
    networkHomeUrl: string,              // esc_url(network_home_url())
    networkSiteName: string,             // get_current_site()->site_name
    globalTermsEnabled: bool,            // global_terms_enabled()
    tablePrefix: string,                 // $table_prefix, this site's table prefix
    basePrefix: string,                  // $wpdb->base_prefix, the network's table prefix
    insertedCategoryId: nat,             // $wpdb->insert_id after inserting into sitecategories
    installedPlugins: seq<string>,       // the keys of get_plugins(), in its order
    autoActivatePlugins: Option<string>, // WP_AUTO_ACTIVATE_PLUGINS; None when not defined
    translate: string -> string,         // __()
    slug: (string, string) -> string)    // sanitize_title(_x(text, context))

  /** A character wp_generate_password() draws from when special characters are off. */
  predicate IsAlphanumeric(c: char) {
    ('a' <= c <= 'z') || ('A' <= c <= 'Z') || ('0' <= c <= '9')
  }

  /** What wp_generate_password(12, false) returns: twelve letters and digits. */
  predicate IsGeneratedPassword(p: string) {
    |p| == 12 && forall i :: 0 <= i < |p| ==> IsAlphanumeric(p[i])
  }

  /** The array wp_install() returns. */
  datatype InstallResult = InstallResult(url: string, userId: nat, password: string, passwordMessage: string)

  const DefaultLanguage := "fi"
  const Tagline := "Uusi WordPress sivusto"
  const Administrator := "administrator"
  const PasswordNagKey := "default_password_nag"
  const WelcomePanelKey := "show_welcome_panel"
  const RandomPasswordMessage :=
    "<strong><em>Note that password</em></strong>" + " carefully! It is a <em>random</em> password"
    + " that was generated just for you."
  const ChosenPasswordText := "Your chosen password."
  const InheritedPasswordMessage := "User already exists. Password inherited."
  const Timezone := "Europe/Helsinki"
  const PermalinkStructure := "/%postname%/"
  const FirstPostTitle := "Tervetuloa uudelle sivullesi!"
  const FirstPostSlugText := "tervetuloa"
  const FirstPostGuidSuffix := "/?p=1"
  /** The first post of a single site, piece by piece: a greeting, the
      service's logo linking to its home page, an invitation to log in
      and a link to the help pages, separated by line breaks. */
  const WelcomeGreeting := "Hienoa, että päätit valita WP-palvelun!"
  const LineBreak := "<br>"
  const LogoLinkOpen := "<a href='https://wp-palvelu.fi/'>"
  const LogoImageClass := "<img class='size-medium wp-image-6 alignright'"
  const LogoImageSource := " src='https://wp-palvelu.fi/wp-palvelu-logo-blue.png'"
  const LogoImageRest := " alt='wp-palvelu-logo' width='300' height='60' />"
  const LinkClose := "</a>"
  const WelcomeLogin := "Voit aloittaa <a href='/wp-login.php'>kirjautumalla sisälle</a>."
  const WelcomeHelp := "Saat apua kysymyksiin lukemalla:"
  const HelpLink := "<a href='https://wp-palvelu.fi/ohjeet/'>wp-palvelu.fi/ohjeet/</a>"
  const SingleSiteWelcome :=
    WelcomeGreeting + LineBreak + LineBreak
    + LogoLinkOpen + LogoImageClass + LogoImageSource + LogoImageRest + LinkClose
    + WelcomeLogin + LineBreak + WelcomeHelp + LineBreak + HelpLink
  /** The placeholders a network's first post may hold. */
  const SiteUrlPlaceholder := "SITE_URL"
  const SiteNamePlaceholder := "SITE_NAME"
  /** The stock network first post: a welcome linking the site name to the
      site URL, both placeholders, and the usual first-post sentences. */
  const NetworkWelcomeLead := "Welcome to <a href="
  const FirstPostSentence := ". This is your first post."
  const EditSentence := " Edit or delete it,"
  const BloggingSentence := " then start blogging!"
  const NetworkWelcomeTail := LinkClose + FirstPostSentence + EditSentence + BloggingSentence
  const NetworkWelcomeTemplate :=
    NetworkWelcomeLead + "\"" + SiteUrlPlaceholder + "\">" + SiteNamePlaceholder + NetworkWelcomeTail
  const CategoryText := "Uncategorized"

  /** The default category's slug. */
  function CategorySlug(env: Framework): string {
    env.slug(CategoryText, "Default category slug")
  }

  /** The WPLANG value: the chosen language when it is truthy, Finnish otherwise. */
  function ChooseLanguage(language: string): (lang: string)
    ensures Truthy(lang)
    ensures Truthy(language) ==> lang == language
    ensures !Truthy(language) ==> lang == DefaultLanguage
  {
    if Truthy(language) then language else DefaultLanguage
  }

  /** How wp_install() obtains the administrator: create it with a generated
      password, create it with the chosen password, or take the existing user. */
  datatype Resolution = GeneratedPassword | ChosenPassword | ExistingUser

  /** The three-way decision on whether the user name is taken and whether the
      trimmed password is empty in PHP's sense. */
  function Resolve(userExists: bool, trimmedPassword: string): (r: Resolution)
    ensures r == ExistingUser <==> userExists
    ensures r == GeneratedPassword <==> !userExists && !Truthy(trimmedPassword)
    ensures r == ChosenPassword <==> !userExists && Truthy(trimmedPassword)
  {
    if !userExists && !Truthy(trimmedPassword) then GeneratedPassword
    else if !userExists then ChosenPassword
    else ExistingUser
  }

  /** The password message of each branch, translated; the chosen-password
      message is wrapped in <em> outside the translation. */
  function PasswordMessage(env: Framework, r: Resolution): string {
    match r
    case GeneratedPassword => env.translate(RandomPasswordMessage)
    case ChosenPassword => "<em>" + env.translate(ChosenPasswordText) + "</em>"
    case ExistingUser => env.translate(InheritedPasswordMessage)
  }

  /** The writes wp_install() makes before it resolves the administrator:
      language, title, e-mail, visibility, tagline and URL, and the pingback
      flag only for a site that is not public. */
  function SiteWrites(env: Framework, blogTitle: string, userEmail: string, public: bool, language: string): seq<(string, Value)> {
    [("WPLANG", Str(ChooseLanguage(language))), ("blogname", Str(blogTitle)), ("admin_email", Str(userEmail)),
     ("blog_public", Bool(public)), ("blogdescription", Str(env.translate(Tagline))), ("siteurl", Str(env.guessedUrl))]
    + (if public then [] else [("default_pingback_flag", Int(0))])
  }

  /** The entries of an array holding `fields` under string keys, in order. */
  function FieldEntries(fields: seq<(string, Value)>): seq<(Key, Value)> {
    if fields == [] then [] else [(StrKey(fields[0].0), fields[0].1)] + FieldEntries(fields[1..])
  }

  /** An array holding `fields` under string keys, in order. */
  function Fields(fields: seq<(string, Value)>): Value {
    Arr(FieldEntries(fields))
  }

  /** A widget option: the single instance 2 and the multi-widget marker. */
  function WidgetOption(instance: seq<(string, Value)>): Value {
    Arr([(IntKey(2), Fields(instance)), (StrKey("_multiwidget"), Int(1))])
  }

  /** The id of instance 2 of a widget, as a sidebar lists it: "search-2"
      for the search widget. */
  function WidgetId(base: string): string {
    base + "-2"
  }

  /** The option holding a widget's instances: "widget_search" for the
      search widget. */
  function WidgetOptionName(base: string): string {
    "widget_" + base
  }

  /** A widget option's name starts with "widget_". */
  lemma WidgetOptionNameStart(base: string)
    ensures |WidgetOptionName(base)| == 7 + |base| && WidgetOptionName(base)[0] == 'w'
  {
  }

  /** The widget option names start with a 'w'. */
  lemma WidgetOptionNamesStart()
    ensures forall k :: k in WidgetOptionNames && k != "sidebars_widgets" ==> k[0] == 'w'
  {
    forall base | base in SidebarWidgetBases {
      WidgetOptionNameStart(base);
    }
  }

  /** The widgets placed in sidebar-1, in order. */
  const SidebarWidgetBases: seq<string> :=
    ["search", "recent-posts", "recent-comments", "archives", "categories", "meta"]

  /** The ids of instance 2 of each widget, in order. */
  function WidgetIds(bases: seq<string>): seq<string> {
    if bases == [] then [] else [WidgetId(bases[0])] + WidgetIds(bases[1..])
  }

  /** The i-th id names instance 2 of the i-th widget. */
  lemma {:induction false} WidgetIdsSpec(bases: seq<string>)
    ensures |WidgetIds(bases)| == |bases|
    ensures forall i :: 0 <= i < |bases| ==> WidgetIds(bases)[i] == WidgetId(bases[i])
  {
    if bases != [] {
      WidgetIdsSpec(bases[1..]);
    }
  }

  /** The widget ids listed in sidebar-1: "search-2", "recent-posts-2", and so on. */
  const SidebarWidgets: seq<string> := WidgetIds(SidebarWidgetBases)

  /** The regional and discussion defaults wp_install_defaults() writes
      first, in order. */
  const OptionDefaultWrites: seq<(string, Value)> := [
      ("timezone_string", Str(Timezone)),
      ("comment_moderation", Int(1)),
      ("comment_whitelist", Int(0)),
      ("default_comment_status", Int(0)),
      ("default_ping_status", Int(0)),
      ("default_pingback_flag", Int(0)),
      ("permalink_structure", Str(PermalinkStructure))]

  /** The options once those defaults are written. */
  function WithOptionDefaults(options: map<string, Value>): map<string, Value> {
    Write(options, OptionDefaultWrites)
  }

  /** The settings of each default widget. */
  const SearchWidget: Value := WidgetOption([("title", Str(""))])
  const RecentPostsWidget: Value := WidgetOption([("title", Str("")), ("number", Int(5))])
  const RecentCommentsWidget: Value := WidgetOption([("title", Str("")), ("number", Int(5))])
  const ArchivesWidget: Value := WidgetOption([("title", Str("")), ("count", Int(0)), ("dropdown", Int(0))])
  const CategoriesWidget: Value :=
    WidgetOption([("title", Str("")), ("count", Int(0)), ("hierarchical", Int(0)), ("dropdown", Int(0))])
  const MetaWidget: Value := WidgetOption([("title", Str(""))])

  /** The sidebar layout: nothing inactive, the six widgets in sidebar-1. */
  const SidebarsLayout: Value := Arr([
      (StrKey("wp_inactive_widgets"), Arr([])),
      (StrKey("sidebar-1"), ListValue(SidebarWidgets)),
      (StrKey("array_version"), Int(3))])

  /** The default widgets and the sidebar layout holding them, in order; each
      write replaces the option whole. */
  const WidgetWrites: seq<(string, Value)> := [
      (WidgetOptionName("search"), SearchWidget),
      (WidgetOptionName("recent-posts"), RecentPostsWidget),
      (WidgetOptionName("recent-comments"), RecentCommentsWidget),
      (WidgetOptionName("archives"), ArchivesWidget),
      (WidgetOptionName("categories"), CategoriesWidget),
      (WidgetOptionName("meta"), MetaWidget),
      ("sidebars_widgets", SidebarsLayout)]

  /** The options once the widgets and the sidebar layout are written. */
  function WithWidgetDefaults(options: map<string, Value>): map<string, Value> {
    Write(options, WidgetWrites)
  }

  /** Every widget id placed in the sidebar names instance 2 of a widget
      whose option the defaults write, and the inactive bucket is empty. */
  lemma SidebarWidgetsConfigured(options: map<string, Value>)
    ensures var after := WithWidgetDefaults(options);
      && |SidebarWidgets| == |SidebarWidgetBases|
      && (forall i :: 0 <= i < |SidebarWidgets| ==>
            var option := WidgetOptionName(SidebarWidgetBases[i]);
            && SidebarWidgets[i] == WidgetId(SidebarWidgetBases[i])
            && option in after && after[option].Arr? && |after[option].entries| == 2
            && after[option].entries[0].0 == IntKey(2))
      && "sidebars_widgets" in after
      && after["sidebars_widgets"].Arr? && |after["sidebars_widgets"].entries| == 3
      && after["sidebars_widgets"].entries[0] == (StrKey("wp_inactive_widgets"), Arr([]))
      && after["sidebars_widgets"].entries[1].0 == StrKey("sidebar-1")
      && ListItems(after["sidebars_widgets"].entries[1].1) == Some(SidebarWidgets)
  {
    var writes := WidgetWrites;
    WidgetIdsSpec(SidebarWidgetBases);
    forall i | 0 <= i < |SidebarWidgets|
      ensures var option := WidgetOptionName(SidebarWidgetBases[i]);
        && SidebarWidgets[i] == WidgetId(SidebarWidgetBases[i])
        && Lookup(WithWidgetDefaults(options), option) == Some(writes[i].1)
        && writes[i].1.Arr? && |writes[i].1.entries| == 2 && writes[i].1.entries[0].0 == IntKey(2)
    {
      WriteLookup(options, writes, i);
    }
    WriteLookup(options, writes, 6);
    ListRoundTrip(SidebarWidgets);
  }

  /** The default category id: looked up by slug in the network's categories,
      or the id the insert received, when global terms are on; 1 otherwise. */
  function CategoryId(siteCategories: map<string, nat>, env: Framework): nat {
    if !env.globalTermsEnabled then 1
    else if CategorySlug(env) in siteCategories then siteCategories[CategorySlug(env)]
    else env.insertedCategoryId
  }

  /** The network's categories after the lookup-or-insert. */
  function SeededCategories(siteCategories: map<string, nat>, env: Framework): map<string, nat> {
    if env.globalTermsEnabled && CategorySlug(env) !in siteCategories
    then siteCategories[CategorySlug(env) := env.insertedCategoryId]
    else siteCategories
  }

  /** With global terms on, the category id is the one the network's
      categories hold for the slug afterwards; without, it is 1 and the
      network's categories are left alone. */
  lemma CategoryLookupOrInsert(siteCategories: map<string, nat>, env: Framework)
    ensures env.globalTermsEnabled ==>
      var after := SeededCategories(siteCategories, env);
      && CategorySlug(env) in after
      && after[CategorySlug(env)] == CategoryId(siteCategories, env)
      && (CategorySlug(env) in siteCategories ==> after == siteCategories)
      && after.Keys == siteCategories.Keys + {CategorySlug(env)}
    ensures !env.globalTermsEnabled ==>
      CategoryId(siteCategories, env) == 1 && SeededCategories(siteCategories, env) == siteCategories
  {
  }

  /** On a network, admin_email is forced to the administrator's address by
      an UPDATE, which changes the option only where it exists. */
  function NetworkAdminEmail(options: map<string, Value>, env: Framework, adminEmail: string): map<string, Value> {
    if env.multisite && "admin_email" in options then options["admin_email" := Str(adminEmail)] else options
  }

  /** With global terms, the chosen category becomes default_category. */
  function DefaultCategoryOption(options: map<string, Value>, env: Framework, categoryId: nat): map<string, Value> {
    if env.globalTermsEnabled then options["default_category" := Int(categoryId)] else options
  }

  /** The options wp_install_defaults() leaves before it activates plugins. */
  function SeededOptions(options: map<string, Value>, env: Framework, adminEmail: string, categoryId: nat): map<string, Value> {
    DefaultCategoryOption(NetworkAdminEmail(WithWidgetDefaults(WithOptionDefaults(options)), env, adminEmail), env, categoryId)
  }

  /** The options once wp_install_defaults() is done. */
  function DefaultedOptions(options: map<string, Value>, env: Framework, adminEmail: string, categoryId: nat): map<string, Value> {
    ActivatedOptions(SeededOptions(options, env, adminEmail, categoryId), env.installedPlugins, env.autoActivatePlugins)
  }

  /** The names of the regional and discussion defaults. */
  const OptionDefaultNames: set<string> :=
    {"timezone_string", "comment_moderation", "comment_whitelist", "default_comment_status",
     "default_ping_status", "default_pingback_flag", "permalink_structure"}

  /** The names of the widget options and of the sidebar layout. */
  const WidgetOptionNames: set<string> :=
    {WidgetOptionName("search"), WidgetOptionName("recent-posts"), WidgetOptionName("recent-comments"), WidgetOptionName("archives"),
     WidgetOptionName("categories"), WidgetOptionName("meta"), "sidebars_widgets"}

  /** Every option name wp_install_defaults() may write. */
  const DefaultsWrittenNames: set<string> :=
    OptionDefaultNames + WidgetOptionNames + {"admin_email", "default_category", "active_plugins"}

  /** The regional and discussion defaults are in place: Helsinki time,
      moderated comments, comments, pings and pingbacks off by default, and
      pretty permalinks. */
  predicate HasOptionDefaults(options: map<string, Value>) {
    && Lookup(options, "timezone_string") == Some(Str(Timezone))
    && Lookup(options, "comment_moderation") == Some(Int(1))
    && Lookup(options, "comment_whitelist") == Some(Int(0))
    && Lookup(options, "default_comment_status") == Some(Int(0))
    && Lookup(options, "default_ping_status") == Some(Int(0))
    && Lookup(options, "default_pingback_flag") == Some(Int(0))
    && Lookup(options, "permalink_structure") == Some(Str(PermalinkStructure))
  }

  /** The first writes put the regional and discussion defaults in place. */
  lemma OptionDefaultsWritten(options: map<string, Value>)
    ensures HasOptionDefaults(WithOptionDefaults(options))
  {
    var writes := OptionDefaultWrites;
    WriteLookup(options, writes, 0);
    WriteLookup(options, writes, 1);
    WriteLookup(options, writes, 2);
    WriteLookup(options, writes, 3);
    WriteLookup(options, writes, 4);
    WriteLookup(options, writes, 5);
    WriteLookup(options, writes, 6);
  }

  /** They write no other option. */
  lemma OptionDefaultsUntouched(options: map<string, Value>)
    ensures Untouched(options, WithOptionDefaults(options), OptionDefaultNames)
  {
    WriteUntouched(options, OptionDefaultWrites);
    forall i | 0 <= i < |OptionDefaultWrites|
      ensures OptionDefaultWrites[i].0 in OptionDefaultNames
    {
    }
  }

  /** Later writes to other names keep the regional and discussion defaults. */
  lemma OptionDefaultsKept(before: map<string, Value>, after: map<string, Value>, written: set<string>)
    requires HasOptionDefaults(before) && Untouched(before, after, written)
    requires OptionDefaultNames !! written
    ensures HasOptionDefaults(after)
  {
    assert "timezone_string" in OptionDefaultNames && "comment_moderation" in OptionDefaultNames;
    assert "comment_whitelist" in OptionDefaultNames && "default_comment_status" in OptionDefaultNames;
    assert "default_ping_status" in OptionDefaultNames && "default_pingback_flag" in OptionDefaultNames;
    assert "permalink_structure" in OptionDefaultNames;
  }

  /** The widget writes touch only the widget options and the sidebar layout. */
  lemma WidgetDefaultsUntouched(options: map<string, Value>)
    ensures Untouched(options, WithWidgetDefaults(options), WidgetOptionNames)
  {
    WriteUntouched(options, WidgetWrites);
    forall i | 0 <= i < |WidgetWrites|
      ensures WidgetWrites[i].0 in WidgetOptionNames
    {
    }
  }

  /** The network UPDATE of admin_email touches nothing else. */
  lemma NetworkAdminEmailUntouched(options: map<string, Value>, env: Framework, adminEmail: string)
    ensures Untouched(options, NetworkAdminEmail(options, env, adminEmail), {"admin_email"})
  {
  }

  /** Setting default_category touches nothing else. */
  lemma DefaultCategoryUntouched(options: map<string, Value>, env: Framework, categoryId: nat)
    ensures Untouched(options, DefaultCategoryOption(options, env, categoryId), {"default_category"})
  {
  }

  /** The regional and discussion defaults are not among the later writes. */
  lemma OptionDefaultNamesApart()
    ensures OptionDefaultNames !! WidgetOptionNames
    ensures OptionDefaultNames !! {"admin_email"}
    ensures OptionDefaultNames !! {"default_category"}
    ensures OptionDefaultNames !! {"active_plugins"}
  {
    WidgetOptionNamesStart();
  }

  /** wp_install_defaults() writes only the option names it lists. */
  lemma DefaultsUntouched(options: map<string, Value>, env: Framework, adminEmail: string, categoryId: nat)
    ensures Untouched(options, DefaultedOptions(options, env, adminEmail, categoryId), DefaultsWrittenNames)
  {
    var regional := WithOptionDefaults(options);
    var widgets := WithWidgetDefaults(regional);
    var email := NetworkAdminEmail(widgets, env, adminEmail);
    var seeded := DefaultCategoryOption(email, env, categoryId);
    OptionDefaultsUntouched(options);
    WidgetDefaultsUntouched(regional);
    NetworkAdminEmailUntouched(widgets, env, adminEmail);
    DefaultCategoryUntouched(email, env, categoryId);
    ActivationUntouched(seeded, env.installedPlugins, env.autoActivatePlugins);
    UntouchedChain(options, regional, widgets, OptionDefaultNames, WidgetOptionNames);
    UntouchedChain(options, widgets, email, OptionDefaultNames + WidgetOptionNames, {"admin_email"});
    UntouchedChain(options, email, seeded, OptionDefaultNames + WidgetOptionNames + {"admin_email"}, {"default_category"});
    UntouchedChain(options, seeded, DefaultedOptions(options, env, adminEmail, categoryId),
                   OptionDefaultNames + WidgetOptionNames + {"admin_email"} + {"default_category"}, {"active_plugins"});
  }

  /** After wp_install_defaults() the regional and discussion defaults hold,
      the pingback flag among them, whatever the options held before. */
  lemma DefaultsHold(options: map<string, Value>, env: Framework, adminEmail: string, categoryId: nat)
    ensures HasOptionDefaults(DefaultedOptions(options, env, adminEmail, categoryId))
  {
    var regional := WithOptionDefaults(options);
    var widgets := WithWidgetDefaults(regional);
    var email := NetworkAdminEmail(widgets, env, adminEmail);
    var seeded := DefaultCategoryOption(email, env, categoryId);
    OptionDefaultNamesApart();
    OptionDefaultsWritten(options);
    WidgetDefaultsUntouched(regional);
    OptionDefaultsKept(regional, widgets, WidgetOptionNames);
    NetworkAdminEmailUntouched(widgets, env, adminEmail);
    OptionDefaultsKept(widgets, email, {"admin_email"});
    DefaultCategoryUntouched(email, env, categoryId);
    OptionDefaultsKept(email, seeded, {"default_category"});
    ActivationUntouched(seeded, env.installedPlugins, env.autoActivatePlugins);
    OptionDefaultsKept(seeded, DefaultedOptions(options, env, adminEmail, categoryId), {"active_plugins"});
  }

  /** On a network an existing admin_email ends as the administrator's
      address; elsewhere it is as it was. With global terms default_category
      ends as the category's id. */
  lemma AdminEmailAndCategoryHold(options: map<string, Value>, env: Framework, adminEmail: string, categoryId: nat)
    ensures var after := DefaultedOptions(options, env, adminEmail, categoryId);
      && Lookup(after, "admin_email") ==
           (if env.multisite && "admin_email" in options then Some(Str(adminEmail)) else Lookup(options, "admin_email"))
      && (env.globalTermsEnabled ==> Lookup(after, "default_category") == Some(Int(categoryId)))
  {
    var regional := WithOptionDefaults(options);
    var widgets := WithWidgetDefaults(regional);
    var email := NetworkAdminEmail(widgets, env, adminEmail);
    var seeded := DefaultCategoryOption(email, env, categoryId);
    OptionDefaultsUntouched(options);
    WidgetDefaultsUntouched(regional);
    UntouchedChain(options, regional, widgets, OptionDefaultNames, WidgetOptionNames);
    AdminEmailNotEarlier();
    assert Lookup(widgets, "admin_email") == Lookup(options, "admin_email");
    DefaultCategoryUntouched(email, env, categoryId);
    ActivationUntouched(seeded, env.installedPlugins, env.autoActivatePlugins);
    assert Lookup(seeded, "admin_email") == Lookup(email, "admin_email");
  }

  /** admin_email is neither a regional default nor a widget option. */
  lemma AdminEmailNotEarlier()
    ensures "admin_email" !in OptionDefaultNames + WidgetOptionNames
  {
    WidgetOptionNamesStart();
  }

  /** The names wp_install() writes itself, but for admin_email and the
      pingback flag. */
  const SiteOptionNames: set<string> := {"WPLANG", "blogname", "blog_public", "blogdescription", "siteurl"}

  /** None of them is a regional or discussion default, */
  lemma SiteNamesNotRegional()
    ensures SiteOptionNames !! OptionDefaultNames
  {
  }

  /** nor a widget option or the sidebar layout, */
  lemma SiteNamesNotWidgets()
    ensures SiteOptionNames !! WidgetOptionNames
  {
    WidgetOptionNamesStart();
  }

  /** so wp_install_defaults() writes none of them. */
  lemma SiteNamesNotDefaults()
    ensures SiteOptionNames !! DefaultsWrittenNames
  {
    SiteNamesNotRegional();
    SiteNamesNotWidgets();
  }

  /** What wp_install() leaves in the options it writes itself: WPLANG is the
      chosen language or Finnish, siteurl the guessed URL, the pingback flag 0
      whether or not the site is public, and admin_email the given address,
      or the administrator's on a network. */
  lemma SiteOptionsHold(options: map<string, Value>, env: Framework, blogTitle: string, userEmail: string,
                        public: bool, language: string, adminEmail: string, categoryId: nat)
    ensures var after := DefaultedOptions(Write(options, SiteWrites(env, blogTitle, userEmail, public, language)),
                                          env, adminEmail, categoryId);
      && Lookup(after, "WPLANG") == Some(Str(if Truthy(language) then language else DefaultLanguage))
      && Lookup(after, "siteurl") == Some(Str(env.guessedUrl))
      && Lookup(after, "blogname") == Some(Str(blogTitle))
      && Lookup(after, "blog_public") == Some(Bool(public))
      && Lookup(after, "blogdescription") == Some(Str(env.translate(Tagline)))
      && Lookup(after, "default_pingback_flag") == Some(Int(0))
      && Lookup(after, "admin_email") == Some(Str(if env.multisite then adminEmail else userEmail))
  {
    var writes := SiteWrites(env, blogTitle, userEmail, public, language);
    var written := Write(options, writes);
    WriteLookup(options, writes, 0);
    WriteLookup(options, writes, 1);
    WriteLookup(options, writes, 2);
    WriteLookup(options, writes, 3);
    WriteLookup(options, writes, 4);
    WriteLookup(options, writes, 5);
    DefaultsHold(written, env, adminEmail, categoryId);
    AdminEmailAndCategoryHold(written, env, adminEmail, categoryId);
    DefaultsUntouched(written, env, adminEmail, categoryId);
    SiteNamesNotDefaults();
    assert "WPLANG" in SiteOptionNames && "siteurl" in SiteOptionNames && "blogname" in SiteOptionNames;
    assert "blog_public" in SiteOptionNames && "blogdescription" in SiteOptionNames;
  }

  /** The e-mail of the account with the given id; an empty string when there
      is none. */
  function AccountEmail(accounts: map<nat, Account>, id: nat): string {
    if id in accounts then accounts[id].email else ""
  }

  /** The body of the first post: the fixed Finnish welcome on a single site;
      on a network the network's first_post text, or the stock template when
      that is empty, with SITE_URL and SITE_NAME filled in. */
  function FirstPostContent(env: Framework): string {
    if !env.multisite then env.translate(SingleSiteWelcome)
    else
      var template :=
        if env.networkFirstPost.Some? && Truthy(env.networkFirstPost.value) then env.networkFirstPost.value
        else env.translate(NetworkWelcomeTemplate);
      Replace(Replace(template, SiteUrlPlaceholder, env.networkHomeUrl), SiteNamePlaceholder, env.networkSiteName)
  }

  /** A network text without placeholders is used as written. */
  lemma NetworkFirstPostVerbatim(env: Framework)
    requires env.multisite && env.networkFirstPost.Some? && Truthy(env.networkFirstPost.value)
    requires !Contains(env.networkFirstPost.value, SiteUrlPlaceholder) && !Contains(env.networkFirstPost.value, SiteNamePlaceholder)
    ensures FirstPostContent(env) == env.networkFirstPost.value
  {
    var text := env.networkFirstPost.value;
    ReplaceAbsent(text, SiteUrlPlaceholder, env.networkHomeUrl);
    ReplaceAbsent(text, SiteNamePlaceholder, env.networkSiteName);
  }

  /** The fixed parts of the stock template hold no 'S', the letter both
      placeholders start with. */
  lemma TemplatePartsPlain()
    ensures 'S' !in NetworkWelcomeLead && 'S' !in LinkClose && 'S' !in FirstPostSentence
    ensures 'S' !in EditSentence && 'S' !in BloggingSentence
  {
  }

  /** A text without an 'S' holds neither placeholder. */
  lemma NoPlaceholder(text: string, placeholder: string)
    requires placeholder != [] && placeholder[0] == 'S' && 'S' !in text
    ensures !Contains(text, placeholder)
  {
    if Contains(text, placeholder) {
      ContainsFirst(text, placeholder);
    }
  }

  /** The site-name placeholder does not hold the site-URL one. */
  lemma PlaceholdersApart()
    ensures !Contains(SiteNamePlaceholder, SiteUrlPlaceholder)
  {
    var n, u := SiteNamePlaceholder, SiteUrlPlaceholder;
    forall k: nat
      ensures !OccursAt(n, u, k)
    {
      if k + |u| <= |n| {
        assert n[k..k + |u|][k + 5] == n[2 * k + 5] != u[k + 5];
      }
    }
  }

  /** Neither placeholder occurs in the stock template outside its place:
      the lead and the tail hold no 'S', and after the site-name placeholder
      the site-URL one cannot start. */
  lemma TemplatePlaceholdersOnce()
    ensures !Contains(NetworkWelcomeLead, SiteUrlPlaceholder) && !Contains(NetworkWelcomeLead, SiteNamePlaceholder)
    ensures !Contains(NetworkWelcomeTail, SiteNamePlaceholder)
    ensures !Contains(SiteNamePlaceholder + NetworkWelcomeTail, SiteUrlPlaceholder)
  {
    var tail := NetworkWelcomeTail;
    TemplatePartsPlain();
    assert 'S' !in tail;
    NoPlaceholder(NetworkWelcomeLead, SiteUrlPlaceholder);
    NoPlaceholder(NetworkWelcomeLead, SiteNamePlaceholder);
    NoPlaceholder(tail, SiteNamePlaceholder);
    NoPlaceholder(tail[1..], SiteUrlPlaceholder);
    PlaceholdersApart();
    ContainsSplit(SiteNamePlaceholder, '<', tail[1..], SiteUrlPlaceholder);
    assert SiteNamePlaceholder + tail == SiteNamePlaceholder + ['<'] + tail[1..];
  }

  /** On a network without its own first_post text, and with the stock
      template untranslated, both str_replace() calls fill their placeholder:
      the first post links the site name to the site URL. The URL must not
      hold the site-name placeholder itself, since the second call would
      replace it there too. */
  lemma NetworkTemplateFilled(env: Framework)
    requires env.multisite
    requires env.networkFirstPost.None? || !Truthy(env.networkFirstPost.value)
    requires env.translate(NetworkWelcomeTemplate) == NetworkWelcomeTemplate
    requires !Contains(env.networkHomeUrl, SiteNamePlaceholder)
    ensures FirstPostContent(env)
         == NetworkWelcomeLead + ['"'] + env.networkHomeUrl + ['"', '>'] + env.networkSiteName + NetworkWelcomeTail
  {
    var lead, tail := NetworkWelcomeLead, NetworkWelcomeTail;
    var u, n := SiteUrlPlaceholder, SiteNamePlaceholder;
    var url, name := env.networkHomeUrl, env.networkSiteName;
    TemplatePlaceholdersOnce();
    TemplateShape();
    FillLinkTarget(lead, tail, u, n, url);
    FillLinkText(lead, tail, n, url, name);
  }

  /** The stock template is the lead, the quoted site-URL placeholder, the
      site-name placeholder and the tail. */
  lemma TemplateShape()
    ensures NetworkWelcomeTemplate
         == NetworkWelcomeLead + ['"'] + SiteUrlPlaceholder + ['"', '>'] + SiteNamePlaceholder + NetworkWelcomeTail
  {
    assert "\">" == ['"', '>'];
  }

  /** The first post row. Its GUID is the home URL followed by "/?p=1",
      whatever id the database gives the row. */
  function FirstPost(env: Framework, userId: nat): Post {
    Post(
      author := userId,
      date := env.now,
      dateGmt := env.nowGmt,
      content := FirstPostContent(env),
      excerpt := "",
      title := env.translate(FirstPostTitle),
      name := env.slug(FirstPostSlugText, "Default post slug"),
      modified := env.now,
      modifiedGmt := env.nowGmt,
      guid := env.home + FirstPostGuidSuffix,
      commentCount := 0,
      toPing := "",
      pinged := "",
      contentFiltered := "")
  }

  /** The terms row of the default category. */
  function DefaultTerm(env: Framework, categoryId: nat): Term {
    Term(env.translate(CategoryText), CategorySlug(env), 0, categoryId)
  }

  /** The term_taxonomy row of the default category. */
  function DefaultTermTaxonomy(categoryId: nat): TermTaxonomy {
    TermTaxonomy(0, "", 0, "category", categoryId)
  }

  /** The user meta after the first show_welcome_panel write: 1 on a single
      site; on a network 2, unless the user is a super admin or already has
      the preference. */
  function OfferedWelcomePanel(userMeta: map<(nat, string), Value>, env: Framework, userId: nat): map<(nat, string), Value> {
    if !env.multisite then userMeta[(userId, WelcomePanelKey) := Int(1)]
    else if userId !in env.superAdmins && (userId, WelcomePanelKey) !in userMeta then userMeta[(userId, WelcomePanelKey) := Int(2)]
    else userMeta
  }

  /** Whether a user meta row survives the DELETEs of this site's
      user_level and capabilities rows of other users. */
  predicate KeptOnNetworkSite(env: Framework, userId: nat, key: (nat, string)) {
    !(key.0 != userId && (key.1 == env.tablePrefix + "user_level" || key.1 == env.tablePrefix + "capabilities"))
  }

  /** Whether a user meta row survives the network clean-up: other users
      lose their user_level and capabilities rows on this site, and an
      administrator who is neither a super admin nor user 1 loses the
      capabilities row of the network's first site. */
  predicate KeptOnNetwork(env: Framework, userId: nat, key: (nat, string)) {
    && KeptOnNetworkSite(env, userId, key)
    && !(userId !in env.superAdmins && userId != 1 && key == (userId, env.basePrefix + "1_capabilities"))
  }

  /** The user meta after the network clean-up; a single site has none. */
  function PrunedMeta(userMeta: map<(nat, string), Value>, env: Framework, userId: nat): map<(nat, string), Value> {
    if !env.multisite then userMeta
    else map key | key in userMeta && KeptOnNetwork(env, userId, key) :: userMeta[key]
  }

  /** The user meta without other users' rows under one key: one DELETE. */
  function WithoutOthers(userMeta: map<(nat, string), Value>, userId: nat, metaKey: string): map<(nat, string), Value> {
    map key | key in userMeta && !(key.0 != userId && key.1 == metaKey) :: userMeta[key]
  }

  /** The three DELETEs, one after the other, give the pruned user meta. */
  lemma CleanupSteps(userMeta: map<(nat, string), Value>, env: Framework, userId: nat)
    requires env.multisite
    ensures var m := WithoutOthers(WithoutOthers(userMeta, userId, env.tablePrefix + "user_level"),
                                   userId, env.tablePrefix + "capabilities");
      PrunedMeta(userMeta, env, userId)
        == if userId !in env.superAdmins && userId != 1 then m - {(userId, env.basePrefix + "1_capabilities")} else m
  {
    var m := WithoutOthers(WithoutOthers(userMeta, userId, env.tablePrefix + "user_level"),
                           userId, env.tablePrefix + "capabilities");
    assert forall key :: key in m <==> key in userMeta && KeptOnNetworkSite(env, userId, key);
  }

  /** The roles on this site after the network clean-up: only the
      administrator keeps one. */
  function PrunedRoles(roles: map<nat, string>, env: Framework, userId: nat): map<nat, string> {
    if !env.multisite then roles
    else if userId in roles then map[userId := roles[userId]]
    else map[]
  }

  /** The clean-up only deletes rows. On a network, no other user keeps a
      user_level or capabilities row on this site; rows under other keys stay
      as they were, and so does every row on a single site. */
  lemma NetworkCleanup(userMeta: map<(nat, string), Value>, env: Framework, userId: nat)
    ensures forall key :: key in PrunedMeta(userMeta, env, userId) ==>
      key in userMeta && PrunedMeta(userMeta, env, userId)[key] == userMeta[key]
    ensures env.multisite ==>
      forall key | key in userMeta && key.0 != userId
                   && (key.1 == env.tablePrefix + "user_level" || key.1 == env.tablePrefix + "capabilities") ::
        key !in PrunedMeta(userMeta, env, userId)
    ensures forall key | key in userMeta
                         && (!env.multisite || (key.1 != env.tablePrefix + "user_level"
                                                && key.1 != env.tablePrefix + "capabilities"
                                                && key.1 != env.basePrefix + "1_capabilities")) ::
      key in PrunedMeta(userMeta, env, userId) && PrunedMeta(userMeta, env, userId)[key] == userMeta[key]
  {
  }

  /** The password nag flag the administrator was given survives the
      clean-up: its key is no capabilities key. */
  lemma PasswordNagSurvives(userMeta: map<(nat, string), Value>, env: Framework, userId: nat)
    ensures var pruned := PrunedMeta(userMeta[(userId, PasswordNagKey) := Bool(true)], env, userId);
      (userId, PasswordNagKey) in pruned && pruned[(userId, PasswordNagKey)] == Bool(true)
  {
    var caps := env.basePrefix + "1_capabilities";
    assert caps[|caps| - 1] == 's';
    assert caps != PasswordNagKey;
  }

  /** Whichever first show_welcome_panel write happened, the clean-up and the
      final write of 0 leave the same user meta. */
  lemma WelcomePanelAfterCleanup(userMeta: map<(nat, string), Value>, env: Framework, userId: nat)
    ensures PrunedMeta(OfferedWelcomePanel(userMeta, env, userId), env, userId)[(userId, WelcomePanelKey) := Int(0)]
         == PrunedMeta(userMeta, env, userId)[(userId, WelcomePanelKey) := Int(0)]
  {
    var offered := OfferedWelcomePanel(userMeta, env, userId);
    var key := (userId, WelcomePanelKey);
    assert forall k :: k != key ==> (k in offered <==> k in userMeta) && (k in offered ==> offered[k] == userMeta[k]);
  }

  /** Whatever roles the site had, the administrator has the administrator
      role afterwards; on a network no other user keeps a role on the site. */
  lemma AdministratorOnly(roles: map<nat, string>, env: Framework, userId: nat)
    ensures PrunedRoles(roles[userId := Administrator], env, userId)
         == if env.multisite then map[userId := Administrator] else roles[userId := Administrator]
  {
  }

  /** The site database the drop-in writes to. */
  class Site {
    var options: map<string, Value>          // option_name -> option_value
    var users: map<string, nat>              // user_login -> ID
    var accounts: map<nat, Account>          // ID -> the rest of the users row
    var nextUserId: nat                      // the users table's next AUTO_INCREMENT value
    var roles: map<nat, string>              // ID -> the role set_role() gave on this site; stands for its capabilities row
    var userMeta: map<(nat, string), Value>  // (user_id, meta_key) -> meta_value, for the rows the drop-in's lines touch
    var posts: seq<Post>
    var terms: seq<Term>
    var termTaxonomy: seq<TermTaxonomy>
    var siteCategories: map<string, nat>     // network categories: category_nicename -> cat_ID

    /** Every login names an account, and every account id is a positive id
        already handed out. */
    predicate Valid()
      reads this`users, this`accounts, this`nextUserId
    {
      && (forall name :: name in users ==> users[name] in accounts)
      && (forall id :: id in accounts ==> 0 < id < nextUserId)
      && nextUserId > 0
    }

    /** A site as populate_options() and populate_roles() leave it, possibly
        sharing a user table that already holds users. */
    constructor (options0: map<string, Value>, users0: map<string, nat>, accounts0: map<nat, Account>,
                 nextUserId0: nat, roles0: map<nat, string>, userMeta0: map<(nat, string), Value>,
                 siteCategories0: map<string, nat>)
      requires forall name :: name in users0 ==> users0[name] in accounts0
      requires forall id :: id in accounts0 ==> 0 < id < nextUserId0
      requires nextUserId0 > 0
      ensures Valid()
      ensures options == options0 && users == users0 && accounts == accounts0 && nextUserId == nextUserId0
      ensures roles == roles0 && userMeta == userMeta0 && siteCategories == siteCategories0
      ensures posts == [] && terms == [] && termTaxonomy == []
    {
      options, users, accounts, nextUserId := options0, users0, accounts0, nextUserId0;
      roles, userMeta, siteCategories := roles0, userMeta0, siteCategories0;
      posts, terms, termTaxonomy := [], [], [];
    }

    /** wp_create_user(): a new users row under the next id. */
    method CreateUser(userName: string, password: string, email: string) returns (userId: nat)
      requires Valid()
      requires userName !in users
      modifies this`users, this`accounts, this`nextUserId
      ensures Valid()
      ensures userId == old(nextUserId) && userId > 0 && userId !in old(accounts)
      ensures users == old(users)[userName := userId]
      ensures accounts == old(accounts)[userId := Account(email, password)]
      ensures nextUserId == old(nextUserId) + 1
    {
      userId := nextUserId;
      users := users[userName := userId];
      accounts := accounts[userId := Account(email, password)];
      nextUserId := userId + 1;
    }

    /** The administrator resolution of wp_install(): reuse the user with this
        login, or create it with the trimmed chosen password, or with a
        generated one (then flag it for the password nag and mark the password
        for mailing). */
    method ResolveAdmin(env: Framework, userName: string, userEmail: string, userPassword: string)
      returns (userId: nat, password: string, message: string, emailPassword: bool)
      requires Valid()
      requires IsGeneratedPassword(env.generatedPassword)
      modifies this`users, this`accounts, this`nextUserId, this`userMeta, this`roles
      ensures Valid()
      ensures userId > 0 && userId in accounts
      ensures roles == old(roles)[userId := Administrator]
      ensures var branch := Resolve(userName in old(users), Trim(userPassword));
        && message == PasswordMessage(env, branch)
        && emailPassword == (branch == GeneratedPassword)
        // a user created here never gets an empty password
        && (branch != ExistingUser ==> Truthy(password))
        && (branch == GeneratedPassword ==>
              && password == env.generatedPassword
              && userMeta == old(userMeta)[(userId, PasswordNagKey) := Bool(true)])
        && (branch != GeneratedPassword ==> password == Trim(userPassword) && userMeta == old(userMeta))
        && (branch == ExistingUser ==>
              && userId == old(users)[userName]
              && users == old(users) && accounts == old(accounts) && nextUserId == old(nextUserId))
        && (branch != ExistingUser ==>
              && userId == old(nextUserId) && userId !in old(accounts)
              && users == old(users)[userName := userId]
              && accounts == old(accounts)[userId := Account(userEmail, password)]
              && nextUserId == old(nextUserId) + 1)
    {
      var existing := userName in users;
      password := Trim(userPassword);
      emailPassword := false;
      if !existing && !Truthy(password) {
        password := env.generatedPassword;
        message := env.translate(RandomPasswordMessage);
        userId := CreateUser(userName, password, userEmail);
        userMeta := userMeta[(userId, PasswordNagKey) := Bool(true)];
        emailPassword := true;
      } else if !existing {
        message := "<em>" + env.translate(ChosenPasswordText) + "</em>";
        userId := CreateUser(userName, password, userEmail);
      } else {
        userId := users[userName];
        message := env.translate(InheritedPasswordMessage);
      }
      roles := roles[userId := Administrator];
    }

    /** The option writes wp_install() makes before resolving the administrator. */
    method WriteSiteOptions(env: Framework, blogTitle: string, userEmail: string, public: bool, language: string)
      modifies this`options
      ensures options == Write(old(options), SiteWrites(env, blogTitle, userEmail, public, language))
    {
      ghost var writes := SiteWrites(env, blogTitle, userEmail, public, language);
      ghost var target := Write(options, writes);
      if Truthy(language) {
        options := options["WPLANG" := Str(language)];
      } else {
        options := options["WPLANG" := Str(DefaultLanguage)];
      }
      assert target == Write(options, writes[1..]);
      options := options["blogname" := Str(blogTitle)];
      assert target == Write(options, writes[2..]);
      options := options["admin_email" := Str(userEmail)];
      assert target == Write(options, writes[3..]);
      options := options["blog_public" := Bool(public)];
      assert target == Write(options, writes[4..]);
      options := options["blogdescription" := Str(env.translate(Tagline))];
      assert target == Write(options, writes[5..]);
      var guessUrl := env.guessedUrl;
      options := options["siteurl" := Str(guessUrl)];
      assert target == Write(options, writes[6..]);
      if !public {
        options := options["default_pingback_flag" := Int(0)];
        assert target == Write(options, writes[7..]);
      }
    }

    /** wp_install(). */
    method Install(env: Framework, blogTitle: string, userName: string, userEmail: string, public: bool,
                   userPassword: string, language: string) returns (result: InstallResult)
      requires Valid()
      requires IsGeneratedPassword(env.generatedPassword)
      modifies this
      ensures Valid()
      ensures result.userId > 0 && result.userId in accounts
      ensures options == DefaultedOptions(
        Write(old(options), SiteWrites(env, blogTitle, userEmail, public, language)),
        env, AccountEmail(accounts, result.userId), CategoryId(old(siteCategories), env))
      // the returned URL is the one stored as siteurl
      ensures result.url == env.guessedUrl
      // administrator resolution
      ensures var branch := Resolve(userName in old(users), Trim(userPassword));
        && result.passwordMessage == PasswordMessage(env, branch)
        && (branch == GeneratedPassword ==>
              && result.password == env.generatedPassword
              && userMeta == PrunedMeta(old(userMeta)[(result.userId, PasswordNagKey) := Bool(true)], env, result.userId)
                                          [(result.userId, WelcomePanelKey) := Int(0)])
        && (branch != GeneratedPassword ==>
              && result.password == Trim(userPassword)
              && userMeta == PrunedMeta(old(userMeta), env, result.userId)[(result.userId, WelcomePanelKey) := Int(0)])
        && (branch == ExistingUser ==>
              && result.userId == old(users)[userName]
              && users == old(users) && accounts == old(accounts) && nextUserId == old(nextUserId))
        && (branch != ExistingUser ==>
              && result.userId == old(nextUserId) && result.userId !in old(accounts)
              && users == old(users)[userName := result.userId]
              && accounts == old(accounts)[result.userId := Account(userEmail, result.password)]
              && nextUserId == old(nextUserId) + 1)
      // whatever role the user had, it is now administrator; on a network it
      // is the only user with a role on the site
      ensures roles == if env.multisite then map[result.userId := Administrator]
                       else old(roles)[result.userId := Administrator]
      ensures posts == old(posts) + [FirstPost(env, result.userId)]
      ensures siteCategories == SeededCategories(old(siteCategories), env)
      ensures terms == old(terms) + [DefaultTerm(env, CategoryId(old(siteCategories), env))]
      ensures termTaxonomy == old(termTaxonomy) + [DefaultTermTaxonomy(CategoryId(old(siteCategories), env))]
    {
      var userId, password, message := SetUpSite(env, blogTitle, userName, userEmail, public, userPassword, language);
      InstallDefaults(env, userId);
      AdministratorOnly(old(roles), env, userId);
      var guessUrl := env.guessedUrl;
      result := InstallResult(guessUrl, userId, password, message);
    }

    /** The first part of wp_install(): the site's own options, then the
        administrator with the administrator role. */
    method SetUpSite(env: Framework, blogTitle: string, userName: string, userEmail: string, public: bool,
                   userPassword: string, language: string) returns (userId: nat, password: string, message: string)
      requires Valid()
      requires IsGeneratedPassword(env.generatedPassword)
      modifies this`options, this`users, this`accounts, this`nextUserId, this`userMeta, this`roles
      ensures Valid()
      ensures userId > 0 && userId in accounts
      ensures options == Write(old(options), SiteWrites(env, blogTitle, userEmail, public, language))
      ensures var branch := Resolve(userName in old(users), Trim(userPassword));
        && message == PasswordMessage(env, branch)
        && (branch == GeneratedPassword ==>
              && password == env.generatedPassword
              && userMeta == old(userMeta)[(userId, PasswordNagKey) := Bool(true)])
        && (branch != GeneratedPassword ==> password == Trim(userPassword) && userMeta == old(userMeta))
        && (branch == ExistingUser ==>
              && userId == old(users)[userName]
              && users == old(users) && accounts == old(accounts) && nextUserId == old(nextUserId))
        && (branch != ExistingUser ==>
              && userId == old(nextUserId) && userId !in old(accounts)
              && users == old(users)[userName := userId]
              && accounts == old(accounts)[userId := Account(userEmail, password)]
              && nextUserId == old(nextUserId) + 1)
      ensures roles == old(roles)[userId := Administrator]
    {
      WriteSiteOptions(env, blogTitle, userEmail, public, language);
      var emailPassword;
      userId, password, message, emailPassword := ResolveAdmin(env, userName, userEmail, userPassword);
    }

    /** The first post, inserted with a GUID fixed to the home URL and "/?p=1". */
    method InsertFirstPost(env: Framework, userId: nat)
      modifies this`posts
      ensures posts == old(posts) + [FirstPost(env, userId)]
    {
      posts := posts + [FirstPost(env, userId)];
    }

    /** The regional and discussion defaults. */
    method WriteOptionDefaults()
      modifies this`options
      ensures options == WithOptionDefaults(old(options))
    {
      // each update consumes the next of the listed writes
      ghost var writes := OptionDefaultWrites;
      ghost var target := Write(options, writes);
      options := options["timezone_string" := Str(Timezone)];
      assert target == Write(options, writes[1..]);
      options := options["comment_moderation" := Int(1)];
      assert target == Write(options, writes[2..]);
      options := options["comment_whitelist" := Int(0)];
      assert target == Write(options, writes[3..]);
      options := options["default_comment_status" := Int(0)];
      assert target == Write(options, writes[4..]);
      options := options["default_ping_status" := Int(0)];
      assert target == Write(options, writes[5..]);
      options := options["default_pingback_flag" := Int(0)];
      assert target == Write(options, writes[6..]);
      options := options["permalink_structure" := Str(PermalinkStructure)];
      assert target == Write(options, writes[7..]);
    }

    /** The default widgets and sidebar, each option overwritten whole. */
    method WriteWidgetDefaults()
      modifies this`options
      ensures options == WithWidgetDefaults(old(options))
    {
      ghost var writes := WidgetWrites;
      ghost var target := Write(options, writes);
      options := options[WidgetOptionName("search") := SearchWidget];
      assert target == Write(options, writes[1..]);
      options := options[WidgetOptionName("recent-posts") := RecentPostsWidget];
      assert target == Write(options, writes[2..]);
      options := options[WidgetOptionName("recent-comments") := RecentCommentsWidget];
      assert target == Write(options, writes[3..]);
      options := options[WidgetOptionName("archives") := ArchivesWidget];
      assert target == Write(options, writes[4..]);
      options := options[WidgetOptionName("categories") := CategoriesWidget];
      assert target == Write(options, writes[5..]);
      options := options[WidgetOptionName("meta") := MetaWidget];
      assert target == Write(options, writes[6..]);
      options := options["sidebars_widgets" := SidebarsLayout];
      assert target == Write(options, writes[7..]);
    }

    /** The first show_welcome_panel write: 1 on a single site; on a network 2,
        unless the user is a super admin or already has the preference. */
    method OfferWelcomePanel(env: Framework, userId: nat)
      modifies this`userMeta
      ensures userMeta == OfferedWelcomePanel(old(userMeta), env, userId)
    {
      if !env.multisite {
        userMeta := userMeta[(userId, WelcomePanelKey) := Int(1)];
      } else if userId !in env.superAdmins && (userId, WelcomePanelKey) !in userMeta {
        userMeta := userMeta[(userId, WelcomePanelKey) := Int(2)];
      }
    }

    /** On a network, the UPDATE of admin_email to the administrator's
        address, which changes nothing when the option is missing. */
    method ForceNetworkAdminEmail(env: Framework, userId: nat)
      modifies this`options
      ensures options == NetworkAdminEmail(old(options), env, AccountEmail(accounts, userId))
    {
      if env.multisite {
        var adminEmail := AccountEmail(accounts, userId);
        if "admin_email" in options {
          options := options["admin_email" := Str(adminEmail)];
        }
      }
    }

    /** On a network, the DELETEs that take this site's user_level and
        capabilities rows from every other user, and the first site's
        capabilities row from an administrator who is neither a super admin
        nor user 1. */
    method RemoveOtherPermissions(env: Framework, userId: nat)
      modifies this`userMeta, this`roles
      ensures userMeta == PrunedMeta(old(userMeta), env, userId)
      ensures roles == PrunedRoles(old(roles), env, userId)
    {
      if env.multisite {
        CleanupSteps(userMeta, env, userId);
        userMeta := WithoutOthers(userMeta, userId, env.tablePrefix + "user_level");
        userMeta := WithoutOthers(userMeta, userId, env.tablePrefix + "capabilities");
        roles := if userId in roles then map[userId := roles[userId]] else map[];
        if userId !in env.superAdmins && userId != 1 {
          userMeta := userMeta - {(userId, env.basePrefix + "1_capabilities")};
        }
      }
    }

    /** The default category: its id, the network category inserted when the
        slug is new, default_category with global terms, and its term rows. */
    method CreateDefaultCategory(env: Framework) returns (categoryId: nat)
      modifies this`siteCategories, this`options, this`terms, this`termTaxonomy
      ensures categoryId == CategoryId(old(siteCategories), env)
      ensures siteCategories == SeededCategories(old(siteCategories), env)
      ensures options == DefaultCategoryOption(old(options), env, categoryId)
      ensures terms == old(terms) + [DefaultTerm(env, categoryId)]
      ensures termTaxonomy == old(termTaxonomy) + [DefaultTermTaxonomy(categoryId)]
    {
      var catName := env.translate(CategoryText);
      var catSlug := CategorySlug(env);
      if env.globalTermsEnabled {
        if catSlug in siteCategories {
          categoryId := siteCategories[catSlug];
        } else {
          siteCategories := siteCategories[catSlug := env.insertedCategoryId];
          categoryId := env.insertedCategoryId;
        }
        options := options["default_category" := Int(categoryId)];
      } else {
        categoryId := 1;
      }
      terms := terms + [Term(catName, catSlug, 0, categoryId)];
      termTaxonomy := termTaxonomy + [TermTaxonomy(0, "", 0, "category", categoryId)];
    }

    /** wp_install_defaults(). */
    method InstallDefaults(env: Framework, userId: nat)
      modifies this`options, this`posts, this`userMeta, this`roles, this`siteCategories, this`terms, this`termTaxonomy
      ensures options == DefaultedOptions(old(options), env, AccountEmail(accounts, userId), CategoryId(old(siteCategories), env))
      ensures posts == old(posts) + [FirstPost(env, userId)]
      ensures siteCategories == SeededCategories(old(siteCategories), env)
      ensures terms == old(terms) + [DefaultTerm(env, CategoryId(old(siteCategories), env))]
      ensures termTaxonomy == old(termTaxonomy) + [DefaultTermTaxonomy(CategoryId(old(siteCategories), env))]
      // the panel is off at the end, whichever write came first
      ensures userMeta == PrunedMeta(old(userMeta), env, userId)[(userId, WelcomePanelKey) := Int(0)]
      ensures roles == PrunedRoles(old(roles), env, userId)
    {
      WriteContent(env, userId);
      FinishDefaults(env, userId);
      WelcomePanelAfterCleanup(old(userMeta), env, userId);
    }

    /** The second half of wp_install_defaults(): the network admin_email,
        the default category, the welcome panel switched off and the
        plugin activation. */
    method FinishDefaults(env: Framework, userId: nat)
      modifies this`options, this`userMeta, this`roles, this`siteCategories, this`terms, this`termTaxonomy
      ensures options == ActivatedOptions(DefaultCategoryOption(NetworkAdminEmail(old(options), env, AccountEmail(accounts, userId)), env, CategoryId(old(siteCategories), env)), env.installedPlugins, env.autoActivatePlugins)
      ensures siteCategories == SeededCategories(old(siteCategories), env)
      ensures terms == old(terms) + [DefaultTerm(env, CategoryId(old(siteCategories), env))]
      ensures termTaxonomy == old(termTaxonomy) + [DefaultTermTaxonomy(CategoryId(old(siteCategories), env))]
      ensures userMeta == PrunedMeta(old(userMeta), env, userId)[(userId, WelcomePanelKey) := Int(0)]
      ensures roles == PrunedRoles(old(roles), env, userId)
    {
      ForceNetworkAdminEmail(env, userId);
      RemoveOtherPermissions(env, userId);
      var categoryId := CreateDefaultCategory(env);
      userMeta := userMeta[(userId, WelcomePanelKey) := Int(0)];
      ActivatePlugins(env);
    }

    /** The first half of wp_install_defaults(): the option defaults, the
        first post, the widgets and the first show_welcome_panel write. */
    method WriteContent(env: Framework, userId: nat)
      modifies this`options, this`posts, this`userMeta
      ensures options == WithWidgetDefaults(WithOptionDefaults(old(options)))
      ensures posts == old(posts) + [FirstPost(env, userId)]
      ensures userMeta == OfferedWelcomePanel(old(userMeta), env, userId)
    {
      WriteOptionDefaults();
      InsertFirstPost(env, userId);
      WriteWidgetDefaults();
      OfferWelcomePanel(env, userId);
    }

    /** wp_palvelu_install_activate_plugins(). */
    method ActivatePlugins(env: Framework)
      modifies this`options
      ensures options == ActivatedOptions(old(options), env.installedPlugins, env.autoActivatePlugins)
    {
      var allPlugins := env.installedPlugins;
      var plugins := AllowList(env.autoActivatePlugins);
      var current: seq<string> := [];
      for i := 0 to |allPlugins|
        invariant current == SortStrings(MatchedPlugins(allPlugins[..i], plugins))
        invariant options == WithActivePlugins(old(options), current)
      {
        var pluginPath := allPlugins[i];
        var pluginName := PluginFolder(pluginPath);
        ActivationStep(allPlugins, i, plugins);
        if pluginName in plugins {
          ghost var earlier := current;
          current := current + [pluginPath];
          current := SortStrings(current);
          RewriteActivePlugins(old(options), earlier, current);
          options := options["active_plugins" := ListValue(current)];
        }
      }
      assert allPlugins[..|allPlugins|] == allPlugins;
    }
  }
}
