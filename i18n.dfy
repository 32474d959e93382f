/**
 * The translation provider: the current language, restored from and
 * written back to the stored `language` preference, and the lookup `t` over
 * a fixed table of English and French strings.
 */
module I18n {
  import opened Wrappers
  import opened Storage

  datatype Language = En | Fr

  /** The code stored under the `language` key; reading it back gives the same language. */
  function Code(lang: Language): (r: string)
    ensures RestoreLanguage(Some(r)) == lang
    ensures r == "en" || r == "fr"
  {
    match lang
    case En => "en"
    case Fr => "fr"
  }

  /** The initial language: the saved value when it is `en` or `fr`, English for anything else or nothing. */
  function RestoreLanguage(saved: Option<string>): (r: Language)
    ensures saved == Some("fr") <==> r == Fr
    ensures saved != Some("en") && saved != Some("fr") ==> r == En
  {
    if saved == Some("fr") then Fr else En
  }

  /** One row of the table: the English and the French string. */
  datatype Entry = Entry(en: string, fr: string) {
    /** `translations[key][language]` */
    function In(lang: Language): string {
      match lang
      case En => en
      case Fr => fr
    }
  }

  /** Navigation */
  const NAVIGATION: map<string, Entry> := map[
    "nav.home" := Entry("Home", "Accueil"),
    "nav.events" := Entry("Events", "Événements"),
    "nav.voting" := Entry("Voting", "Vote"),
    "nav.dashboard" := Entry("Dashboard", "Tableau de bord"),
    "nav.admin" := Entry("Admin", "Admin"),
    "nav.login" := Entry("Login", "Connexion"),
    "nav.signup" := Entry("Sign Up", "S'inscrire"),
    "nav.logout" := Entry("Logout", "Déconnexion")
  ]

  /** Hero */
  const HERO: map<string, Entry> := map[
    "hero.title" := Entry("FITMAT Institute", "Institut FITMAT"),
    "hero.subtitle" := Entry("Campus Betting & Voting Platform", "Plateforme de paris et vote du campus"),
    "hero.description" := Entry("Place virtual bets on school tournaments and vote in secure elections. All with virtual tokens - no real money involved.", "Placez des paris virtuels sur les tournois scolaires et votez lors d'élections sécurisées. Tout avec des jetons virtuels - aucun argent réel impliqué."),
    "hero.cta.events" := Entry("Browse Events", "Parcourir les événements"),
    "hero.cta.vote" := Entry("Vote Now", "Voter maintenant")
  ]

  /** Warning banner */
  const WARNING: map<string, Entry> := map[
    "warning.virtual" := Entry("This platform uses virtual tokens only. No real-money betting permitted. Designed for educational and recreational use.", "Cette plateforme utilise uniquement des jetons virtuels. Aucun pari en argent réel autorisé. Conçu pour un usage éducatif et récréatif.")
  ]

  /** Auth */
  const AUTH: map<string, Entry> := map[
    "auth.email" := Entry("Email", "Email"),
    "auth.password" := Entry("Password", "Mot de passe"),
    "auth.name" := Entry("Full Name", "Nom complet"),
    "auth.studentId" := Entry("Student ID", "ID étudiant"),
    "auth.login" := Entry("Login", "Connexion"),
    "auth.signup" := Entry("Sign Up", "S'inscrire"),
    "auth.loginTitle" := Entry("Welcome Back", "Bon retour"),
    "auth.signupTitle" := Entry("Create Account", "Créer un compte"),
    "auth.noAccount" := Entry("Don't have an account?", "Vous n'avez pas de compte?"),
    "auth.hasAccount" := Entry("Already have an account?", "Vous avez déjà un compte?"),
    "auth.ageConfirm" := Entry("I confirm I am 18+ years old", "Je confirme avoir 18 ans et plus")
  ]

  /** Dashboard */
  const DASHBOARD: map<string, Entry> := map[
    "dashboard.welcome" := Entry("Welcome back", "Bon retour"),
    "dashboard.balance" := Entry("Token Balance", "Solde de jetons"),
    "dashboard.tokens" := Entry("tokens", "jetons"),
    "dashboard.recentBets" := Entry("Recent Bets", "Paris récents"),
    "dashboard.noBets" := Entry("No bets placed yet", "Aucun pari placé pour le moment"),
    "dashboard.quickActions" := Entry("Quick Actions", "Actions rapides")
  ]

  /** Events */
  const EVENTS: map<string, Entry> := map[
    "events.title" := Entry("Upcoming Events", "Événements à venir"),
    "events.live" := Entry("Live", "En direct"),
    "events.upcoming" := Entry("Upcoming", "À venir"),
    "events.finished" := Entry("Finished", "Terminé"),
    "events.placeBet" := Entry("Place Bet", "Placer un pari"),
    "events.viewDetails" := Entry("View Details", "Voir les détails")
  ]

  /** Betting */
  const BETTING: map<string, Entry> := map[
    "bet.slip" := Entry("Bet Slip", "Bulletin de pari"),
    "bet.amount" := Entry("Bet Amount", "Montant du pari"),
    "bet.potential" := Entry("Potential Payout", "Gain potentiel"),
    "bet.confirm" := Entry("Confirm Bet", "Confirmer le pari"),
    "bet.home" := Entry("Home", "Domicile"),
    "bet.draw" := Entry("Draw", "Match nul"),
    "bet.away" := Entry("Away", "Extérieur"),
    "bet.odds" := Entry("Odds", "Cotes")
  ]

  /** Voting */
  const VOTING: map<string, Entry> := map[
    "vote.title" := Entry("Active Elections", "Élections actives"),
    "vote.cast" := Entry("Cast Vote", "Voter"),
    "vote.voted" := Entry("Voted", "Voté"),
    "vote.results" := Entry("View Results", "Voir les résultats"),
    "vote.confirm" := Entry("Confirm Your Vote", "Confirmez votre vote"),
    "vote.confirmText" := Entry("You are about to cast your vote for", "Vous êtes sur le point de voter pour"),
    "vote.cannotUndo" := Entry("This action cannot be undone.", "Cette action ne peut pas être annulée.")
  ]

  /** Admin */
  const ADMIN: map<string, Entry> := map[
    "admin.title" := Entry("Admin Panel", "Panneau d'administration"),
    "admin.events" := Entry("Manage Events", "Gérer les événements"),
    "admin.elections" := Entry("Manage Elections", "Gérer les élections"),
    "admin.users" := Entry("Manage Users", "Gérer les utilisateurs")
  ]

  /** Common */
  const COMMON: map<string, Entry> := map[
    "common.loading" := Entry("Loading...", "Chargement..."),
    "common.error" := Entry("Error", "Erreur"),
    "common.success" := Entry("Success", "Succès"),
    "common.cancel" := Entry("Cancel", "Annuler"),
    "common.save" := Entry("Save", "Enregistrer"),
    "common.delete" := Entry("Delete", "Supprimer"),
    "common.edit" := Entry("Edit", "Modifier"),
    "common.view" := Entry("View", "Voir"),
    "common.back" := Entry("Back", "Retour")
  ]

  /** The translation table: the groups above, one entry per key. */
  const TRANSLATIONS: map<string, Entry> :=
    NAVIGATION + HERO + WARNING + AUTH + DASHBOARD
    + EVENTS + BETTING + VOTING + ADMIN + COMMON

  /** Both strings of every entry are non-empty. */
  ghost predicate Filled(table: map<string, Entry>) {
    forall key | key in table :: table[key].en != "" && table[key].fr != ""
  }

  lemma FilledUnion(a: map<string, Entry>, b: map<string, Entry>)
    requires Filled(a) && Filled(b)
    ensures Filled(a + b)
  {
  }

  lemma NavigationFilled()
    ensures Filled(NAVIGATION)
  {
  }

  lemma HeroFilled()
    ensures Filled(HERO)
  {
  }

  lemma WarningFilled()
    ensures Filled(WARNING)
  {
  }

  lemma AuthFilled()
    ensures Filled(AUTH)
  {
  }

  lemma DashboardFilled()
    ensures Filled(DASHBOARD)
  {
  }

  lemma EventsFilled()
    ensures Filled(EVENTS)
  {
  }

  lemma BettingFilled()
    ensures Filled(BETTING)
  {
  }

  lemma VotingFilled()
    ensures Filled(VOTING)
  {
  }

  lemma AdminFilled()
    ensures Filled(ADMIN)
  {
  }

  lemma CommonFilled()
    ensures Filled(COMMON)
  {
  }

  /** No string of the table is empty, so the key fallback of `t` only serves absent keys. */
  lemma TableComplete()
    ensures Filled(TRANSLATIONS)
  {
    NavigationFilled();
    HeroFilled();
    WarningFilled();
    AuthFilled();
    DashboardFilled();
    EventsFilled();
    BettingFilled();
    VotingFilled();
    AdminFilled();
    CommonFilled();
    FilledUnion(NAVIGATION, HERO);
    FilledUnion(NAVIGATION + HERO, WARNING);
    FilledUnion(NAVIGATION + HERO + WARNING, AUTH);
    FilledUnion(NAVIGATION + HERO + WARNING + AUTH, DASHBOARD);
    FilledUnion(NAVIGATION + HERO + WARNING + AUTH + DASHBOARD, EVENTS);
    FilledUnion(NAVIGATION + HERO + WARNING + AUTH + DASHBOARD + EVENTS, BETTING);
    FilledUnion(NAVIGATION + HERO + WARNING + AUTH + DASHBOARD + EVENTS + BETTING, VOTING);
    FilledUnion(NAVIGATION + HERO + WARNING + AUTH + DASHBOARD + EVENTS + BETTING + VOTING, ADMIN);
    FilledUnion(NAVIGATION + HERO + WARNING + AUTH + DASHBOARD + EVENTS + BETTING + VOTING + ADMIN, COMMON);
  }

  /** `translations[key]?.[language] || key`: the table's string, or the key when absent or empty. */
  function Translate(lang: Language, key: string): (r: string)
    ensures key !in TRANSLATIONS ==> r == key
    ensures key in TRANSLATIONS && TRANSLATIONS[key].In(lang) != "" ==> r == TRANSLATIONS[key].In(lang)
    ensures key in TRANSLATIONS && TRANSLATIONS[key].In(lang) == "" ==> r == key
    ensures key != "" ==> r != ""
  {
    if key in TRANSLATIONS && TRANSLATIONS[key].In(lang) != "" then TRANSLATIONS[key].In(lang) else key
  }

  /** Every key of the table translates to its entry in either language. */
  lemma TranslateKnownKey(lang: Language, key: string)
    ensures key in TRANSLATIONS ==> Translate(lang, key) == TRANSLATIONS[key].In(lang)
  {
    TableComplete();
  }

  /** The provider's state: the language hook. */
  class I18nProvider {
    var language: Language

    /**
     * Mounting: the language is restored from the store, and the effect
     * writes it back under the `language` key.
     */
    constructor (store: Store)
      modifies store`language
      ensures language == RestoreLanguage(old(store.language))
      ensures store.language == Some(Code(language))
    {
      var restored := RestoreLanguage(store.language);
      language := restored;
      store.language := Some(Code(restored));
    }

    /** setLanguage, followed by the effect that writes the new language back. */
    method SetLanguage(store: Store, lang: Language)
      modifies this`language, store`language
      ensures language == lang
      ensures store.language == Some(Code(lang))
    {
      language := lang;
      store.language := Some(Code(lang));
    }

    /** `t`: the lookup in the current language. */
    function T(key: string): (r: string)
      reads this
      ensures key in TRANSLATIONS ==> r == TRANSLATIONS[key].In(language)
      ensures key !in TRANSLATIONS ==> r == key
    {
      TranslateKnownKey(language, key);
      Translate(language, key)
    }
  }
}
