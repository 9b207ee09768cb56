/** The navigation bar: the table of sections (some protected), the gate
    that sends anonymous visitors to the sign-in dialog, and logout. The
    active section is state of the page that owns the bar; the model keeps
    it as a field of the bar. */
module Navigation {
  import opened Common
  import opened AuthContext

  datatype NavItem = NavItem(id: string, caption: string, isProtected: bool)

  /** The sections, in declaration order. */
  function NavigationItems(): seq<NavItem> {
    [ NavItem("home", "Home", false),
      NavItem("live-match", "Live Match", false),
      NavItem("players", "Players", false),
      NavItem("matches", "Fixtures", false),
      NavItem("chat", "Fan Chat", true),
      NavItem("predictions", "AI Predictions", true),
      NavItem("polls", "Live Polls", true),
      NavItem("social-hub", "Social Hub", true),
      NavItem("store", "Store", false),
      NavItem("insights", "Fan Insights", true),
      NavItem("notifications", "Notifications", true),
      NavItem("digital-twin", "Virtual Camp Nou", true),
      NavItem("ai-companion", "AI Companion", true),
      NavItem("fan-of-month", "Fan Awards", true) ]
  }

  const OpenSections: set<string> := {"home", "live-match", "players", "matches", "store"}

  /** Exactly home, live-match, players, matches and store are open to
      everyone; every other section is protected. */
  lemma OnlyFiveSectionsAreOpen()
    ensures forall i :: 0 <= i < |NavigationItems()| ==>
              (!NavigationItems()[i].isProtected <==> NavigationItems()[i].id in OpenSections)
  {
  }

  /** The desktop bar: the first eight items, in declaration order. */
  function DesktopItems(): (items: seq<NavItem>)
    ensures |items| == 8 && items <= NavigationItems()
  {
    NavigationItems()[..8]
  }

  /** The lock badge, shown on protected items while nobody is signed in. On
      the listed sections it marks exactly the ones outside the five open
      sections, which are the ones whose click opens the sign-in dialog. */
  predicate ShowsLock(item: NavItem, authenticated: bool): (locked: bool)
    ensures item in NavigationItems() ==> (locked <==> !authenticated && item.id !in OpenSections)
  {
    OnlyFiveSectionsAreOpen();
    item.isProtected && !authenticated
  }

  /** The navigation bar's state. */
  class Bar {
    const session: Session
    var activeSection: string
    var mobileMenuOpen: bool
    var authModalOpen: bool

    constructor (session: Session, activeSection: string)
      ensures this.session == session && this.activeSection == activeSection
      ensures !mobileMenuOpen && !authModalOpen
    {
      this.session := session;
      this.activeSection := activeSection;
      mobileMenuOpen := false;
      authModalOpen := false;
    }

    /** `handleNavigation(sectionId, isProtected)`: a protected section asked
        for while nobody is signed in opens the sign-in dialog and changes
        nothing else; otherwise the section becomes active and the mobile
        menu closes. */
    method HandleNavigation(sectionId: string, isProtected: bool)
      modifies this
      ensures isProtected && !session.IsAuthenticated() ==>
                authModalOpen && activeSection == old(activeSection) && mobileMenuOpen == old(mobileMenuOpen)
      ensures !(isProtected && !session.IsAuthenticated()) ==>
                activeSection == sectionId && !mobileMenuOpen && authModalOpen == old(authModalOpen)
    {
      if isProtected && !session.IsAuthenticated() {
        authModalOpen := true;
        return;
      }
      activeSection := sectionId;
      mobileMenuOpen := false;
    }

    /** `handleLogout()`: signs out and returns to the home section. */
    method HandleLogout()
      modifies this`activeSection, session
      ensures session.user == None && session.stored == None && !session.IsAuthenticated()
      ensures session.isLoading == old(session.isLoading)
      ensures activeSection == "home"
    {
      session.Logout();
      activeSection := "home";
    }

    /** The logo: back to the home section, with no sign-in gate. */
    method GoHome()
      modifies this`activeSection
      ensures activeSection == "home"
    {
      activeSection := "home";
    }

    /** The profile button, shown only to a signed-in fan: the profile
        section becomes active without going through the sign-in gate. */
    method OpenProfile()
      modifies this`activeSection
      ensures activeSection == "profile"
    {
      activeSection := "profile";
    }

    /** The menu button flips the mobile menu. */
    method ToggleMobileMenu()
      modifies this`mobileMenuOpen
      ensures mobileMenuOpen == !old(mobileMenuOpen)
    {
      mobileMenuOpen := !mobileMenuOpen;
    }

    /** The "Sign In" button. */
    method OpenAuthModal()
      modifies this`authModalOpen
      ensures authModalOpen
    {
      authModalOpen := true;
    }

    /** The mobile menu's "Sign In to Unlock All Features" button: the dialog
        opens and the menu closes. */
    method SignInFromMobileMenu()
      modifies this`authModalOpen, this`mobileMenuOpen
      ensures authModalOpen && !mobileMenuOpen
    {
      authModalOpen := true;
      mobileMenuOpen := false;
    }

    /** The dialog's `onClose`. */
    method CloseAuthModal()
      modifies this`authModalOpen
      ensures !authModalOpen
    {
      authModalOpen := false;
    }
  }
}
