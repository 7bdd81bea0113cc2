/**
 * The app shell (src/pages/Index.tsx): it restores the session from local
 * storage, switches between the sign-in screen and the signed-in pages, and
 * routes a page name to the view that renders it.
 */
module Index {
  import opened Storage

  /** The keys logging out clears. */
  const SessionKeys: set<string> := {"isAuthenticated", "userEmail", "userName", "userUniversity"}

  /** The six page names that show the "Coming Soon" placeholder. */
  const ComingSoonPages: set<string> := {"my-books", "profile", "messages", "search", "wishlist", "community"}

  /** The stored flag reads as signed in only when it is exactly the text "true". */
  predicate StoredAuth(items: map<string, string>) {
    "isAuthenticated" in items && items["isAuthenticated"] == "true"
  }

  /** The store after `handleLogout`'s four removals. */
  function AfterLogout(items: map<string, string>): map<string, string> {
    items - SessionKeys
  }

  /** Logging out removes the four session keys, keeps every other entry, and leaves no session to restore. */
  lemma LogoutForgetsSession(items: map<string, string>)
    ensures AfterLogout(items).Keys == items.Keys - SessionKeys
    ensures forall k :: k in AfterLogout(items) ==> AfterLogout(items)[k] == items[k]
    ensures !StoredAuth(AfterLogout(items))
  {
  }

  /** Logging out twice is logging out once. */
  lemma LogoutIdempotent(items: map<string, string>)
    ensures AfterLogout(AfterLogout(items)) == AfterLogout(items)
  {
  }

  /** What the shell shows. */
  datatype View = Loading | AuthScreen | CategoriesPage | AddBookPage | ComingSoon | DashboardPage

  /** `renderCurrentPage`: the view for a page name. */
  function Route(page: string): View {
    if page == "categories" then CategoriesPage
    else if page == "add-book" then AddBookPage
    else if page in ComingSoonPages then ComingSoon
    else DashboardPage
  }

  /** Routing is total, and each known name reaches its page; any other name falls back to the dashboard. */
  lemma RouteCases(page: string)
    ensures Route(page) in {CategoriesPage, AddBookPage, ComingSoon, DashboardPage}
    ensures Route(page) == CategoriesPage <==> page == "categories"
    ensures Route(page) == AddBookPage <==> page == "add-book"
    ensures Route(page) == ComingSoon <==> page in ComingSoonPages
    ensures Route(page) == DashboardPage <==> page !in ComingSoonPages + {"categories", "add-book"}
  {
  }

  /** The whole screen: a spinner while loading, the sign-in screen while signed out, else the routed page. */
  function Render(isLoading: bool, isAuthenticated: bool, page: string): View {
    if isLoading then Loading else if !isAuthenticated then AuthScreen else Route(page)
  }

  /** Signed out, the sign-in screen shows whatever page is current; signed in, it never shows. */
  lemma AuthScreenIffSignedOut(isAuthenticated: bool, page: string)
    ensures Render(false, isAuthenticated, page) == AuthScreen <==> !isAuthenticated
    ensures !isAuthenticated ==> forall p :: Render(false, isAuthenticated, p) == Render(false, isAuthenticated, page)
  {
  }

  class App {
    var isAuthenticated: bool
    var currentPage: string
    var isLoading: bool

    constructor ()
      ensures !isAuthenticated && currentPage == "dashboard" && isLoading
    {
      isAuthenticated, currentPage, isLoading := false, "dashboard", true;
    }

    /** The mount effect: a stored "true" restores the session; loading then ends. */
    method RestoreSession(store: LocalStorage)
      modifies this`isAuthenticated, this`isLoading
      ensures isAuthenticated == (old(isAuthenticated) || StoredAuth(store.items))
      ensures !isLoading && currentPage == old(currentPage)
    {
      var status := store.GetItem("isAuthenticated");
      if status.Some? && status.value == "true" {
        isAuthenticated := true;
      }
      isLoading := false;
    }

    /** `handleAuthSuccess`: signed in, on the dashboard. */
    method HandleAuthSuccess()
      modifies this`isAuthenticated, this`currentPage
      ensures isAuthenticated && currentPage == "dashboard" && isLoading == old(isLoading)
    {
      isAuthenticated, currentPage := true, "dashboard";
    }

    /** `handleLogout`: the four session keys are removed, the user is signed out, the page is reset. */
    method HandleLogout(store: LocalStorage)
      modifies this`isAuthenticated, this`currentPage, store
      ensures store.items == AfterLogout(old(store.items))
      ensures !isAuthenticated && currentPage == "dashboard" && isLoading == old(isLoading)
    {
      store.RemoveItem("isAuthenticated");
      store.RemoveItem("userEmail");
      store.RemoveItem("userName");
      store.RemoveItem("userUniversity");
      assert store.items == old(store.items) - SessionKeys;
      isAuthenticated, currentPage := false, "dashboard";
    }

    /** `handleNavigate`: only the current page changes. */
    method HandleNavigate(page: string)
      modifies this`currentPage
      ensures currentPage == page
    {
      currentPage := page;
    }
  }
}
