/** The navigation guard of src/router/index.js: before each navigation it
    sets the page title and decides, from the target's route metadata and the
    session's `isAuthenticated`, whether to proceed or redirect. Path matching
    is vue-router's and is not modelled; the route table is data. */
module Router {
  import opened Js

  /** The `meta` of a route record. */
  datatype Meta = Meta(requiresAuth: bool, requiresGuest: bool, title: Option<string>)

  /** The navigation target `to`. */
  datatype Target = Target(fullPath: string, meta: Meta)

  /** The argument given to `next`: no argument, or a location. */
  datatype Next = Proceed | Redirect(path: string, redirect: Option<string>)

  /** What the guard does: the `document.title` it assigns (`None` if it
      fails before assigning one) and its call to `next`. */
  datatype Navigation = Navigation(title: Option<string>, next: Next)

  const Suffix: string := " - Task Manager"

  /** `${to.meta.title || 'App'} - Task Manager` */
  function PageTitle(meta: Meta): (title: string)
    ensures meta.title.Some? && meta.title.value != "" ==> title == meta.title.value + Suffix
    ensures meta.title.None? || meta.title.value == "" ==> title == "App" + Suffix
  {
    (if meta.title.Some? && meta.title.value != "" then meta.title.value else "App") + Suffix
  }

  /** The guard. `session` is the store's `isAuthenticated`, or `None` when
      reading the auth store throws; the guard then fails closed to `/login`.
      Otherwise it is a three-way decision in which `requiresAuth` is checked
      first, so a route with both flags always redirects. */
  function Guard(to: Target, session: Option<bool>): (n: Navigation)
    ensures session.None? ==> n == Navigation(None, Redirect("/login", None))
    ensures session.Some? ==> n.title == Some(PageTitle(to.meta))
    ensures session.Some? ==>
      (n.next == Redirect("/login", Some(to.fullPath)) <==> to.meta.requiresAuth && !session.value)
    ensures session.Some? ==>
      (n.next == Redirect("/dashboard", None) <==> to.meta.requiresGuest && session.value)
    ensures session.Some? ==>
      (n.next == Proceed <==> !(to.meta.requiresAuth && !session.value) && !(to.meta.requiresGuest && session.value))
  {
    match session
    case None => Navigation(None, Redirect("/login", None))
    case Some(isAuthenticated) =>
      var title := PageTitle(to.meta);
      if to.meta.requiresAuth && !isAuthenticated then
        Navigation(Some(title), Redirect("/login", Some(to.fullPath)))
      else if to.meta.requiresGuest && isAuthenticated then
        Navigation(Some(title), Redirect("/dashboard", None))
      else
        Navigation(Some(title), Proceed)
  }

  /** A route record: its path, its metadata and its redirect, if any. */
  datatype Route = Route(path: string, meta: Meta, redirectTo: Option<string>)

  /** The route table (components left out). */
  const Routes: seq<Route> := [
    Route("/login", Meta(false, true, Some("Login")), None),
    Route("/dashboard", Meta(true, false, Some("Dashboard")), None),
    Route("/", Meta(false, false, None), Some("/dashboard")),
    Route("/:pathMatch(.*)*", Meta(false, false, Some("404 Not Found")), None)
  ]

  /** The metadata of the route whose path is exactly `path`, if any. */
  function MetaOf(path: string): Option<Meta> {
    if path == "/login" then Some(Routes[0].meta)
    else if path == "/dashboard" then Some(Routes[1].meta)
    else None
  }

  /** The guard's two redirects land on routes the guard lets through in the
      same session state, so it never redirects twice in a row. */
  lemma NoRedirectLoop(to: Target, isAuthenticated: bool)
    ensures var n := Guard(to, Some(isAuthenticated));
      n.next.Redirect? ==>
        MetaOf(n.next.path).Some? &&
        Guard(Target(n.next.path, MetaOf(n.next.path).value), Some(isAuthenticated)).next == Proceed
  {
  }
}
