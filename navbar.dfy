/*
 * The marketplace navbar's home link, chosen by the logged-in user's role.
 */
module Navbar {
  import opened Store

  datatype Link = Link(text: string, href: string)

  /**
   * `setupNavbar`: with no user, or no `users` row for them, the link is left
   * as the page has it (`None`); an artist gets the dashboard, anyone else home.
   */
  function HomeLink(user: Option<UserId>, role: Option<string>): (link: Option<Link>)
    ensures link.None? <==> user.None? || role.None?
    ensures link.Some? ==> (link.value == Link("Dashboard", "dashboard.html") <==> role.value == "artist")
    ensures link.Some? ==> (link.value == Link("Home", "index.html") <==> role.value != "artist")
  {
    if user.None? || role.None? then None
    else if role.value == "artist" then Some(Link("Dashboard", "dashboard.html"))
    else Some(Link("Home", "index.html"))
  }
}
