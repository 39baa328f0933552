/** The top-level view choice. The session store's loading flag and user
    are inputs: the store itself is not part of this model. */
module App {
  import opened Types

  datatype View = LoadingScreen | AuthView | DashboardView

  /** The loading indicator while the session resolves, then the dashboard
      for a signed-in user and the auth page otherwise. */
  function AppContent(loading: bool, user: Option<User>): (v: View)
    ensures v == LoadingScreen <==> loading
    ensures v == DashboardView <==> !loading && user.Some?
    ensures v == AuthView <==> !loading && user.None?
  {
    if loading then LoadingScreen
    else match user
      case Some(_) => DashboardView
      case None => AuthView
  }

  /** The choice depends on the user only through whether there is one. */
  lemma AppContentIgnoresWhichUser(loading: bool, u1: User, u2: User)
    ensures AppContent(loading, Some(u1)) == AppContent(loading, Some(u2))
  {
  }
}
