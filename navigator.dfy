/**
 * Login-aware navigation (`goto_with_login`): navigate, and while the page
 * that loads is a sign-in page wait for the user to finish signing in, then
 * navigate again; at most two rounds. The browser is replaced by a script
 * that says, for each round, where the navigation landed and whether the
 * wait for the sign-in to finish succeeded.
 */
module Navigator {
  import opened Text

  /** `for _ in range(2)`. */
  const LOGIN_ROUNDS: nat := 2

  datatype LoginWait = LoginCompleted | LoginTimedOut

  /** The outcome of one `page.goto`: the URL the page shows afterwards, and
      how a wait for leaving the sign-in page would end; or a timeout. */
  datatype Landing = Landed(url: string, loginWait: LoginWait) | GotoTimedOut

  datatype NavFailure = NavigationTimeout | LoginTimeout

  /** Returned normally on a non-sign-in URL, fell through after two rounds on
      a sign-in page (logged and ignored), or raised. */
  datatype NavOutcome = Arrived(url: string) | StillOnSignIn | Raised(failure: NavFailure)

  /** The test on the lowered URL. */
  predicate OnSignInPage(url: string) {
    Contains(Lower(url), "signin") || Contains(Lower(url), "ap/signin")
  }

  /** The "ap/signin" test adds nothing: "signin" occurs in it. */
  lemma SignInMarkerSuffices(url: string)
    ensures OnSignInPage(url) <==> Contains(Lower(url), "signin")
  {
    if Contains(Lower(url), "ap/signin") {
      assert OccursAt("ap/signin", 3, "signin");
      ContainsInfix(Lower(url), "ap/signin", "signin");
    }
  }

  /** What the rounds from round `k` on produce. */
  function RoundsFrom(landing: nat -> Landing, k: nat): NavOutcome
    decreases LOGIN_ROUNDS - k
  {
    if k >= LOGIN_ROUNDS then StillOnSignIn
    else match landing(k)
      case GotoTimedOut => Raised(NavigationTimeout)
      case Landed(url, wait) =>
        if !OnSignInPage(url) then Arrived(url)
        else if wait == LoginTimedOut then Raised(LoginTimeout)
        else RoundsFrom(landing, k + 1)
  }

  /** `goto_with_login`: `navigations` counts the calls of `page.goto`. */
  method GotoWithLogin(landing: nat -> Landing) returns (r: NavOutcome, navigations: nat)
    ensures r == RoundsFrom(landing, 0)
    ensures 1 <= navigations <= LOGIN_ROUNDS
    ensures r.Arrived? ==> !OnSignInPage(r.url) && landing(navigations - 1).Landed? && landing(navigations - 1).url == r.url
    ensures r == StillOnSignIn ==> navigations == LOGIN_ROUNDS
  {
    var k := 0;
    navigations := 0;
    while k < LOGIN_ROUNDS
      invariant 0 <= k <= LOGIN_ROUNDS && navigations == k
      invariant RoundsFrom(landing, 0) == RoundsFrom(landing, k)
    {
      navigations := navigations + 1;
      match landing(k)
      case GotoTimedOut =>
        r := Raised(NavigationTimeout);
        return;
      case Landed(url, wait) =>
        if !OnSignInPage(url) {
          r := Arrived(url);
          return;
        }
        if wait == LoginTimedOut {
          r := Raised(LoginTimeout);
          return;
        }
      k := k + 1;
    }
    r := StillOnSignIn;
  }

  /** The soft failure happens exactly when both rounds landed on a sign-in
      page and both waits for the sign-in to finish succeeded. */
  lemma {:induction false} SoftFailureOnlyAfterTwoSignIns(landing: nat -> Landing)
    ensures RoundsFrom(landing, 0) == StillOnSignIn <==>
      forall k :: 0 <= k < LOGIN_ROUNDS ==>
        landing(k).Landed? && OnSignInPage(landing(k).url) && landing(k).loginWait == LoginCompleted
  {
    assert RoundsFrom(landing, 2) == StillOnSignIn;
    if RoundsFrom(landing, 0) == StillOnSignIn {
      assert RoundsFrom(landing, 1) == StillOnSignIn;
      forall k | 0 <= k < LOGIN_ROUNDS
        ensures landing(k).Landed? && OnSignInPage(landing(k).url) && landing(k).loginWait == LoginCompleted
      {
        assert k == 0 || k == 1;
      }
    }
  }

  /** A timed-out wait for the sign-in is raised, never swallowed: it is
      raised exactly when some round landed on a sign-in page whose wait timed
      out, after earlier rounds that signed in successfully. */
  lemma LoginTimeoutIsRaised(landing: nat -> Landing)
    ensures RoundsFrom(landing, 0) == Raised(LoginTimeout) <==>
      exists k :: 0 <= k < LOGIN_ROUNDS
        && landing(k).Landed? && OnSignInPage(landing(k).url) && landing(k).loginWait == LoginTimedOut
        && forall j :: 0 <= j < k ==>
             landing(j).Landed? && OnSignInPage(landing(j).url) && landing(j).loginWait == LoginCompleted
  {
    if RoundsFrom(landing, 0) == Raised(LoginTimeout) {
      if !(landing(0).Landed? && OnSignInPage(landing(0).url) && landing(0).loginWait == LoginTimedOut) {
        assert RoundsFrom(landing, 1) == Raised(LoginTimeout);
      }
    }
  }
}
