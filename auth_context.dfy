/**
 * The authentication provider (contexts/AuthContext.tsx): its `user`, `loading` and `error`
 * state, the two keys it keeps in persistent browser storage, and the navigations it requests.
 * The identity SDK is not modelled: each of its answers is an argument.
 */
module AuthContext {
  import opened Options
  import opened JsString
  import JsonText
  import ProtectedRoute

  const UserKey: string := ProtectedRoute.StoredUserKey
  const TokenKey: string := "krizpay-auth-token"

  /** The fields of the SDK user the provider stores. */
  datatype AuthUser = AuthUser(
    uid: string,
    email: Option<string>,
    displayName: Option<string>,
    photoURL: Option<string>)

  /** `JSON.stringify({uid, email, displayName, photoURL})`. */
  function SerializeUser(u: AuthUser): (r: string)
    ensures r != [] && r[0] == '{'
  {
    "{\"uid\":" + (JsonText.Quote(u.uid)
    + (",\"email\":" + (JsonText.QuoteOrNull(u.email)
    + (",\"displayName\":" + (JsonText.QuoteOrNull(u.displayName)
    + (",\"photoURL\":" + (JsonText.QuoteOrNull(u.photoURL) + "}")))))))
  }

  /** `JSON.parse` of a stored user record, read field by field in the order they are written. */
  function ParseUser(s: string): Option<AuthUser> {
    match JsonText.Expect(s, "{\"uid\":")
    case None => None
    case Some(s1) =>
      match JsonText.ReadString(s1)
      case None => None
      case Some((uid, s2)) =>
        match JsonText.Expect(s2, ",\"email\":")
        case None => None
        case Some(s3) =>
          match JsonText.ReadStringOrNull(s3)
          case None => None
          case Some((email, s4)) =>
            match JsonText.Expect(s4, ",\"displayName\":")
            case None => None
            case Some(s5) =>
              match JsonText.ReadStringOrNull(s5)
              case None => None
              case Some((displayName, s6)) =>
                match JsonText.Expect(s6, ",\"photoURL\":")
                case None => None
                case Some(s7) =>
                  match JsonText.ReadStringOrNull(s7)
                  case None => None
                  case Some((photoURL, s8)) =>
                    if s8 == "}" then Some(AuthUser(uid, email, displayName, photoURL)) else None
  }

  /** The stored record reads back as the user that was stored. */
  lemma {:induction false} ParseSerializedUser(u: AuthUser)
    ensures ParseUser(SerializeUser(u)) == Some(u)
  {
    var t7 := JsonText.QuoteOrNull(u.photoURL) + "}";
    var t6 := ",\"photoURL\":" + t7;
    var t5 := JsonText.QuoteOrNull(u.displayName) + t6;
    var t4 := ",\"displayName\":" + t5;
    var t3 := JsonText.QuoteOrNull(u.email) + t4;
    var t2 := ",\"email\":" + t3;
    var t1 := JsonText.Quote(u.uid) + t2;
    assert SerializeUser(u) == "{\"uid\":" + t1;
    JsonText.ExpectLiteral("{\"uid\":", t1);
    JsonText.QuoteRoundTrip(u.uid, t2);
    JsonText.ExpectLiteral(",\"email\":", t3);
    JsonText.QuoteOrNullRoundTrip(u.email, t4);
    JsonText.ExpectLiteral(",\"displayName\":", t5);
    JsonText.QuoteOrNullRoundTrip(u.displayName, t6);
    JsonText.ExpectLiteral(",\"photoURL\":", t7);
    JsonText.QuoteOrNullRoundTrip(u.photoURL, "}");
  }

  /** A stored user is never the empty string, so the route guard sees it as present. */
  lemma {:induction false} StoredUserIsVisibleToGuard(storage: map<string, string>, u: AuthUser)
    ensures ProtectedRoute.HasStoredUser(storage[UserKey := SerializeUser(u)])
  {
  }

  /** The result of the popup: a credential with or without an access token, or an SDK error. */
  datatype PopupOutcome = PopupSignedIn(accessToken: Option<string>) | PopupFailed(code: string, message: string)

  /** The result of `getRedirectResult`: nothing pending, a credential, or an error. */
  datatype RedirectOutcome = NoPendingResult | RedirectSignedIn(accessToken: Option<string>) | RedirectFailed

  const CancelledMessage: string := "Sign-in was cancelled. Please try again or use the redirect method."
  const BlockedMessage: string := "Pop-up was blocked. Please allow pop-ups or use the redirect method."
  const NetworkMessage: string := "Network error. Please check your connection and try again."
  const TooManyMessage: string := "Too many failed attempts. Please try again later."
  const BrowserSecurityMessage: string := "Browser security settings are blocking the popup. Please use the redirect sign-in method instead."
  const GenericPopupMessage: string := "Failed to sign in. Please try the redirect method or try again later."
  const RedirectResultMessage: string := "Failed to complete sign-in. Please try again."
  const RedirectStartMessage: string := "Failed to initiate sign-in. Please try again."
  const SignOutMessage: string := "Failed to sign out. Please try again."

  /** Whether the SDK's error text points at the opener policy. */
  predicate MentionsOpenerPolicy(message: string) {
    Contains(message, "Cross-Origin-Opener-Policy") || Contains(message, "window.closed")
  }

  /** The `switch (error.code)` of the popup sign-in. */
  function PopupErrorMessage(code: string, message: string): (m: string)
    ensures code == "auth/popup-closed-by-user" ==> m == CancelledMessage
    ensures code == "auth/popup-blocked" ==> m == BlockedMessage
    ensures code == "auth/network-request-failed" ==> m == NetworkMessage
    ensures code == "auth/too-many-requests" ==> m == TooManyMessage
    ensures m == BrowserSecurityMessage <==>
              code !in {"auth/popup-closed-by-user", "auth/popup-blocked", "auth/network-request-failed", "auth/too-many-requests"}
              && MentionsOpenerPolicy(message)
    ensures m == GenericPopupMessage <==>
              code !in {"auth/popup-closed-by-user", "auth/popup-blocked", "auth/network-request-failed", "auth/too-many-requests"}
              && !MentionsOpenerPolicy(message)
  {
    if code == "auth/popup-closed-by-user" then CancelledMessage
    else if code == "auth/popup-blocked" then BlockedMessage
    else if code == "auth/network-request-failed" then NetworkMessage
    else if code == "auth/too-many-requests" then TooManyMessage
    else if MentionsOpenerPolicy(message) then BrowserSecurityMessage
    else GenericPopupMessage
  }

  /** A named code decides the message alone: the error text is consulted only for other codes. */
  lemma {:induction false} NamedCodesIgnoreMessage(code: string, m1: string, m2: string)
    requires code in {"auth/popup-closed-by-user", "auth/popup-blocked", "auth/network-request-failed", "auth/too-many-requests"}
    ensures PopupErrorMessage(code, m1) == PopupErrorMessage(code, m2)
  {
  }

  /** `if (token) localStorage.setItem('krizpay-auth-token', token)`. */
  function StoreToken(storage: map<string, string>, token: Option<string>): (r: map<string, string>)
    ensures token.Some? && token.value != "" ==> TokenKey in r && r[TokenKey] == token.value
    ensures token.None? || token.value == "" ==> r == storage
    ensures forall k :: k in storage && k != TokenKey ==> k in r && r[k] == storage[k]
    ensures r.Keys <= storage.Keys + {TokenKey}
  {
    if token.Some? && token.value != "" then storage[TokenKey := token.value] else storage
  }

  class AuthProvider {
    var user: Option<AuthUser>
    var loading: bool
    var error: Option<string>
    /** The persistent browser storage, shared with every other reader of it. */
    var storage: map<string, string>
    /** The paths passed to `router.push`, oldest first. */
    var navigations: seq<string>

    /** The provider's first render: no user yet, loading, no error. */
    constructor (storage0: map<string, string>)
      ensures user == None && loading && error == None
      ensures storage == storage0 && navigations == []
    {
      user := None;
      loading := true;
      error := None;
      storage := storage0;
      navigations := [];
    }

    /** The `onAuthStateChanged` callback: mirrors the SDK user into state and storage. */
    method OnAuthStateChanged(u: Option<AuthUser>)
      modifies this
      ensures user == u && !loading
      ensures error == old(error) && navigations == old(navigations)
      ensures u.Some? ==> storage == old(storage)[UserKey := SerializeUser(u.value)]
      ensures u.None? ==> storage == old(storage) - {UserKey}
      ensures u.Some? <==> UserKey in storage
      ensures u.Some? ==> ParseUser(storage[UserKey]) == Some(u.value)
    {
      user := u;
      loading := false;
      if u.Some? {
        storage := storage[UserKey := SerializeUser(u.value)];
        ParseSerializedUser(u.value);
      } else {
        storage := storage - {UserKey};
      }
    }

    /** `handleRedirectResult`, run once when the provider mounts. */
    method HandleRedirectResult(outcome: RedirectOutcome)
      modifies this
      ensures user == old(user) && loading == old(loading)
      ensures outcome.NoPendingResult? ==> storage == old(storage) && navigations == old(navigations) && error == old(error)
      ensures outcome.RedirectSignedIn? ==>
                storage == StoreToken(old(storage), outcome.accessToken)
                && navigations == old(navigations) + ["/dashboard"] && error == old(error)
      ensures outcome.RedirectFailed? ==>
                storage == old(storage) && navigations == old(navigations) && error == Some(RedirectResultMessage)
    {
      match outcome
      case NoPendingResult =>
      case RedirectSignedIn(token) =>
        storage := StoreToken(storage, token);
        navigations := navigations + ["/dashboard"];
      case RedirectFailed =>
        error := Some(RedirectResultMessage);
    }

    /** `signInWithGoogle` (popup): `signedIn` is whether it returns the credential rather than `null`. */
    method SignInWithGoogle(outcome: PopupOutcome) returns (signedIn: bool)
      modifies this
      ensures signedIn <==> outcome.PopupSignedIn?
      ensures !loading && user == old(user)
      ensures outcome.PopupSignedIn? ==>
                error == None && storage == StoreToken(old(storage), outcome.accessToken)
                && navigations == old(navigations) + ["/dashboard"]
      ensures outcome.PopupFailed? ==>
                error == Some(PopupErrorMessage(outcome.code, outcome.message))
                && storage == old(storage) && navigations == old(navigations)
    {
      loading := true;
      error := None;
      match outcome {
        case PopupSignedIn(token) =>
          storage := StoreToken(storage, token);
          navigations := navigations + ["/dashboard"];
          signedIn := true;
        case PopupFailed(code, message) =>
          error := Some(PopupErrorMessage(code, message));
          signedIn := false;
      }
      loading := false;
    }

    /**
     * `signInWithGoogleRedirect`: on success the browser leaves the page while still loading;
     * on failure loading ends with an error.
     */
    method SignInWithGoogleRedirect(started: bool)
      modifies this
      ensures user == old(user) && storage == old(storage) && navigations == old(navigations)
      ensures started ==> loading && error == None
      ensures !started ==> !loading && error == Some(RedirectStartMessage)
    {
      loading := true;
      error := None;
      if !started {
        error := Some(RedirectStartMessage);
        loading := false;
      }
    }

    /** `signOut`: `succeeded` is whether the SDK's sign-out resolved. */
    method SignOut(succeeded: bool)
      modifies this
      ensures !loading && user == old(user)
      ensures succeeded ==>
                storage == old(storage) - {UserKey, TokenKey} && navigations == old(navigations) + ["/"]
                && error == None
      ensures !succeeded ==>
                storage == old(storage) && navigations == old(navigations) && error == Some(SignOutMessage)
      ensures succeeded ==> UserKey !in storage && TokenKey !in storage
    {
      loading := true;
      error := None;
      if succeeded {
        storage := storage - {UserKey};
        storage := storage - {TokenKey};
        navigations := navigations + ["/"];
      } else {
        error := Some(SignOutMessage);
      }
      loading := false;
    }

    method ClearError()
      modifies this
      ensures error == None
      ensures user == old(user) && loading == old(loading) && storage == old(storage) && navigations == old(navigations)
    {
      error := None;
    }
  }

  /** After a sign-out the route guard finds no stored user, so it does not reload the page. */
  lemma {:induction false} SignedOutStorageHasNoUser(storage: map<string, string>)
    ensures !ProtectedRoute.HasStoredUser(storage - {UserKey, TokenKey})
  {
  }
}
