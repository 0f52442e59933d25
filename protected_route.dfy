/**
 * The client-side route guard (components/auth/ProtectedRoute.tsx): what it renders from the
 * provider's `loading` and `user`, and the navigations its two effects request, the second of
 * which falls back on the stored user and on the cookie string.
 */
module ProtectedRoute {
  import opened JsString
  import UriComponent

  const StoredUserKey: string := "krizpay-auth-user"
  const RedirectPrefix: string := "/signin?redirect="

  /** The rendered output: the caller's fallback, the built-in spinner, `null`, or the children. */
  datatype Render = Fallback | DefaultSpinner | Nothing | Children

  /** What the effects ask the browser to do, in order. */
  datatype Action = Push(url: string) | Reload

  /** `fallback || <spinner>` while loading, `null` without a user, else the children. */
  function RenderOf(loading: bool, hasUser: bool, hasFallback: bool): (r: Render)
    ensures loading ==> (r == if hasFallback then Fallback else DefaultSpinner)
    ensures r == Children <==> !loading && hasUser
    ensures r == Nothing <==> !loading && !hasUser
  {
    if loading then (if hasFallback then Fallback else DefaultSpinner)
    else if !hasUser then Nothing
    else Children
  }

  /** `` `/signin?redirect=${encodeURIComponent(currentPath)}` ``. */
  function SignInUrl(path: string): (url: string)
    ensures StartsWith(url, RedirectPrefix)
  {
    RedirectPrefix + UriComponent.Encode(path)
  }

  /** `localStorage.getItem('krizpay-auth-user')` is truthy: present and not empty. */
  predicate HasStoredUser(storage: map<string, string>) {
    StoredUserKey in storage && storage[StoredUserKey] != ""
  }

  /** The substring test on `document.cookie`. */
  predicate CookieMentionsToken(cookie: string) {
    Contains(cookie, "auth-token=") || Contains(cookie, "firebase-auth-token=") || Contains(cookie, "__session=")
  }

  /**
   * The navigations the two effects request after a render with these inputs: the first effect's
   * push, then the second effect's push or reload.
   */
  function Effects(loading: bool, hasUser: bool, storage: map<string, string>, cookie: string, path: string): (r: seq<Action>)
    ensures loading || hasUser ==> r == []
    ensures !loading && !hasUser ==> 1 <= |r| <= 2 && r[0] == Push(SignInUrl(path))
    ensures (|r| == 2 && r[1] == Reload) <==> !loading && !hasUser && HasStoredUser(storage)
    ensures (|r| == 2 && r[1] == Push(SignInUrl(path)))
            <==> !loading && !hasUser && !HasStoredUser(storage) && !CookieMentionsToken(cookie)
  {
    if loading || hasUser then []
    else
      var first := [Push(SignInUrl(path))];
      if !HasStoredUser(storage) && !CookieMentionsToken(cookie) then first + [Push(SignInUrl(path))]
      else if HasStoredUser(storage) then first + [Reload]
      else first
  }

  /** A signed-in user always sees exactly the children, and no navigation is requested. */
  lemma {:induction false} SignedInSeesChildren(hasFallback: bool, storage: map<string, string>, cookie: string, path: string)
    ensures RenderOf(false, true, hasFallback) == Children
    ensures Effects(false, true, storage, cookie, path) == []
  {
  }

  /** A cookie mentioning a token but no stored user leaves only the first effect's push. */
  lemma {:induction false} CookieAloneKeepsOnePush(storage: map<string, string>, cookie: string, path: string)
    requires !HasStoredUser(storage) && CookieMentionsToken(cookie)
    ensures Effects(false, false, storage, cookie, path) == [Push(SignInUrl(path))]
  {
  }

  /** `firebase-auth-token=` contains `auth-token=`, so the middle test never decides anything. */
  lemma {:induction false} FirebaseCookieTestIsRedundant(cookie: string)
    ensures CookieMentionsToken(cookie) <==> Contains(cookie, "auth-token=") || Contains(cookie, "__session=")
  {
    if Contains(cookie, "firebase-auth-token=") {
      var i :| 0 <= i <= |cookie| - |"firebase-auth-token="| && OccursAt(cookie, "firebase-auth-token=", i);
      assert cookie[i + 9..i + 20] == cookie[i..i + 20][9..];
      assert OccursAt(cookie, "auth-token=", i + 9);
    }
  }

  /**
   * The redirect parameter reads back as the current path, and it holds no `&` or `#` that could
   * end the query value early.
   */
  lemma {:induction false} RedirectParameterRoundTrip(path: string)
    ensures SignInUrl(path)[|RedirectPrefix|..] == UriComponent.Encode(path)
    ensures UriComponent.Decode(SignInUrl(path)[|RedirectPrefix|..]).Some?
    ensures UriComponent.Decode(SignInUrl(path)[|RedirectPrefix|..]).value == path
    ensures forall k :: |RedirectPrefix| <= k < |SignInUrl(path)| ==> SignInUrl(path)[k] != '&' && SignInUrl(path)[k] != '#'
  {
    var e := UriComponent.Encode(path);
    assert SignInUrl(path)[|RedirectPrefix|..] == e;
    UriComponent.DecodeEncode(path);
    UriComponent.EncodeSafe(path);
    forall k | |RedirectPrefix| <= k < |SignInUrl(path)|
      ensures SignInUrl(path)[k] != '&' && SignInUrl(path)[k] != '#'
    {
      assert SignInUrl(path)[k] == e[k - |RedirectPrefix|];
    }
  }
}
