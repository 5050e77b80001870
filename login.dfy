/** The login screen (screens/User/Login.js): the ordered required-field
    check, the form of the OAuth 2.0 resource owner password credentials
    request (section 4.3 of RFC 6749), and the route chosen after login. */
module Login {
  import opened Common

  /** `errMsg`: unset at first, `null` after a passed check, or a message. */
  datatype ErrorMessage = Unset | Null | Msg(text: string)

  const UsernameMissing: string := "Vui lòng nhập username!"
  const PasswordMissing: string := "Vui lòng nhập password!"
  const WrongCredentials: string := "Sai tài khoản hoặc mật khẩu!"

  /** Whether an input holds a truthy value: typed and not empty. */
  predicate Filled(v: Option<string>) {
    v.Some? && v.value != ""
  }

  /** What `validate` leaves in `errMsg`: the username is checked first. */
  function CheckFields(username: Option<string>, password: Option<string>): (e: ErrorMessage)
    ensures e == Null <==> Filled(username) && Filled(password)
    ensures !Filled(username) ==> e == Msg(UsernameMissing)
    ensures Filled(username) && !Filled(password) ==> e == Msg(PasswordMissing)
  {
    if !Filled(username) then Msg(UsernameMissing)
    else if !Filled(password) then Msg(PasswordMissing)
    else Null
  }

  /** `URLSearchParams.append` turns an `undefined` value into "undefined". */
  function Stringify(v: Option<string>): string {
    v.GetOr("undefined")
  }

  /** The body of the token request, in the order the values are appended. */
  function TokenForm(username: string, password: string, clientId: Option<string>, clientSecret: Option<string>)
    : (f: seq<(string, string)>)
    ensures |f| == 5
    ensures f[0] == ("username", username) && f[1] == ("password", password)
    ensures f[2].0 == "client_id" && f[3].0 == "client_secret"
    ensures clientId.Some? ==> f[2].1 == clientId.value
    ensures clientId.None? ==> f[2].1 == "undefined"
    ensures clientSecret.Some? ==> f[3].1 == clientSecret.value
    ensures clientSecret.None? ==> f[3].1 == "undefined"
    ensures f[4] == ("grant_type", "password")
  {
    [("username", username), ("password", password),
     ("client_id", Stringify(clientId)), ("client_secret", Stringify(clientSecret)),
     ("grant_type", "password")]
  }

  /** The form names each parameter of the request once. */
  lemma TokenFormNamesDistinct(username: string, password: string, clientId: Option<string>, clientSecret: Option<string>)
    ensures var f := TokenForm(username, password, clientId, clientSecret);
            forall i, j :: 0 <= i < j < |f| ==> f[i].0 != f[j].0
  {
  }

  /** The screen the navigation stack is reset to. */
  datatype Route = ExpertHome | ChooseMode

  /** `u.data.role === "EXPERT"`: experts go to their home, everybody else
      (a missing role included) to the mode chooser. */
  function RouteFor(role: Option<string>): (r: Route)
    ensures r == ExpertHome <==> role == Some("EXPERT")
  {
    if role == Some("EXPERT") then ExpertHome else ChooseMode
  }

  datatype Tokens = Tokens(access: string, refresh: string)

  /** The fields of the current user that are read. */
  datatype Profile = Profile(id: int, role: Option<string>)

  /** What `login` does, as far as anything leaves the screen. */
  datatype Outcome = Outcome(
    request: Option<seq<(string, string)>>,
    stored: Option<Tokens>,
    signedIn: Option<Profile>,
    route: Option<Route>)

  class LoginScreen {
    var username: Option<string>
    var password: Option<string>
    var errMsg: ErrorMessage

    constructor ()
      ensures username == None && password == None && errMsg == Unset
    {
      username, password, errMsg := None, None, Unset;
    }

    method TypeUsername(t: string)
      modifies this`username
      ensures username == Some(t)
    {
      username := Some(t);
    }

    method TypePassword(t: string)
      modifies this`password
      ensures password == Some(t)
    {
      password := Some(t);
    }

    /** `validate`. */
    method Validate() returns (ok: bool)
      modifies this`errMsg
      ensures errMsg == CheckFields(username, password)
      ensures ok <==> errMsg == Null
    {
      if username == None || username.value == "" {
        errMsg := Msg(UsernameMissing);
        return false;
      }
      if password == None || password.value == "" {
        errMsg := Msg(PasswordMissing);
        return false;
      }
      errMsg := Null;
      return true;
    }

    /** `login`. Nothing is sent unless both fields are filled. The tokens the
        server grants are stored before the current user is fetched; once that
        arrives the user is signed in and routed by role. A failure of either
        request shows the wrong-credentials message. */
    method LogIn(clientId: Option<string>, clientSecret: Option<string>, granted: Option<Tokens>, me: Option<Profile>)
      returns (o: Outcome)
      modifies this`errMsg
      ensures !Filled(old(username)) || !Filled(old(password)) ==>
        o == Outcome(None, None, None, None) && errMsg == CheckFields(old(username), old(password))
      ensures Filled(old(username)) && Filled(old(password)) ==>
        && o.request == Some(TokenForm(old(username).value, old(password).value, clientId, clientSecret))
        && o.stored == granted
        && (o.signedIn.Some? <==> granted.Some? && me.Some?)
        && (o.signedIn.Some? ==> o.signedIn == me && o.route == Some(RouteFor(me.value.role)))
        && (o.signedIn == None ==> o.route == None && errMsg == Msg(WrongCredentials))
        && (o.signedIn.Some? ==> errMsg == Null)
    {
      var ok := Validate();
      if !ok {
        return Outcome(None, None, None, None);
      }
      var form := TokenForm(username.value, password.value, clientId, clientSecret);
      if granted == None {
        errMsg := Msg(WrongCredentials);
        return Outcome(Some(form), None, None, None);
      }
      if me == None {
        errMsg := Msg(WrongCredentials);
        return Outcome(Some(form), granted, None, None);
      }
      o := Outcome(Some(form), granted, me, Some(RouteFor(me.value.role)));
    }
  }
}
