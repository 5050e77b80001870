/** The registration screen (screens/User/Register.js): the `user` object the
    inputs fill, the password check with its error state, the multipart form
    built from the object, and the follow-up expert record. */
module Registration {
  import opened Common

  /** A value of the `user` object: typed text, or the asset chosen in the
      image picker (of which only its `uri` is used). */
  datatype Value = Text(text: string) | Picked(uri: string)

  /** A JavaScript object with string keys keeps its keys in insertion order,
      so `user` is a list of entries with distinct keys. */
  type UserObject = seq<(string, Value)>

  predicate DistinctKeys(u: UserObject) {
    forall i, j :: 0 <= i < j < |u| ==> u[i].0 != u[j].0
  }

  function Lookup(u: UserObject, key: string): (r: Option<Value>)
    ensures r.Some? <==> exists i :: 0 <= i < |u| && u[i].0 == key
  {
    if u == [] then None
    else if u[0].0 == key then Some(u[0].1)
    else Lookup(u[1..], key)
  }

  /** `{ ...u, [key]: v }`: an existing key keeps its place with the new value,
      a new key goes last. */
  function SetKey(u: UserObject, key: string, v: Value): (r: UserObject)
    ensures Lookup(u, key).Some? ==> |r| == |u|
    ensures Lookup(u, key) == None ==> r == u + [(key, v)]
    ensures Lookup(r, key) == Some(v)
    ensures forall i :: 0 <= i < |u| ==> r[i].0 == u[i].0
    ensures forall i :: 0 <= i < |u| && u[i].0 != key ==> r[i] == u[i]
  {
    if u == [] then [(key, v)]
    else if u[0].0 == key then [(key, v)] + u[1..]
    else [u[0]] + SetKey(u[1..], key, v)
  }

  /** Writing a key never duplicates one: the keys stay distinct. */
  lemma SetKeyKeepsDistinct(u: UserObject, key: string, v: Value)
    requires DistinctKeys(u)
    ensures DistinctKeys(SetKey(u, key, v))
  {
    var r := SetKey(u, key, v);
    if Lookup(u, key) == None {
      forall i, j | 0 <= i < j < |r|
        ensures r[i].0 != r[j].0
      {
        if j == |u| {
          assert r[i].0 == u[i].0 && u[i].0 != key;
        }
      }
    }
  }

  /** Writing a key leaves every other key's value as it was. */
  lemma {:induction false} SetKeyOthers(u: UserObject, key: string, v: Value, other: string)
    requires other != key
    ensures Lookup(SetKey(u, key, v), other) == Lookup(u, other)
  {
    if u != [] && u[0].0 != key {
      SetKeyOthers(u[1..], key, v, other);
    }
  }

  /** The object the screen starts from: `{ role: "USER" }`. */
  const InitialUser: UserObject := [("role", Text("USER"))]

  /* ================= PASSWORD CHECK ================= */

  /** The characters `.` does not match: LF, CR, LS and PS. */
  predicate IsLineTerminator(c: char) {
    c == '\n' || c == '\r' || c == '\U{2028}' || c == '\U{2029}'
  }

  predicate IsLower(c: char) { 'a' <= c <= 'z' }
  predicate IsUpper(c: char) { 'A' <= c <= 'Z' }
  predicate IsDigit(c: char) { '0' <= c <= '9' }

  /** The class ``[@$!%*?&.#^()_+\-=\[\]{};':"\\|,.<>\/?]``. */
  predicate IsSpecial(c: char) {
    c in SpecialChars
  }

  const SpecialChars: set<char> := {
    '@', '$', '!', '%', '*', '?', '&', '.', '#', '^', '(', ')', '_', '+', '-', '=',
    '[', ']', '{', '}', ';', '\'', ':', '"', '\\', '|', ',', '<', '>', '/'}

  /** The length `.{8,}` counts: UTF-16 code units, two for a character
      outside the Basic Multilingual Plane. */
  function Utf16Length(s: string): (n: nat)
    ensures |s| <= n <= 2 * |s|
  {
    if s == [] then 0 else (if s[0] as int > 0xFFFF then 2 else 1) + Utf16Length(s[1..])
  }

  function Contains(s: string, p: char -> bool): bool {
    exists i :: 0 <= i < |s| && p(s[i])
  }

  /** `/^(?=.*[a-z])(?=.*[A-Z])(?=.*\d)(?=.*[special]).{8,}$/.test(s)`: without
      the `s` and `m` flags the whole string must be free of line
      terminators, at least 8 code units long, and hold a lower-case letter,
      an upper-case letter, a digit and a special character. */
  predicate MatchesPolicy(s: string) {
    && (forall i :: 0 <= i < |s| ==> !IsLineTerminator(s[i]))
    && Utf16Length(s) >= 8
    && Contains(s, IsLower) && Contains(s, IsUpper) && Contains(s, IsDigit) && Contains(s, IsSpecial)
  }

  lemma PolicyAccepts()
    ensures MatchesPolicy("Abcdef1!")
  {
    var s := "Abcdef1!";
    assert IsUpper(s[0]) && IsLower(s[1]) && IsDigit(s[6]) && IsSpecial(s[7]);
    forall i | 0 <= i < |s|
      ensures !IsLineTerminator(s[i])
    {
    }
  }

  /** Every one of the four lookaheads is needed: a password that lacks a
      lower-case letter, an upper-case letter, a digit or a special
      character is refused whatever else it holds; "abcdef1!" is one. */
  lemma PolicyNeedsEveryClass(s: string)
    ensures !Contains(s, IsLower) ==> !MatchesPolicy(s)
    ensures !Contains(s, IsUpper) ==> !MatchesPolicy(s)
    ensures !Contains(s, IsDigit) ==> !MatchesPolicy(s)
    ensures !Contains(s, IsSpecial) ==> !MatchesPolicy(s)
    ensures !MatchesPolicy("abcdef1!")
  {
    var t := "abcdef1!";
    assert !Contains(t, IsUpper) by {
      forall i | 0 <= i < |t|
        ensures !IsUpper(t[i])
      {
      }
    }
  }

  /** `.{8,}` counts UTF-16 code units: fewer than 8 is refused, so is any
      text of fewer than 4 characters, and a text without characters beyond
      the Basic Multilingual Plane needs 8 characters; "Abcde1!" is refused. */
  lemma PolicyNeedsEight(s: string)
    ensures Utf16Length(s) < 8 ==> !MatchesPolicy(s)
    ensures |s| < 4 ==> !MatchesPolicy(s)
    ensures (forall i :: 0 <= i < |s| ==> s[i] as int <= 0xFFFF) && |s| < 8 ==> !MatchesPolicy(s)
    ensures !MatchesPolicy("Abcde1!")
  {
    if forall i :: 0 <= i < |s| ==> s[i] as int <= 0xFFFF {
      BmpLength(s);
    }
  }

  /** A text of characters inside the Basic Multilingual Plane takes one
      code unit per character. */
  lemma {:induction false} BmpLength(s: string)
    requires forall i :: 0 <= i < |s| ==> s[i] as int <= 0xFFFF
    ensures Utf16Length(s) == |s|
  {
    if s != [] {
      BmpLength(s[1..]);
    }
  }

  /** Six characters can pass when two of them lie outside the Basic
      Multilingual Plane: each counts as two code units. */
  lemma AstralCharactersCountTwice()
    ensures MatchesPolicy("Ab1!\U{1F600}\U{1F600}")
  {
    var s := "Ab1!\U{1F600}\U{1F600}";
    assert IsUpper(s[0]) && IsLower(s[1]) && IsDigit(s[2]) && IsSpecial(s[3]);
    assert Utf16Length(s) == 8;
    forall i | 0 <= i < |s|
      ensures !IsLineTerminator(s[i])
    {
    }
  }

  /** The `err` state: "" before any check, `true` for a missing or
      mismatched password, the policy message, or `false` after success. */
  datatype ErrorState = Initial | Flagged | Message(text: string) | Cleared

  const PolicyMessage: string := "Mật khẩu phải ≥ 8 ký tự, gồm chữ thường, chữ hoa, số và ký tự đặc biệt!"

  /** The helper text is shown for `!!err`. */
  predicate Shown(e: ErrorState) {
    e.Flagged? || e.Message?
  }

  /** Whether `user.password` is truthy: present and a non-empty text. */
  predicate HasPassword(u: UserObject) {
    match Lookup(u, "password")
    case Some(Text(t)) => t != ""
    case Some(Picked(_)) => true
    case None => false
  }

  /** What `validate` leaves in `err`, in the order it checks: a missing
      password or one `!==` to `confirm`, then the policy, else cleared. */
  function ValidationOutcome(u: UserObject): (r: ErrorState)
    ensures r == Cleared <==>
      HasPassword(u) && Lookup(u, "password") == Lookup(u, "confirm")
      && Lookup(u, "password").value.Text? && MatchesPolicy(Lookup(u, "password").value.text)
    ensures r != Cleared ==> Shown(r)
  {
    if !HasPassword(u) || Lookup(u, "password") != Lookup(u, "confirm") then Flagged
    else match Lookup(u, "password").value
      case Text(t) => if MatchesPolicy(t) then Cleared else Message(PolicyMessage)
      case Picked(_) => Message(PolicyMessage)
  }

  /** A password that is accepted is a text that meets the policy, and
      `confirm` holds the very same text. */
  lemma AcceptedPassword(u: UserObject)
    requires ValidationOutcome(u) == Cleared
    ensures exists t :: Lookup(u, "password") == Some(Text(t)) && Lookup(u, "confirm") == Some(Text(t))
                        && MatchesPolicy(t) && |t| >= 4
  {
    var t := Lookup(u, "password").value.text;
    assert Lookup(u, "confirm") == Some(Text(t));
  }

  /** The start state is never accepted: there is no password yet. */
  lemma InitialRejected()
    ensures ValidationOutcome(InitialUser) == Flagged
  {
  }

  /* ================= FORM ================= */

  /** One part of the multipart body. The avatar becomes a file part whose
      `uri` is `user.avatar.uri` (undefined when the value is not an asset);
      any other value is appended as text, an asset turned into
      "[object Object]". */
  datatype Part =
    | TextPart(name: string, value: string)
    | FilePart(name: string, uri: Option<string>, fileName: string, mimeType: string)

  function PartName(p: Part): string {
    match p
    case TextPart(n, _) => n
    case FilePart(n, _, _, _) => n
  }

  function PartFor(key: string, v: Value): (p: Part)
    ensures PartName(p) == key
  {
    if key == "avatar" then
      FilePart("avatar", match v case Picked(uri) => Some(uri) case Text(_) => None, "avatar.jpg", "image/jpeg")
    else
      TextPart(key, match v case Text(t) => t case Picked(_) => "[object Object]")
  }

  /** The parts the `for...in` appends, in key order, skipping `confirm`. */
  function FormParts(u: UserObject): seq<Part> {
    if u == [] then []
    else (if u[0].0 == "confirm" then [] else [PartFor(u[0].0, u[0].1)]) + FormParts(u[1..])
  }

  function Keys(u: UserObject): (r: seq<string>)
    ensures |r| == |u| && forall i :: 0 <= i < |u| ==> r[i] == u[i].0
  {
    if u == [] then [] else [u[0].0] + Keys(u[1..])
  }

  function PartNames(ps: seq<Part>): (r: seq<string>)
    ensures |r| == |ps| && forall i :: 0 <= i < |ps| ==> r[i] == PartName(ps[i])
  {
    if ps == [] then [] else [PartName(ps[0])] + PartNames(ps[1..])
  }

  function IsNotConfirm(k: string): bool { k != "confirm" }

  /** The submitted form names every key of `user` except `confirm`, in the
      object's order, once each. */
  lemma {:induction false} FormNamesAreKeysButConfirm(u: UserObject)
    ensures PartNames(FormParts(u)) == Filter(Keys(u), IsNotConfirm)
  {
    if u != [] {
      FormNamesAreKeysButConfirm(u[1..]);
      var head := if u[0].0 == "confirm" then [] else [PartFor(u[0].0, u[0].1)];
      PartNamesAppend(head, FormParts(u[1..]));
      assert Keys(u)[1..] == Keys(u[1..]);
    }
  }

  lemma {:induction false} PartNamesAppend(a: seq<Part>, b: seq<Part>)
    ensures PartNames(a + b) == PartNames(a) + PartNames(b)
  {
    var l, r := PartNames(a + b), PartNames(a) + PartNames(b);
    assert |l| == |r|;
    forall i | 0 <= i < |l|
      ensures l[i] == r[i]
    {
      if i < |a| {
        assert (a + b)[i] == a[i];
      } else {
        assert (a + b)[i] == b[i - |a|];
      }
    }
  }

  lemma {:induction false} FormPartsAppend(u: UserObject, w: UserObject)
    ensures FormParts(u + w) == FormParts(u) + FormParts(w)
  {
    if u != [] {
      assert (u + w)[0] == u[0] && (u + w)[1..] == u[1..] + w;
      FormPartsAppend(u[1..], w);
      var head := if u[0].0 == "confirm" then [] else [PartFor(u[0].0, u[0].1)];
      assert FormParts(u + w) == head + (FormParts(u[1..]) + FormParts(w));
    } else {
      assert u + w == w;
    }
  }

  /** The `for (let key in user)` loop of `register`. */
  method BuildForm(u: UserObject) returns (form: seq<Part>)
    ensures form == FormParts(u)
  {
    form := [];
    for i := 0 to |u|
      invariant form == FormParts(u[..i])
    {
      var (key, v) := u[i];
      FormPartsAppend(u[..i], [u[i]]);
      assert u[..i + 1] == u[..i] + [u[i]];
      if key != "confirm" {
        if key == "avatar" {
          form := form + [FilePart("avatar", match v case Picked(uri) => Some(uri) case Text(_) => None,
                                   "avatar.jpg", "image/jpeg")];
        } else {
          form := form + [TextPart(key, match v case Text(t) => t case Picked(_) => "[object Object]")];
        }
      }
    }
    assert u[..|u|] == u;
  }

  /** The `role` key is always submitted: it is set from the start and only
      ever overwritten. */
  lemma RoleSubmitted(u: UserObject)
    requires Lookup(u, "role").Some?
    ensures exists i :: 0 <= i < |FormParts(u)| && PartName(FormParts(u)[i]) == "role"
  {
    FormNamesAreKeysButConfirm(u);
    var i :| 0 <= i < |u| && u[i].0 == "role";
    assert Keys(u)[i] == "role";
    assert IsNotConfirm(Keys(u)[i]);
    assert "role" in Filter(Keys(u), IsNotConfirm);
    var names := PartNames(FormParts(u));
    var j :| 0 <= j < |names| && names[j] == "role";
  }

  /* ================= SCREEN ================= */

  /** The record created by the register endpoint, as far as it is read. */
  datatype CreatedUser = CreatedUser(id: int, role: Option<string>)

  /** What `register` sends and where it goes. */
  datatype Outcome = Outcome(form: Option<seq<Part>>, expertFor: Option<int>, toLogin: bool)

  /** The requests that follow a successful check: the form is posted; when
      the server created an "EXPERT" an expert record for that user id is
      posted too; the screen moves on to Login unless a request failed. */
  function RegisterOutcome(form: seq<Part>, created: Option<CreatedUser>, expertOk: bool): (o: Outcome)
    ensures o.form == Some(form)
    ensures o.expertFor.Some? <==> created.Some? && created.value.role == Some("EXPERT")
    ensures o.expertFor.Some? ==> o.expertFor.value == created.value.id
    ensures o.toLogin <==> created.Some? && (created.value.role == Some("EXPERT") ==> expertOk)
  {
    if created == None then Outcome(Some(form), None, false)
    else if created.value.role == Some("EXPERT") then Outcome(Some(form), Some(created.value.id), expertOk)
    else Outcome(Some(form), None, true)
  }

  class RegisterScreen {
    var user: UserObject
    var err: ErrorState

    constructor ()
      ensures user == InitialUser && err == Initial
    {
      user, err := InitialUser, Initial;
    }

    /** Typing into the input for `key`. */
    method Type(key: string, text: string)
      modifies this`user
      ensures user == SetKey(old(user), key, Text(text))
    {
      user := SetKey(user, key, Text(text));
    }

    /** The role picker ("USER" or "EXPERT"). */
    method PickRole(role: string)
      modifies this`user
      ensures user == SetKey(old(user), "role", Text(role))
    {
      user := SetKey(user, "role", Text(role));
    }

    /** `pickImage`: without permission an alert is shown; a chosen image
        becomes the `avatar`, a cancelled pick changes nothing. */
    method PickImage(granted: bool, chosen: Option<string>) returns (alerted: bool)
      modifies this`user
      ensures alerted <==> !granted
      ensures user == if granted && chosen.Some? then SetKey(old(user), "avatar", Picked(chosen.value)) else old(user)
    {
      alerted := !granted;
      if granted && chosen.Some? {
        user := SetKey(user, "avatar", Picked(chosen.value));
      }
    }

    /** `validate`: it sets `err` and answers whether it is cleared. */
    method Validate() returns (ok: bool)
      modifies this`err
      ensures err == ValidationOutcome(user)
      ensures ok <==> err == Cleared
    {
      err := ValidationOutcome(user);
      ok := err == Cleared;
    }

    /** `register`: nothing is sent when the check fails. */
    method Register(created: Option<CreatedUser>, expertOk: bool) returns (o: Outcome)
      modifies this`err
      ensures err == ValidationOutcome(user)
      ensures err != Cleared ==> o == Outcome(None, None, false)
      ensures err == Cleared ==> o == RegisterOutcome(FormParts(user), created, expertOk)
    {
      var ok := Validate();
      if !ok {
        return Outcome(None, None, false);
      }
      var form := BuildForm(user);
      o := RegisterOutcome(form, created, expertOk);
    }
  }
}
