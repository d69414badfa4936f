/** The sign-up form's submit handler: the password checks in their order,
    the sign-up call, and the default settings row written for the new user.
    The authentication service is an input: whether `signUp` throws (and
    with which message) and which user `getUser` then reports. */
module Register {
  import opened Wrappers
  import opened Entities
  import Home

  const MinPasswordLength: int := 6
  const ShortPasswordError: string := "密码至少需要6个字符"
  const MismatchError: string := "两次输入的密码不一致"
  const FallbackError: string := "注册失败，请重试"

  /** `s.length`: the number of UTF-16 code units, two for every character
      outside the Basic Multilingual Plane. */
  function Utf16Length(s: string): (n: nat)
    ensures |s| <= n <= 2 * |s|
  {
    if s == [] then 0 else (if s[0] as int > 0xFFFF then 2 else 1) + Utf16Length(s[1..])
  }

  /** Three characters from outside the Basic Multilingual Plane already
      reach the minimum length. */
  lemma ThreeAstralCharactersAreLongEnough(a: char, b: char, c: char)
    requires a as int > 0xFFFF && b as int > 0xFFFF && c as int > 0xFFFF
    ensures Utf16Length([a, b, c]) >= MinPasswordLength
  {
    assert [a, b, c][1..] == [b, c];
    assert [b, c][1..] == [c];
    assert [c][1..] == [];
    assert Utf16Length([c]) == 2;
    assert Utf16Length([b, c]) == 4;
  }

  /** The settings row inserted for a new user; the id and timestamps are
      the database's defaults and are left empty. */
  function NewUserSettings(userId: string): (r: Settings)
    ensures r.userId == userId
    ensures r.siteTitle == Home.DefaultSiteTitle && r.logoType == Home.DefaultLogoType
    ensures r.logoContent == Home.DefaultLogoContent && r.defaultSearchEngine == Home.DefaultSearchEngine
    ensures r.province == "北京市" && r.city == "北京"
    ensures r.temperature == "20°C" && r.weatherCondition == "晴"
  {
    Settings("", userId, "智能导航网站", "url", "🌐", "google", "北京市", "北京", "20°C", "晴", "", "")
  }

  /** The row a new user gets differs from the home page's fallback settings
      only in the location and weather columns. */
  lemma NewUserSettingsMatchHome(userId: string)
    ensures NewUserSettings(userId).(province := "", city := "", temperature := "", weatherCondition := "")
      == Home.DefaultSettings(userId)
  {
  }

  /** An exception thrown on the way: `message` is its `message` property,
      absent when it has none. */
  datatype Thrown = Thrown(message: Option<string>)

  /** The effects of the handler, in order. */
  datatype Effect =
    | SetError(text: string)
    | SetLoading(on: bool)
    | SignUp(email: string, password: string)
    | InsertSettings(row: Settings)
    | Navigate(path: string)

  /** `err.message || '注册失败，请重试'`. */
  function ErrorText(err: Thrown): (r: string)
    ensures r != ""
    ensures err.message.Some? && err.message.value != "" ==> r == err.message.value
  {
    match err.message
    case Some(m) => if m != "" then m else FallbackError
    case None => FallbackError
  }

  /** The password checks, in order: the length first, then the match. */
  function Validate(password: string, confirm: string): (r: Option<string>)
    ensures r.None? <==> Utf16Length(password) >= MinPasswordLength && password == confirm
    ensures Utf16Length(password) < MinPasswordLength ==> r == Some(ShortPasswordError)
    ensures Utf16Length(password) >= MinPasswordLength && password != confirm ==> r == Some(MismatchError)
  {
    if Utf16Length(password) < MinPasswordLength then Some(ShortPasswordError)
    else if password != confirm then Some(MismatchError)
    else None
  }

  /** `handleSubmit`. `signUpThrows` is the exception `signUp` throws, if
      any, and `user` the id `getUser` reports afterwards, if any. The
      insert's own error is returned in its reply and not examined. */
  function Submit(email: string, password: string, confirm: string,
                  signUpThrows: Option<Thrown>, user: Option<string>): (r: seq<Effect>)
    ensures |r| >= 2 && r[0] == SetError("")
  {
    match Validate(password, confirm)
    case Some(msg) => [SetError(""), SetError(msg)]
    case None =>
      [SetError(""), SetLoading(true), SignUp(email, password)] +
      (match signUpThrows
       case Some(err) => [SetError(ErrorText(err))]
       case None =>
         (if user.Some? then [InsertSettings(NewUserSettings(user.value))] else []) + [Navigate("/")]) +
      [SetLoading(false)]
  }

  predicate CallsSignUp(r: seq<Effect>) {
    exists k :: 0 <= k < |r| && r[k].SignUp?
  }

  predicate Inserts(r: seq<Effect>) {
    exists k :: 0 <= k < |r| && r[k].InsertSettings?
  }

  /** A rejected password shows its error and makes no call. The length
      check comes first, so a short password that also mismatches reports
      the length. */
  lemma RejectedMakesNoCall(email: string, password: string, confirm: string,
                            signUpThrows: Option<Thrown>, user: Option<string>)
    requires Validate(password, confirm).Some?
    ensures var r := Submit(email, password, confirm, signUpThrows, user);
      && r == [SetError(""), SetError(Validate(password, confirm).value)]
      && !CallsSignUp(r) && !Inserts(r)
  {
  }

  /** An accepted password signs up exactly once; when sign-up succeeds and
      a user is reported, exactly one settings row is inserted, holding the
      defaults for that user, and the page goes home. */
  lemma AcceptedSignsUpOnce(email: string, password: string, confirm: string,
                            signUpThrows: Option<Thrown>, user: Option<string>)
    requires Validate(password, confirm).None?
    ensures var r := Submit(email, password, confirm, signUpThrows, user);
      && (forall k :: 0 <= k < |r| && r[k].SignUp? ==> k == 2 && r[k] == SignUp(email, password))
      && (signUpThrows.None? && user.Some? ==>
            r == [SetError(""), SetLoading(true), SignUp(email, password),
                  InsertSettings(NewUserSettings(user.value)), Navigate("/"), SetLoading(false)])
      && (signUpThrows.Some? ==>
            r == [SetError(""), SetLoading(true), SignUp(email, password),
                  SetError(ErrorText(signUpThrows.value)), SetLoading(false)])
      && (signUpThrows.None? && user.None? ==>
            r == [SetError(""), SetLoading(true), SignUp(email, password), Navigate("/"), SetLoading(false)])
  {
  }
}
