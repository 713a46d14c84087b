/** The private-chat login and registration conversations. Each handler
    takes the conversation phase, the per-user scratch data (`user_data`)
    and the text the user sent, and gives the next phase, the new scratch
    data and the reply. The backend answers to the login and registration
    requests are parameters. */
module Conversation {
  import opened Text
  import opened Wrappers
  import Api

  /** `Idle` is `ConversationHandler.END`: no conversation is running. */
  datatype Phase = Idle | AwaitingEmail | AwaitingPassword | AwaitingRegUsername | AwaitingRegEmail | AwaitingRegPassword

  /** The keys the conversations keep in `user_data`. */
  datatype UserData = UserData(loginEmail: Option<string>, regUsername: Option<string>, regEmail: Option<string>)

  const Cleared := UserData(None, None, None)

  datatype Conv = Conv(phase: Phase, data: UserData)

  datatype Reply =
    | PrivateChatOnly
    | AskEmail
    | InvalidEmail
    | AskPassword
    | ConnectionError
    | LoggedIn
    | LoginRejected
    | AskUsername
    | InvalidUsername
    | AskRegEmail
    | AskRegPassword
    | PasswordTooShort
    | Registered
    | RegistrationRejected
    | Cancelled
    | HandlerFailed
    | Ignored

  /** What the backend did with a login or registration request. */
  datatype Answer = ConnectionFailed | Answered(status: int, token: Option<string>, username: Option<string>, userId: Option<int>)

  /** One handled update: the new conversation, the reply, and the session
      a successful login stores. */
  datatype Step = Step(conv: Conv, reply: Reply, session: Option<Api.UserSession>)

  // ----- The input checks -----

  /** The class `[\w\.-]`, restricted to ASCII. */
  predicate EmailChar(c: char) { IsWordChar(c) || c == '.' || c == '-' }

  predicate AllEmailChars(t: string) { forall k :: 0 <= k < |t| ==> EmailChar(t[k]) }

  predicate AllWordChars(t: string) { forall k :: 0 <= k < |t| ==> IsWordChar(t[k]) }

  /** `^[\w\.-]+@[\w\.-]+\.\w+$` matches `s` with the '@' at `a` and the
      final dot at `j`. */
  ghost predicate EmailSplit(s: string, a: int, j: int) {
    0 < a && a + 1 < j < |s| - 1 && s[a] == '@' && s[j] == '.'
    && (forall k :: 0 <= k < a ==> EmailChar(s[k]))
    && (forall k :: a < k < j ==> EmailChar(s[k]))
    && (forall k :: j < k < |s| ==> IsWordChar(s[k]))
  }

  /** The first position of `c` in `s`. */
  function IndexOf(s: string, c: char): (r: Option<nat>)
    ensures r.Some? ==> r.value < |s| && s[r.value] == c && forall k :: 0 <= k < r.value ==> s[k] != c
    ensures r.None? ==> forall k :: 0 <= k < |s| ==> s[k] != c
  {
    if s == [] then None
    else if s[0] == c then Some(0)
    else match IndexOf(s[1..], c)
      case None => None
      case Some(i) => Some(i + 1)
  }

  /** The last position of `c` in `s`. */
  function LastIndexOf(s: string, c: char): (r: Option<nat>)
    ensures r.Some? ==> r.value < |s| && s[r.value] == c && forall k :: r.value < k < |s| ==> s[k] != c
    ensures r.None? ==> forall k :: 0 <= k < |s| ==> s[k] != c
  {
    if s == [] then None
    else match LastIndexOf(s[1..], c)
      case Some(i) => Some(i + 1)
      case None => if s[0] == c then Some(0) else None
  }

  /** The email check as a scan: the part before the first '@' and the part
      between it and the last dot are non-empty runs of `[\w\.-]`, and the
      part after the last dot is a non-empty run of `\w`. */
  predicate IsEmail(s: string) {
    match IndexOf(s, '@')
    case None => false
    case Some(a) =>
      var r := s[a + 1..];
      match LastIndexOf(r, '.')
      case None => false
      case Some(j) =>
        0 < a && 0 < j < |r| - 1 && AllEmailChars(s[..a]) && AllEmailChars(r[..j]) && AllWordChars(r[j + 1..])
  }

  /** What the scan accepts, the email pattern matches. */
  lemma EmailScanSound(s: string)
    requires IsEmail(s)
    ensures exists a, j :: EmailSplit(s, a, j)
  {
    var a := IndexOf(s, '@').value;
    var r := s[a + 1..];
    var j := LastIndexOf(r, '.').value;
    var local, domain, tld := s[..a], r[..j], r[j + 1..];
    forall k | 0 <= k < a ensures EmailChar(s[k]) {
      assert s[k] == local[k];
    }
    forall k | a < k < a + 1 + j ensures EmailChar(s[k]) {
      assert s[k] == domain[k - a - 1];
    }
    forall k | a + 1 + j < k < |s| ensures IsWordChar(s[k]) {
      assert s[k] == tld[k - a - j - 2];
    }
    assert EmailSplit(s, a, a + 1 + j);
  }

  /** What the email pattern matches, the scan accepts. */
  lemma EmailScanComplete(s: string, a: int, j: int)
    requires EmailSplit(s, a, j)
    ensures IsEmail(s)
  {
    assert IndexOf(s, '@') == Some(a) by {
      forall k | 0 <= k < a ensures s[k] != '@' {
        assert EmailChar(s[k]);
      }
    }
    var r := s[a + 1..];
    var d := j - a - 1;
    assert LastIndexOf(r, '.') == Some(d) by {
      assert r[d] == '.';
      forall k | d < k < |r| ensures r[k] != '.' {
        assert r[k] == s[k + a + 1];
        assert IsWordChar(s[k + a + 1]);
      }
    }
    var local, domain, tld := s[..a], r[..d], r[d + 1..];
    forall k | 0 <= k < |local| ensures EmailChar(local[k]) {
      assert local[k] == s[k];
    }
    forall k | 0 <= k < |domain| ensures EmailChar(domain[k]) {
      assert domain[k] == s[k + a + 1];
    }
    forall k | 0 <= k < |tld| ensures IsWordChar(tld[k]) {
      assert tld[k] == s[k + j + 1];
    }
  }

  /** The scan accepts exactly the strings the email pattern matches. */
  lemma EmailIff(s: string)
    ensures IsEmail(s) <==> exists a, j :: EmailSplit(s, a, j)
  {
    if IsEmail(s) {
      EmailScanSound(s);
    }
    if exists a, j :: EmailSplit(s, a, j) {
      var a, j :| EmailSplit(s, a, j);
      EmailScanComplete(s, a, j);
    }
  }

  /** An address the pattern accepts. */
  lemma EmailAccepted()
    ensures IsEmail("jo@x.io")
  {
    EmailScanComplete("jo@x.io", 2, 4);
  }

  /** Dots and dashes may appear on both sides of the '@'; the last dot
      starts the final part. */
  lemma EmailAcceptedDotted()
    ensures IsEmail("a.b@c-d.e.f")
  {
    EmailScanComplete("a.b@c-d.e.f", 3, 9);
  }

  /** The pattern needs an '@'. */
  lemma EmailNeedsAt(s: string)
    requires forall k :: 0 <= k < |s| ==> s[k] != '@'
    ensures !IsEmail(s)
  {
  }

  /** The pattern needs a dot at least two characters after an '@' (the
      domain part is not empty), so a dot directly after the '@' alone does
      not do. */
  lemma EmailNeedsDomain(s: string)
    requires forall a, j :: 0 <= a && a + 1 < j < |s| && s[a] == '@' ==> s[j] != '.'
    ensures !IsEmail(s)
  {
    EmailIff(s);
    assert forall a, j :: !EmailSplit(s, a, j);
  }

  /** In particular the pattern needs a dot somewhere after the '@'. */
  lemma EmailNeedsDot(s: string)
    requires forall a, j :: 0 <= a < j < |s| && s[a] == '@' ==> s[j] != '.'
    ensures !IsEmail(s)
  {
    EmailNeedsDomain(s);
  }

  /** The pattern needs a character before the '@'. */
  lemma EmailNeedsLocalPart(s: string)
    requires s != [] && s[0] == '@'
    ensures !IsEmail(s)
  {
    EmailIff(s);
    assert !EmailChar(s[0]);
    assert forall a, j :: !EmailSplit(s, a, j);
  }

  /** The pattern needs a word character at the end (after the last dot). */
  lemma EmailNeedsTopLevel(s: string)
    requires s != [] && !IsWordChar(s[|s| - 1])
    ensures !IsEmail(s)
  {
    EmailIff(s);
    assert forall a, j :: !EmailSplit(s, a, j);
  }

  /** `len(username) >= 3 and re.match(r'^[\w]+$', username)` */
  predicate IsUsername(u: string) {
    |u| >= 3 && AllWordChars(u)
  }

  /** `len(password) >= 6`, on the raw text (a password is not stripped). */
  predicate IsPassword(p: string) {
    |p| >= 6
  }

  // ----- The handlers -----

  /** `/login`: only in a private chat; the scratch data is kept. */
  function LoginCommand(c: Conv, privateChat: bool): (s: Step)
    ensures s.session == None && s.conv.data == c.data
    ensures s.conv.phase == (if privateChat then AwaitingEmail else Idle)
  {
    if !privateChat then Step(Conv(Idle, c.data), PrivateChatOnly, None)
    else Step(Conv(AwaitingEmail, c.data), AskEmail, None)
  }

  /** `receive_email`: the stripped text must be an email address. */
  function ReceiveEmail(c: Conv, text: string): (s: Step)
    ensures s.session == None
    ensures IsEmail(Strip(text)) ==> s.conv == Conv(AwaitingPassword, c.data.(loginEmail := Some(Strip(text))))
    ensures !IsEmail(Strip(text)) ==> s.conv == Conv(AwaitingEmail, c.data) && s.reply == InvalidEmail
  {
    var email := Strip(text);
    if !IsEmail(email) then Step(Conv(AwaitingEmail, c.data), InvalidEmail, None)
    else Step(Conv(AwaitingPassword, c.data.(loginEmail := Some(email))), AskPassword, None)
  }

  /** `receive_password`: the conversation ends and the scratch data is
      cleared whatever the backend answers; a 200 answer stores a session
      with the email the user gave. */
  function ReceivePassword(c: Conv, password: string, answer: Answer): (s: Step)
    ensures s.conv == Conv(Idle, Cleared)
    ensures s.session.Some? <==> answer.Answered? && answer.status == 200
    ensures s.session.Some? ==> s.session.value.token == answer.token && s.session.value.email == c.data.loginEmail
    ensures s.reply == (if answer.ConnectionFailed? then ConnectionError else if answer.status == 200 then LoggedIn else LoginRejected)
  {
    match answer
    case ConnectionFailed => Step(Conv(Idle, Cleared), ConnectionError, None)
    case Answered(status, token, username, userId) =>
      if status == 200 then
        Step(Conv(Idle, Cleared), LoggedIn, Some(Api.UserSession(token, username, userId, c.data.loginEmail)))
      else Step(Conv(Idle, Cleared), LoginRejected, None)
  }

  /** `/register`: only in a private chat; the scratch data is kept. */
  function RegisterCommand(c: Conv, privateChat: bool): (s: Step)
    ensures s.session == None && s.conv.data == c.data
    ensures s.conv.phase == (if privateChat then AwaitingRegUsername else Idle)
  {
    if !privateChat then Step(Conv(Idle, c.data), PrivateChatOnly, None)
    else Step(Conv(AwaitingRegUsername, c.data), AskUsername, None)
  }

  /** `receive_reg_username`: the stripped text must be at least three word
      characters. */
  function ReceiveRegUsername(c: Conv, text: string): (s: Step)
    ensures s.session == None
    ensures IsUsername(Strip(text)) ==> s.conv == Conv(AwaitingRegEmail, c.data.(regUsername := Some(Strip(text))))
    ensures !IsUsername(Strip(text)) ==> s.conv == Conv(AwaitingRegUsername, c.data) && s.reply == InvalidUsername
  {
    var username := Strip(text);
    if !IsUsername(username) then Step(Conv(AwaitingRegUsername, c.data), InvalidUsername, None)
    else Step(Conv(AwaitingRegEmail, c.data.(regUsername := Some(username))), AskRegEmail, None)
  }

  /** `receive_reg_email`: the same email check as the login. */
  function ReceiveRegEmail(c: Conv, text: string): (s: Step)
    ensures s.session == None
    ensures IsEmail(Strip(text)) ==> s.conv == Conv(AwaitingRegPassword, c.data.(regEmail := Some(Strip(text))))
    ensures !IsEmail(Strip(text)) ==> s.conv == Conv(AwaitingRegEmail, c.data) && s.reply == InvalidEmail
  {
    var email := Strip(text);
    if !IsEmail(email) then Step(Conv(AwaitingRegEmail, c.data), InvalidEmail, None)
    else Step(Conv(AwaitingRegPassword, c.data.(regEmail := Some(email))), AskRegPassword, None)
  }

  /** `receive_reg_password`: a short password keeps the conversation
      waiting; otherwise the stored user name and email are sent, and a
      missing one makes the handler fail (`KeyError`) with nothing changed.
      A request that was sent ends the conversation and clears the data. */
  function ReceiveRegPassword(c: Conv, password: string, answer: Answer): (s: Step)
    ensures s.session == None
    ensures !IsPassword(password) ==> s.conv == c.(phase := AwaitingRegPassword) && s.reply == PasswordTooShort
    ensures IsPassword(password) && (c.data.regUsername.None? || c.data.regEmail.None?) ==>
              s.conv == c && s.reply == HandlerFailed
    ensures IsPassword(password) && c.data.regUsername.Some? && c.data.regEmail.Some? ==>
              s.conv == Conv(Idle, Cleared)
              && s.reply == (if answer.ConnectionFailed? then ConnectionError else if answer.status == 201 then Registered else RegistrationRejected)
  {
    if !IsPassword(password) then Step(c.(phase := AwaitingRegPassword), PasswordTooShort, None)
    else if c.data.regUsername.None? || c.data.regEmail.None? then Step(c, HandlerFailed, None)
    else match answer
      case ConnectionFailed => Step(Conv(Idle, Cleared), ConnectionError, None)
      case Answered(status, _, _, _) =>
        Step(Conv(Idle, Cleared), if status == 201 then Registered else RegistrationRejected, None)
  }

  /** `/cancel`: always ends the conversation and clears the data. */
  function Cancel(c: Conv): (s: Step)
    ensures s.conv == Conv(Idle, Cleared) && s.reply == Cancelled && s.session == None
  {
    Step(Conv(Idle, Cleared), Cancelled, None)
  }

  // ----- Whole conversations -----

  /** An update the conversations react to. */
  datatype Input =
    | LoginCmd(privateChat: bool)
    | RegisterCmd(privateChat: bool)
    | LoginButton
    | RegisterButton
    | CancelCmd
    | Text(text: string, answer: Answer)

  /** Dispatch as the two conversation handlers do: the commands and the
      `start_login`/`start_register` buttons start a conversation only when
      none is running, `/cancel` works only inside
      one, and a text goes to the handler of the current phase. Anything
      else is ignored. */
  function Handle(c: Conv, input: Input): (s: Step)
    ensures c.phase == Idle && input.Text? ==> s.conv == c && s.session == None
    ensures c.phase != Idle && input.CancelCmd? ==> s.conv == Conv(Idle, Cleared)
  {
    match input
    case LoginCmd(p) => if c.phase == Idle then LoginCommand(c, p) else Step(c, Ignored, None)
    case RegisterCmd(p) => if c.phase == Idle then RegisterCommand(c, p) else Step(c, Ignored, None)
    case LoginButton => if c.phase == Idle then Step(Conv(AwaitingEmail, c.data), AskEmail, None) else Step(c, Ignored, None)
    case RegisterButton => if c.phase == Idle then Step(Conv(AwaitingRegUsername, c.data), AskUsername, None) else Step(c, Ignored, None)
    case CancelCmd => if c.phase != Idle then Cancel(c) else Step(c, Ignored, None)
    case Text(t, answer) =>
      match c.phase
      case Idle => Step(c, Ignored, None)
      case AwaitingEmail => ReceiveEmail(c, t)
      case AwaitingPassword => ReceivePassword(c, t, answer)
      case AwaitingRegUsername => ReceiveRegUsername(c, t)
      case AwaitingRegEmail => ReceiveRegEmail(c, t)
      case AwaitingRegPassword => ReceiveRegPassword(c, t, answer)
  }

  /** The `start_login` and `start_register` buttons start the same
      conversations as the commands, but without the private-chat check. */
  lemma ButtonsSkipChatCheck(c: Conv)
    ensures Handle(c, LoginButton) == Handle(c, LoginCmd(true))
    ensures Handle(c, RegisterButton) == Handle(c, RegisterCmd(true))
    ensures c.phase == Idle ==> Handle(c, LoginButton).conv.phase == AwaitingEmail
    ensures c.phase == Idle ==> Handle(c, RegisterButton).conv.phase == AwaitingRegUsername
  {
  }

  /** Each waiting phase has the data the earlier steps stored. */
  predicate Consistent(c: Conv) {
    (c.phase == AwaitingPassword ==> c.data.loginEmail.Some? && IsEmail(c.data.loginEmail.value))
    && (c.phase == AwaitingRegEmail ==> c.data.regUsername.Some? && IsUsername(c.data.regUsername.value))
    && (c.phase == AwaitingRegPassword ==>
          c.data.regUsername.Some? && IsUsername(c.data.regUsername.value)
          && c.data.regEmail.Some? && IsEmail(c.data.regEmail.value))
  }

  /** Every update keeps the conversation consistent. */
  lemma HandleKeepsConsistent(c: Conv, input: Input)
    requires Consistent(c)
    ensures Consistent(Handle(c, input).conv)
  {
  }

  /** So in a conversation that was driven only by updates, the registration
      request always finds the user name and the email, and a successful
      login always stores the email that passed the check. */
  lemma ConsistentNeverFails(c: Conv, text: string, answer: Answer)
    requires Consistent(c)
    ensures c.phase == AwaitingRegPassword ==> ReceiveRegPassword(c, text, answer).reply != HandlerFailed
    ensures c.phase == AwaitingPassword && answer.Answered? && answer.status == 200 ==>
              var s := ReceivePassword(c, text, answer).session.value;
              s.email.Some? && IsEmail(s.email.value)
  {
  }

  /** The conversation after a sequence of updates. */
  function Run(c: Conv, inputs: seq<Input>): Conv
    decreases |inputs|
  {
    if inputs == [] then c else Run(Handle(c, inputs[0]).conv, inputs[1..])
  }

  lemma {:induction false} RunKeepsConsistent(c: Conv, inputs: seq<Input>)
    requires Consistent(c)
    ensures Consistent(Run(c, inputs))
    decreases |inputs|
  {
    if inputs != [] {
      HandleKeepsConsistent(c, inputs[0]);
      RunKeepsConsistent(Handle(c, inputs[0]).conv, inputs[1..]);
    }
  }

  /** A full login: `/login`, an email, a password. */
  lemma LoginFlow(data: UserData, email: string, password: string, answer: Answer)
    requires IsEmail(email) && answer.Answered? && answer.status == 200
    ensures var c1 := LoginCommand(Conv(Idle, data), true);
            var c2 := ReceiveEmail(c1.conv, email);
            var c3 := ReceivePassword(c2.conv, password, answer);
            && c2.conv.phase == AwaitingPassword
            && c3.conv == Conv(Idle, Cleared)
            && c3.session == Some(Api.UserSession(answer.token, answer.username, answer.userId, Some(email)))
  {
    StripNoSpace(email);
  }

  /** A text that passes the email check has no surrounding whitespace, so
      stripping leaves it as it is. */
  lemma StripNoSpace(email: string)
    requires IsEmail(email)
    ensures Strip(email) == email
  {
    EmailIff(email);
    var a, j :| EmailSplit(email, a, j);
    assert !IsSpace(email[0]) && !IsSpace(email[|email| - 1]);
    var i :| TrimmedSlice(email, Strip(email), i);
  }
}
