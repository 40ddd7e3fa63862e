/**
 * The account-opening wizard of the web client: the form's fields, the two
 * step validators, and the three-step state machine driven by the "next"
 * and "back" buttons and by field edits.
 *
 * The component keeps its state in React hooks; every update builds a new
 * value (`{...formData, [name]: value}`), so the transitions are functions
 * from one wizard value to the next. `AccountCreationForm` holds the same
 * state as an object whose handlers update it in place.
 */
module AccountCreation {
  import opened Wrappers
  import opened Chars

  datatype FormData = FormData(
    accountNumber: string,
    ownerName: string,
    password: string,
    confirmPassword: string,
    phone: string,
    email: string,
    address: string,
    occupation: string,
    initialDeposit: string)

  const InitialForm := FormData("", "", "", "", "", "", "", "", "1000")

  /** The `name` attribute of each input. */
  datatype Field =
    | AccountNumber | OwnerName | Password | ConfirmPassword | Phone
    | Email | Address | Occupation | InitialDeposit

  function Get(f: FormData, name: Field): string
  {
    match name
    case AccountNumber => f.accountNumber
    case OwnerName => f.ownerName
    case Password => f.password
    case ConfirmPassword => f.confirmPassword
    case Phone => f.phone
    case Email => f.email
    case Address => f.address
    case Occupation => f.occupation
    case InitialDeposit => f.initialDeposit
  }

  /** `handleChange`: the named field takes the new value and no other field changes. */
  function Set(f: FormData, name: Field, value: string): (r: FormData)
    ensures Get(r, name) == value
    ensures forall other :: other != name ==> Get(r, other) == Get(f, other)
  {
    match name
    case AccountNumber => f.(accountNumber := value)
    case OwnerName => f.(ownerName := value)
    case Password => f.(password := value)
    case ConfirmPassword => f.(confirmPassword := value)
    case Phone => f.(phone := value)
    case Email => f.(email := value)
    case Address => f.(address := value)
    case Occupation => f.(occupation := value)
    case InitialDeposit => f.(initialDeposit := value)
  }

  // ---------------------------------------------------------------------
  // Character classes of the two regular expressions.
  // ---------------------------------------------------------------------

  /** JavaScript's `\s`: the white-space and line-terminator characters. */
  predicate IsWhitespace(c: char)
  {
    || c == ' ' || c == '\t' || c == '\n' || c == '\r' || c == '\U{000B}' || c == '\U{000C}'
    || c == '\U{00A0}' || c == '\U{1680}' || ('\U{2000}' <= c <= '\U{200A}')
    || c == '\U{2028}' || c == '\U{2029}' || c == '\U{202F}' || c == '\U{205F}'
    || c == '\U{3000}' || c == '\U{FEFF}'
  }

  /** `[^\s@]`. */
  predicate IsEmailChar(c: char)
  {
    !IsWhitespace(c) && c != '@'
  }

  /** `[^\s@]*` matches all of `s`. */
  predicate AllEmailChars(s: string)
  {
    forall k :: 0 <= k < |s| ==> IsEmailChar(s[k])
  }

  // ---------------------------------------------------------------------
  // The email check.
  // ---------------------------------------------------------------------

  /**
   * `/^[^\s@]+@[^\s@]+\.[^\s@]+$/` matches `s`: some '@' at `i` and '.' at
   * `j` cut `s` into three non-empty runs of `[^\s@]`.
   */
  predicate EmailPattern(s: string)
  {
    exists i, j | 0 < i && i + 1 < j && j + 1 < |s| ::
      && s[i] == '@' && s[j] == '.'
      && AllEmailChars(s[..i]) && AllEmailChars(s[i + 1..j]) && AllEmailChars(s[j + 1..])
  }

  /** Some '.' in `d` has at least one character on each side. */
  predicate HasInnerDot(d: string)
  {
    exists k | 0 < k < |d| - 1 :: d[k] == '.'
  }

  /**
   * The shape the email pattern accepts, said plainly: no white space,
   * exactly one '@', something before it, and a '.' after it with text on
   * both sides.
   */
  ghost predicate EmailShape(s: string)
  {
    && (forall k :: 0 <= k < |s| ==> !IsWhitespace(s[k]))
    && multiset(s)['@'] == 1
    && (forall i :: 0 <= i < |s| && s[i] == '@' ==> 0 < i && HasInnerDot(s[i + 1..]))
  }

  lemma AllEmailCharsNoAt(s: string)
    requires AllEmailChars(s)
    ensures multiset(s)['@'] == 0
  {
    assert forall k :: 0 <= k < |s| ==> IsEmailChar(s[k]);
    assert '@' !in s;
  }

  lemma NoAtAllEmailChars(s: string)
    requires forall k :: 0 <= k < |s| ==> !IsWhitespace(s[k])
    requires multiset(s)['@'] == 0
    ensures AllEmailChars(s)
  {
    assert '@' !in s;
    forall k | 0 <= k < |s|
      ensures IsEmailChar(s[k])
    {
      assert s[k] in s;
    }
  }

  /** Every string the regular expression matches has the plain shape. */
  lemma EmailPatternHasShape(s: string, i: nat, j: nat)
    requires 0 < i && i + 1 < j && j + 1 < |s| && s[i] == '@' && s[j] == '.'
    requires AllEmailChars(s[..i]) && AllEmailChars(s[i + 1..j]) && AllEmailChars(s[j + 1..])
    ensures EmailShape(s)
  {
    var local, middle, top := s[..i], s[i + 1..j], s[j + 1..];
    var domain := s[i + 1..];
    assert s == local + [s[i]] + domain;
    assert domain == middle + [s[j]] + top;
    AllEmailCharsNoAt(local);
    AllEmailCharsNoAt(middle);
    AllEmailCharsNoAt(top);
    assert multiset(domain)['@'] == 0;
    assert multiset(s) == multiset(local) + multiset{'@'} + multiset(domain);
    forall k | 0 <= k < |s|
      ensures !IsWhitespace(s[k])
    {
      if k < i {
        assert s[k] == local[k];
      } else if i + 1 <= k < j {
        assert s[k] == middle[k - i - 1];
      } else if j + 1 <= k {
        assert s[k] == top[k - j - 1];
      }
    }
    assert '@' !in local && '@' !in domain;
    assert domain[j - i - 1] == '.';
    assert HasInnerDot(domain);
  }

  /** In a string of the plain shape, the text on either side of its '@' is free of '@' and white space. */
  lemma ShapeSides(s: string, i: nat)
    requires EmailShape(s) && i < |s| && s[i] == '@'
    ensures 0 < i && HasInnerDot(s[i + 1..])
    ensures AllEmailChars(s[..i]) && AllEmailChars(s[i + 1..])
  {
    var local, domain := s[..i], s[i + 1..];
    assert s == local + [s[i]] + domain;
    assert multiset(s) == multiset(local) + multiset{'@'} + multiset(domain);
    forall k | 0 <= k < |local|
      ensures !IsWhitespace(local[k])
    {
      assert local[k] == s[k];
    }
    forall k | 0 <= k < |domain|
      ensures !IsWhitespace(domain[k])
    {
      assert domain[k] == s[i + 1 + k];
    }
    NoAtAllEmailChars(local);
    NoAtAllEmailChars(domain);
  }

  /** Both sides of any position of an `[^\s@]` run are runs of the same kind. */
  lemma EmailCharsAround(d: string, k: nat)
    requires AllEmailChars(d) && k < |d|
    ensures AllEmailChars(d[..k]) && AllEmailChars(d[k + 1..])
  {
    var top := d[k + 1..];
    forall m | 0 <= m < |top|
      ensures IsEmailChar(top[m])
    {
      assert top[m] == d[k + 1 + m];
    }
  }

  /** Every string of the plain shape is matched by the regular expression. */
  lemma EmailShapeMatches(s: string)
    requires EmailShape(s)
    ensures EmailPattern(s)
  {
    assert '@' in multiset(s);
    var i :| 0 <= i < |s| && s[i] == '@';
    ShapeSides(s, i);
    var domain := s[i + 1..];
    var k :| 0 < k < |domain| - 1 && domain[k] == '.';
    EmailCharsAround(domain, k);
    var j := i + 1 + k;
    assert s[i + 1..j] == domain[..k];
    assert s[j + 1..] == domain[k + 1..];
    assert s[j] == '.';
  }

  /** The regular expression accepts exactly the strings of the plain shape. */
  lemma EmailPatternIsShape(s: string)
    ensures EmailPattern(s) <==> EmailShape(s)
  {
    if EmailPattern(s) {
      var i, j :| 0 < i && i + 1 < j && j + 1 < |s| && s[i] == '@' && s[j] == '.'
        && AllEmailChars(s[..i]) && AllEmailChars(s[i + 1..j]) && AllEmailChars(s[j + 1..]);
      EmailPatternHasShape(s, i, j);
    }
    if EmailShape(s) {
      EmailShapeMatches(s);
    }
  }

  // ---------------------------------------------------------------------
  // The phone check.
  // ---------------------------------------------------------------------

  /** `s.replace(/-/g, '')`. */
  function RemoveDashes(s: string): (r: string)
    ensures multiset(r) == multiset(s)['-' := 0]
  {
    if s == [] then []
    else
      assert s == [s[0]] + s[1..];
      (if s[0] == '-' then [] else [s[0]]) + RemoveDashes(s[1..])
  }

  /** `/^\d{11}$/.test(s.replace(/-/g, ''))`. */
  predicate PhonePattern(s: string)
  {
    var d := RemoveDashes(s);
    |d| == 11 && forall k :: 0 <= k < |d| ==> IsDigit(d[k])
  }

  /** The phone shape said plainly: only digits and dashes, and exactly eleven digits. */
  ghost predicate PhoneShape(s: string)
  {
    && (forall k :: 0 <= k < |s| ==> s[k] == '-' || IsDigit(s[k]))
    && |s| - multiset(s)['-'] == 11
  }

  lemma PhonePatternIsShape(s: string)
    ensures PhonePattern(s) <==> PhoneShape(s)
  {
    var d := RemoveDashes(s);
    assert |multiset(d)| == |d|;
    assert |multiset(s)| == |s|;
    assert |multiset(s)['-' := 0]| == |multiset(s)| - multiset(s)['-'];
    assert |d| == |s| - multiset(s)['-'];
    if PhonePattern(s) {
      forall k | 0 <= k < |s|
        ensures s[k] == '-' || IsDigit(s[k])
      {
        if s[k] != '-' {
          assert s[k] in multiset(s);
          assert s[k] in multiset(d);
          assert s[k] in d;
        }
      }
    }
    if PhoneShape(s) {
      forall k | 0 <= k < |d|
        ensures IsDigit(d[k])
      {
        assert d[k] in multiset(d);
        assert d[k] in multiset(s) && d[k] != '-';
        assert d[k] in s;
      }
    }
  }

  // ---------------------------------------------------------------------
  // The password length.
  // ---------------------------------------------------------------------

  /** `.length` of a JavaScript string: characters beyond U+FFFF take two UTF-16 code units. */
  function Utf16Length(s: string): (n: nat)
    ensures |s| <= n <= 2 * |s|
  {
    if s == [] then 0
    else (if s[0] as int > 0xFFFF then 2 else 1) + Utf16Length(s[1..])
  }

  // ---------------------------------------------------------------------
  // The validators.
  // ---------------------------------------------------------------------

  /** Why a step's validation failed; each carries its own message. */
  datatype FormError =
    | MissingRequired | InvalidEmail | InvalidPhone
    | MissingPassword | PasswordMismatch | PasswordTooShort

  function Message(e: FormError): (m: string)
    ensures m != ""
  {
    match e
    case MissingRequired => "必須項目を入力してください"
    case InvalidEmail => "有効なメールアドレスを入力してください"
    case InvalidPhone => "有効な電話番号を入力してください"
    case MissingPassword => "パスワードを入力してください"
    case PasswordMismatch => "パスワードが一致しません"
    case PasswordTooShort => "パスワードは8文字以上で入力してください"
  }

  /** `validateStep1`; `Err` carries the message it sets. */
  function ValidateStep1(f: FormData): (v: Result<(), FormError>)
    ensures v.Ok? <==> f.ownerName != "" && EmailShape(f.email) && PhoneShape(f.phone)
    ensures v == Err(MissingRequired) <==> f.ownerName == "" || f.phone == "" || f.email == ""
    ensures v == Err(InvalidEmail) <==>
      f.ownerName != "" && f.phone != "" && f.email != "" && !EmailShape(f.email)
    ensures v == Err(InvalidPhone) <==>
      f.ownerName != "" && f.phone != "" && EmailShape(f.email) && !PhoneShape(f.phone)
  {
    EmailPatternIsShape(f.email);
    PhonePatternIsShape(f.phone);
    if f.ownerName == "" || f.phone == "" || f.email == "" then Err(MissingRequired)
    else if !EmailPattern(f.email) then Err(InvalidEmail)
    else if !PhonePattern(f.phone) then Err(InvalidPhone)
    else Ok(())
  }

  /** `validateStep2`; `Err` carries the message it sets. */
  function ValidateStep2(f: FormData): (v: Result<(), FormError>)
    ensures v.Ok? <==> f.password != "" && f.password == f.confirmPassword && Utf16Length(f.password) >= 8
    ensures v.Ok? ==> |f.password| >= 4
    ensures |f.password| >= 8 && f.password == f.confirmPassword ==> v.Ok?
    ensures v == Err(MissingPassword) <==> f.password == "" || f.confirmPassword == ""
    ensures v == Err(PasswordMismatch) <==>
      f.password != "" && f.confirmPassword != "" && f.password != f.confirmPassword
    ensures v == Err(PasswordTooShort) <==>
      f.password != "" && f.password == f.confirmPassword && Utf16Length(f.password) < 8
  {
    if f.password == "" || f.confirmPassword == "" then Err(MissingPassword)
    else if f.password != f.confirmPassword then Err(PasswordMismatch)
    else if Utf16Length(f.password) < 8 then Err(PasswordTooShort)
    else Ok(())
  }

  // ---------------------------------------------------------------------
  // The step machine.
  // ---------------------------------------------------------------------

  /** The component's state: the form, `currentStep` and the error message shown. */
  datatype Wizard = Wizard(form: FormData, step: int, error: string)

  const Start := Wizard(InitialForm, 1, "")

  predicate StepInRange(w: Wizard)
  {
    1 <= w.step <= 3
  }

  /** The message a failed validation sets, or "" when it passed. */
  function ErrorText(v: Result<(), FormError>): string
  {
    if v.Err? then Message(v.error) else ""
  }

  /**
   * `handleNext`. The error is cleared; at step 1 a passing form gets the
   * generated account number (`generated` stands for the random digits) and
   * moves to step 2; at step 2 a passing form moves to step 3; a failing
   * validation leaves the step and sets its message.
   */
  function AfterNext(w: Wizard, generated: string): (w': Wizard)
    ensures w.step == 1 ==>
      (w'.step == 2 <==> ValidateStep1(w.form).Ok?) && (w'.step != 2 ==> w'.step == 1)
    ensures w.step == 2 ==>
      (w'.step == 3 <==> ValidateStep2(w.form).Ok?) && (w'.step != 3 ==> w'.step == 2)
    ensures w.step != 1 && w.step != 2 ==> w'.step == w.step
    ensures w'.step == w.step ==> w'.form == w.form
    ensures w'.step != w.step ==> w'.error == ""
    ensures w.step == 1 && w'.step == 2 ==> w'.form == Set(w.form, AccountNumber, generated)
    ensures w.step == 2 ==> w'.form == w.form
    ensures w.step == 1 && w'.step == 1 ==> w'.error == Message(ValidateStep1(w.form).error) && w'.error != ""
    ensures w.step == 2 && w'.step == 2 ==> w'.error == Message(ValidateStep2(w.form).error) && w'.error != ""
    ensures w.step != 1 && w.step != 2 ==> w' == w.(error := "")
  {
    if w.step == 1 then
      var v := ValidateStep1(w.form);
      if v.Ok? then Wizard(w.form.(accountNumber := generated), 2, "")
      else Wizard(w.form, w.step, ErrorText(v))
    else if w.step == 2 then
      var v := ValidateStep2(w.form);
      if v.Ok? then Wizard(w.form, 3, "")
      else Wizard(w.form, w.step, ErrorText(v))
    else w.(error := "")
  }

  /** The back button's handler: one step back (the button is shown only past step 1). */
  function AfterBack(w: Wizard): (w': Wizard)
    requires w.step > 1
    ensures w'.step == w.step - 1 && w'.form == w.form && w'.error == w.error
  {
    w.(step := w.step - 1)
  }

  /** `handleChange` on the wizard: only the named field of the form changes. */
  function AfterChange(w: Wizard, name: Field, value: string): (w': Wizard)
    ensures w'.step == w.step && w'.error == w.error
    ensures Get(w'.form, name) == value
    ensures forall other :: other != name ==> Get(w'.form, other) == Get(w.form, other)
  {
    w.(form := Set(w.form, name, value))
  }

  /** What the user can do: edit a field, press "next" (shown before step 3), press "back" (shown after step 1). */
  datatype Event = Change(name: Field, value: string) | Next(generated: string) | Previous

  predicate Offered(w: Wizard, e: Event)
  {
    match e
    case Change(_, _) => true
    case Next(_) => w.step < 3
    case Previous => w.step > 1
  }

  function Dispatch(w: Wizard, e: Event): (w': Wizard)
    requires Offered(w, e)
    ensures StepInRange(w) ==> StepInRange(w')
    ensures w.step - 1 <= w'.step <= w.step + 1
  {
    match e
    case Change(name, value) => AfterChange(w, name, value)
    case Next(generated) => AfterNext(w, generated)
    case Previous => AfterBack(w)
  }

  /** Every event is offered in turn; `Run` is the state after all of them, or None if one was not offered. */
  function Run(w: Wizard, events: seq<Event>): Option<Wizard>
    decreases events
  {
    if events == [] then Some(w)
    else if Offered(w, events[0]) then Run(Dispatch(w, events[0]), events[1..])
    else None
  }

  /** From the start, the step stays within 1..3 whatever the user does. */
  lemma {:induction false} RunKeepsStepInRange(w: Wizard, events: seq<Event>)
    requires StepInRange(w)
    ensures Run(w, events).Some? ==> StepInRange(Run(w, events).value)
    decreases events
  {
    if events != [] && Offered(w, events[0]) {
      RunKeepsStepInRange(Dispatch(w, events[0]), events[1..]);
    }
  }

  /** Step 3 is reached from an earlier step only through a "next" press: edits and "back" never reach it. */
  lemma {:induction false} ReachingStepThreeNeedsNext(w: Wizard, events: seq<Event>)
    requires w.step < 3
    requires Run(w, events).Some? && Run(w, events).value.step == 3
    ensures exists k :: 0 <= k < |events| && events[k].Next?
    decreases events
  {
    assert events != [];
    var w1 := Dispatch(w, events[0]);
    if !events[0].Next? {
      assert w1.step < 3;
      ReachingStepThreeNeedsNext(w1, events[1..]);
      var k :| 0 <= k < |events[1..]| && events[1..][k].Next?;
      assert events[k + 1].Next?;
    }
  }

  // ---------------------------------------------------------------------
  // The component's state as an object.
  // ---------------------------------------------------------------------

  class AccountCreationForm {
    var formData: FormData
    var currentStep: int
    var error: string

    function State(): Wizard
      reads this
    {
      Wizard(formData, currentStep, error)
    }

    /** The hooks' initial values: the empty form with deposit "1000", step 1, no error. */
    constructor ()
      ensures State() == Start
      ensures formData.initialDeposit == "1000" && formData.ownerName == "" && currentStep == 1 && error == ""
    {
      formData := InitialForm;
      currentStep := 1;
      error := "";
    }

    method HandleChange(name: Field, value: string)
      modifies this
      ensures State() == AfterChange(old(State()), name, value)
    {
      formData := Set(formData, name, value);
    }

    method HandleNext(generated: string)
      modifies this
      ensures State() == AfterNext(old(State()), generated)
    {
      error := "";
      if currentStep == 1 {
        var v := ValidateStep1(formData);
        if v.Ok? {
          formData := formData.(accountNumber := generated);
          currentStep := 2;
        } else {
          error := Message(v.error);
        }
      } else if currentStep == 2 {
        var v := ValidateStep2(formData);
        if v.Ok? {
          currentStep := 3;
        } else {
          error := Message(v.error);
        }
      }
    }

    method Back()
      requires currentStep > 1
      modifies this
      ensures State() == AfterBack(old(State()))
    {
      currentStep := currentStep - 1;
    }
  }
}
