/** The sign-up screen's decision logic: form validation (including the e-mail pattern),
    the order of the checks in the submit handler, the payload it submits, and how a
    failed submission is shown. */
module Signup {
  import opened Base
  import Auth
  import AuthSession
  import Api

  datatype SignupForm = SignupForm(fullName: string, email: string, password: string, agreeToTerms: bool)

  const NameRequired := "Full name is required"
  const EmailRequired := "Email is required"
  const EmailInvalid := "Please enter a valid email"
  const PasswordRequired := "Password is required"
  const PasswordTooShort := "Password must be at least 8 characters"
  const TermsRequired := "Please agree to the Terms of Service and Privacy Policy"
  const MinPasswordLength := 8

  // ---- the e-mail pattern /^[^\s@]+@[^\s@]+\.[^\s@]+$/ ----

  /** Matched by `[^\s@]+`: non-empty, no white space, no `@`. */
  predicate Plain(s: string) {
    s != [] && forall k :: 0 <= k < |s| ==> !IsSpace(s[k]) && s[k] != '@'
  }

  /** `s` is `local@host.rest` with each piece matched by `[^\s@]+`. */
  predicate Shape(s: string, local: string, host: string, rest: string) {
    Plain(local) && Plain(host) && Plain(rest) && s == local + "@" + host + "." + rest
  }

  /** The regular expression, read literally. */
  ghost predicate PatternMatches(s: string) {
    exists local, host, rest :: Shape(s, local, host, rest)
  }

  /** The test the screen performs, stated on positions: no white space anywhere, exactly
      one `@` and not first, and a `.` after it that is neither right after the `@` nor the
      last character. */
  predicate IsEmail(s: string) {
    exists i, j :: 0 < i && i + 1 < j < |s| - 1 && s[i] == '@' && s[j] == '.' && OnlyAt(s, i)
  }

  /** No white space in `s`, and no `@` except at index `i`. */
  predicate OnlyAt(s: string, i: int) {
    forall k :: 0 <= k < |s| ==> !IsSpace(s[k]) && (s[k] == '@' ==> k == i)
  }

  /** The positional test is the regular expression. */
  lemma IsEmailIffPattern(s: string)
    ensures IsEmail(s) <==> PatternMatches(s)
  {
    if IsEmail(s) {
      var i, j :| 0 < i && i + 1 < j < |s| - 1 && s[i] == '@' && s[j] == '.' && OnlyAt(s, i);
      var local, host, rest := s[..i], s[i + 1..j], s[j + 1..];
      assert s == local + "@" + host + "." + rest;
      assert Plain(local) by {
        forall k | 0 <= k < |local| ensures !IsSpace(local[k]) && local[k] != '@' { assert local[k] == s[k]; }
      }
      assert Plain(host) by {
        forall k | 0 <= k < |host| ensures !IsSpace(host[k]) && host[k] != '@' { assert host[k] == s[i + 1 + k]; }
      }
      assert Plain(rest) by {
        forall k | 0 <= k < |rest| ensures !IsSpace(rest[k]) && rest[k] != '@' { assert rest[k] == s[j + 1 + k]; }
      }
      assert Shape(s, local, host, rest);
    }
    if PatternMatches(s) {
      var local, host, rest :| Shape(s, local, host, rest);
      var i, j := |local|, |local| + 1 + |host|;
      assert s[i] == '@' && s[j] == '.';
      assert OnlyAt(s, i) by {
        forall k | 0 <= k < |s| ensures !IsSpace(s[k]) && (s[k] == '@' ==> k == i) {
          if k < i { assert s[k] == local[k]; }
          else if i < k < j { assert s[k] == host[k - i - 1]; }
          else if j < k { assert s[k] == rest[k - j - 1]; }
        }
      }
    }
  }

  // ---- validateForm ----

  /** `validateForm`'s error map. The name is checked trimmed; the e-mail is checked
      trimmed for presence but matched untrimmed; the password is neither trimmed nor
      otherwise inspected, and its length is counted in UTF-16 code units. */
  function ValidateForm(f: SignupForm): (errors: map<string, string>)
    ensures errors.Keys <= {"fullName", "email", "password"}
    ensures "fullName" in errors <==> Trim(f.fullName) == []
    ensures "fullName" in errors ==> errors["fullName"] == NameRequired
    ensures "email" in errors <==> Trim(f.email) == [] || !IsEmail(f.email)
    ensures Trim(f.email) == [] ==> errors["email"] == EmailRequired
    ensures Trim(f.email) != [] && !IsEmail(f.email) ==> errors["email"] == EmailInvalid
    ensures "password" in errors <==> JsLength(f.password) < MinPasswordLength
    ensures f.password == [] ==> errors["password"] == PasswordRequired
    ensures f.password != [] && JsLength(f.password) < MinPasswordLength ==> errors["password"] == PasswordTooShort
  {
    var e1: map<string, string> := if Trim(f.fullName) == [] then map["fullName" := NameRequired] else map[];
    var e2 := if Trim(f.email) == [] then e1["email" := EmailRequired]
              else if !IsEmail(f.email) then e1["email" := EmailInvalid] else e1;
    if f.password == [] then e2["password" := PasswordRequired]
    else if JsLength(f.password) < MinPasswordLength then e2["password" := PasswordTooShort]
    else e2
  }

  /** A string the pattern accepts is never blank, so the e-mail has an error exactly
      when the pattern rejects it. */
  lemma EmailErrorIffNoMatch(f: SignupForm)
    ensures "email" in ValidateForm(f) <==> !PatternMatches(f.email)
  {
    IsEmailIffPattern(f.email);
    if IsEmail(f.email) {
      var i, j :| 0 < i && i + 1 < j < |f.email| - 1 && f.email[i] == '@' && f.email[j] == '.' && OnlyAt(f.email, i);
      TrimEmptyIffAllSpace(f.email);
      assert !IsSpace(f.email[0]);
    }
  }

  /** `validateForm()` returns true exactly when the name is not blank, the e-mail matches
      the pattern and the password has at least eight UTF-16 code units. */
  lemma ValidIff(f: SignupForm)
    ensures ValidateForm(f) == map[] <==>
      Trim(f.fullName) != [] && PatternMatches(f.email) && JsLength(f.password) >= MinPasswordLength
  {
    EmailErrorIffNoMatch(f);
    var e := ValidateForm(f);
    if Trim(f.fullName) != [] && PatternMatches(f.email) && JsLength(f.password) >= MinPasswordLength {
      assert e.Keys == {};
    } else {
      assert "fullName" in e || "email" in e || "password" in e;
    }
  }

  /** Length is counted as JavaScript counts it: four emoji make an eight-unit password,
      which passes, while four letters do not. */
  lemma PasswordLengthInCodeUnits(f: SignupForm)
    requires f.password == "\U{1F600}\U{1F600}\U{1F600}\U{1F600}"
    ensures "password" !in ValidateForm(f)
    ensures "password" in ValidateForm(f.(password := "abcd"))
  {
    var e := "\U{1F600}";
    assert JsLength(e) == 2 by { assert e[..0] == []; }
    JsLengthAppend(e, e);
    JsLengthAppend(e + e, e + e);
    assert f.password == (e + e) + (e + e);
    assert JsLength("abcd") == 4;
  }

  // ---- handleSignup ----

  /** The object `handleSignup` passes to the session's `login`. */
  datatype SignupPayload = SignupPayload(name: string, email: string, password: string)

  /** How the synchronous part of `handleSignup` ends. */
  datatype Submission =
    | TermsRefused(generalError: string)
    | Invalid(errors: map<string, string>)
    | Submitted(payload: SignupPayload)

  /** The terms check comes first and short-circuits validation; a valid form submits the
      trimmed name, the trimmed and lower-cased e-mail and the password exactly as typed. */
  function HandleSignup(f: SignupForm): (r: Submission)
    ensures r.TermsRefused? <==> !f.agreeToTerms
    ensures r.TermsRefused? ==> r.generalError == TermsRequired
    ensures r.Invalid? <==> f.agreeToTerms && ValidateForm(f) != map[]
    ensures r.Invalid? ==> r.errors == ValidateForm(f)
    ensures r.Submitted? ==> r.payload.name == Trim(f.fullName) && r.payload.password == f.password
    ensures r.Submitted? ==> r.payload.email == ToLower(Trim(f.email))
  {
    if !f.agreeToTerms then TermsRefused(TermsRequired)
    else
      var errors := ValidateForm(f);
      if errors != map[] then Invalid(errors)
      else Submitted(SignupPayload(Trim(f.fullName), ToLower(Trim(f.email)), f.password))
  }

  /** A submitted payload is already normalised: trimming its name or lower-casing its
      e-mail again changes nothing. */
  lemma PayloadNormalised(f: SignupForm)
    requires HandleSignup(f).Submitted?
    ensures var p := HandleSignup(f).payload;
      Trim(p.name) == p.name && ToLower(p.email) == p.email
  {
    TrimIdempotent(f.fullName);
    ToLowerIdempotent(Trim(f.email));
  }

  // ---- showing a failed submission ----

  /** `forEach(err => map[err.field] = err.message)`, starting from `acc`. */
  function FoldFieldErrors(acc: map<string, string>, errs: seq<Auth.ValidationError>): map<string, string>
    decreases |errs|
  {
    if errs == [] then acc
    else FoldFieldErrors(acc[errs[0].field := errs[0].message], errs[1..])
  }

  /** The message of the last entry for `field`, if any. */
  function LastMessage(errs: seq<Auth.ValidationError>, field: string): Option<string> {
    if errs == [] then None
    else if errs[|errs| - 1].field == field then Some(errs[|errs| - 1].message)
    else LastMessage(errs[..|errs| - 1], field)
  }

  lemma {:induction false} LastMessageCons(e: Auth.ValidationError, rest: seq<Auth.ValidationError>, field: string)
    ensures LastMessage([e] + rest, field) ==
      if LastMessage(rest, field).Some? then LastMessage(rest, field)
      else if e.field == field then Some(e.message) else None
    decreases |rest|
  {
    var s := [e] + rest;
    if rest != [] {
      assert s[..|s| - 1] == [e] + rest[..|rest| - 1];
      assert s[|s| - 1] == rest[|rest| - 1];
      LastMessageCons(e, rest[..|rest| - 1], field);
    }
  }

  /** Later entries for the same field overwrite earlier ones: each field ends up with the
      message of its last entry, and fields without an entry keep their value. */
  lemma {:induction false} FoldFieldErrorsLastWins(acc: map<string, string>, errs: seq<Auth.ValidationError>, field: string)
    ensures field in FoldFieldErrors(acc, errs) <==> LastMessage(errs, field).Some? || field in acc
    ensures LastMessage(errs, field).Some? ==> FoldFieldErrors(acc, errs)[field] == LastMessage(errs, field).value
    ensures LastMessage(errs, field).None? && field in acc ==> FoldFieldErrors(acc, errs)[field] == acc[field]
    decreases |errs|
  {
    if errs != [] {
      FoldFieldErrorsLastWins(acc[errs[0].field := errs[0].message], errs[1..], field);
      LastMessageCons(errs[0], errs[1..], field);
      assert [errs[0]] + errs[1..] == errs;
    }
  }

  /** What the screen shows after `login` settles. */
  datatype Outcome = Outcome(errors: map<string, string>, generalError: string, navigated: bool)

  /** The screen after a submission: success navigates home; failure shows the server's
      field errors (if any) and its message (if any). Both arms of the duplicate-e-mail
      check set the same message. */
  function AfterLogin(result: AuthSession.LoginResult): (o: Outcome)
    ensures o.navigated <==> result.success
    ensures o.navigated ==> o.errors == map[] && o.generalError == ""
    ensures !result.success && result.fieldErrors.Some? ==>
      o.errors == FoldFieldErrors(map[], result.fieldErrors.value)
    ensures !result.success && result.error.Some? ==> o.generalError == result.error.value
  {
    if result.success then Outcome(map[], "", true)
    else
      var errors := if result.fieldErrors.Some? && |result.fieldErrors.value| > 0
                    then FoldFieldErrors(map[], result.fieldErrors.value) else map[];
      var general := if result.error.Some? && result.error.value != "" then result.error.value else "";
      Outcome(errors, general, false)
  }

  /** A rejected sign-up shows exactly the field errors `handleAuthError` extracted, one
      message per field, and the error message it produced. */
  lemma RejectedSignupShowsServerErrors(st: AuthSession.AuthState, t: Api.Thrown, field: string)
    ensures var o := AfterLogin(AuthSession.Login(st, Failure(t)).1);
      var info := Auth.HandleAuthError(t);
      !o.navigated && o.generalError == info.message
      && (field in o.errors <==> LastMessage(info.fieldErrors, field).Some?)
  {
    var info := Auth.HandleAuthError(t);
    FoldFieldErrorsLastWins(map[], info.fieldErrors, field);
  }
}
