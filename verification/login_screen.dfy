/** The login form: the mobile field's digit filter, the order in which
    `handleSubmit` checks the fields, the predicate that enables the submit
    button, and which error the form displays. */
module LoginScreen {
  import opened Wrappers
  import opened Text

  /** The three inputs and the form's own error message. */
  datatype Form = Form(fullName: string, dob: string, mobile: string, error: string)

  const EmptyForm := Form("", "", "", "")

  /** What `onLogin` is handed when every check passes. */
  datatype LoginData = LoginData(fullName: string, dob: string, mobile: string)

  const BlankNameMessage := "Please enter full name"
  const LongNameMessage := "Name must be less than 100 characters"
  const MissingDobMessage := "Please select date of birth"
  const BadMobileMessage := "Please enter a valid 10-digit mobile number"

  /** Longest trimmed name the form accepts, in UTF-16 code units. */
  const MaxNameLength: nat := 100
  const MobileLength: nat := 10

  /** `/^\d{10}$/`: exactly ten ASCII digits. */
  predicate ValidMobile(m: string) {
    |m| == MobileLength && AllDigits(m)
  }

  /** `replace(/\D/g, "")`: every character that is not an ASCII digit is
      dropped, the digits keep their order. */
  function Sanitise(s: string): (r: string)
    ensures AllDigits(r)
    ensures |r| <= |s|
    decreases |s|
  {
    if s == [] then []
    else (if IsDigit(s[0]) then [s[0]] else []) + Sanitise(s[1..])
  }

  /** The filter works piece by piece. */
  lemma {:induction false} SanitiseConcat(a: string, b: string)
    ensures Sanitise(a + b) == Sanitise(a) + Sanitise(b)
    decreases |a|
  {
    if a == [] {
      assert a + b == b;
    } else {
      assert (a + b)[1..] == a[1..] + b;
      SanitiseConcat(a[1..], b);
    }
  }

  /** Each digit occurs as often as in the input; nothing else survives. */
  lemma {:induction false} SanitiseKeepsExactlyDigits(s: string, c: char)
    ensures multiset(Sanitise(s))[c] == if IsDigit(c) then multiset(s)[c] else 0
    decreases |s|
  {
    if s != [] {
      SanitiseKeepsExactlyDigits(s[1..], c);
      assert s == [s[0]] + s[1..];
    }
  }

  /** The filter leaves a string alone exactly when it is all digits. */
  lemma {:induction false} SanitiseFixed(s: string)
    ensures Sanitise(s) == s <==> AllDigits(s)
    decreases |s|
  {
    if s != [] {
      SanitiseFixed(s[1..]);
      if AllDigits(s) {
        assert AllDigits(s[1..]);
      }
    }
  }

  /** Filtering twice is filtering once. */
  lemma SanitiseIdempotent(s: string)
    ensures Sanitise(Sanitise(s)) == Sanitise(s)
  {
    SanitiseFixed(Sanitise(s));
  }

  /** Typing into a field stores the new value and clears the error; the
      mobile field stores only the digits of what was typed. */
  function EditName(f: Form, v: string): (r: Form)
    ensures r.fullName == v && r.dob == f.dob && r.mobile == f.mobile && r.error == ""
  {
    f.(fullName := v, error := "")
  }

  function EditDob(f: Form, v: string): (r: Form)
    ensures r.dob == v && r.fullName == f.fullName && r.mobile == f.mobile && r.error == ""
  {
    f.(dob := v, error := "")
  }

  function EditMobile(f: Form, v: string): (r: Form)
    ensures AllDigits(r.mobile) && r.mobile == Sanitise(v)
    ensures r.fullName == f.fullName && r.dob == f.dob && r.error == ""
  {
    f.(mobile := Sanitise(v), error := "")
  }

  /** What the form reaches through its edit handlers: the mobile field
      never holds anything but digits. */
  predicate Reachable(f: Form) {
    AllDigits(f.mobile)
  }

  lemma EditsStayReachable(f: Form, v: string)
    requires Reachable(f)
    ensures Reachable(EditName(f, v)) && Reachable(EditDob(f, v)) && Reachable(EditMobile(f, v))
  {
  }

  datatype Submission = Rejected(form: Form) | Accepted(form: Form, data: LoginData)

  /** `handleSubmit`: the first failing check sets its message and stops;
      when all pass the error is cleared and `onLogin` receives the trimmed
      name with the other two fields as typed. */
  function Submit(f: Form): (r: Submission)
    ensures var name := Trim(f.fullName);
      && (r.Accepted? <==>
            name != "" && Utf16Length(name) <= MaxNameLength && f.dob != "" && ValidMobile(f.mobile))
      && (name == "" ==> r == Rejected(f.(error := BlankNameMessage)))
      && (name != "" && Utf16Length(name) > MaxNameLength ==>
            r == Rejected(f.(error := LongNameMessage)))
      && (name != "" && Utf16Length(name) <= MaxNameLength && f.dob == "" ==>
            r == Rejected(f.(error := MissingDobMessage)))
      && (name != "" && Utf16Length(name) <= MaxNameLength && f.dob != "" && !ValidMobile(f.mobile) ==>
            r == Rejected(f.(error := BadMobileMessage)))
      && (r.Accepted? ==> r.form == f.(error := "") && r.data == LoginData(name, f.dob, f.mobile))
  {
    var name := Trim(f.fullName);
    if name == "" then Rejected(f.(error := BlankNameMessage))
    else if Utf16Length(name) > MaxNameLength then Rejected(f.(error := LongNameMessage))
    else if f.dob == "" then Rejected(f.(error := MissingDobMessage))
    else if !ValidMobile(f.mobile) then Rejected(f.(error := BadMobileMessage))
    else Accepted(f.(error := ""), LoginData(name, f.dob, f.mobile))
  }

  /** The submit button's enabling condition. */
  predicate CanSubmit(loading: bool, f: Form) {
    !loading && Trim(f.fullName) != "" && f.dob != "" && Utf16Length(f.mobile) == MobileLength
  }

  /** Every accepted form had its button enabled; on a form reached through
      the edit handlers, with a name inside the limit, the button is enabled
      exactly when submitting succeeds. */
  lemma CanSubmitMatchesSubmit(f: Form)
    ensures Submit(f).Accepted? ==> CanSubmit(false, f)
    ensures Reachable(f) && Utf16Length(Trim(f.fullName)) <= MaxNameLength ==>
      (CanSubmit(false, f) <==> Submit(f).Accepted?)
  {
  }

  /** The accepted mobile always passes its own check again. */
  lemma AcceptedMobileIsSanitised(f: Form)
    requires Submit(f).Accepted?
    ensures Sanitise(Submit(f).data.mobile) == Submit(f).data.mobile
    ensures Trim(Submit(f).data.fullName) == Submit(f).data.fullName
  {
    SanitiseFixed(f.mobile);
    TrimIdempotent(f.fullName);
  }

  /** `externalError || error`: a non-empty error from the parent wins. */
  function DisplayError(external: Option<string>, local: string): (d: string)
    ensures Truthy(external) ==> d == external.value
    ensures !Truthy(external) ==> d == local
    ensures d == "" <==> !Truthy(external) && local == ""
  {
    OrDefault(external, local)
  }

  /** Whatever the last submit said, an edit leaves nothing on screen unless
      the parent supplies an error. */
  lemma EditClearsDisplayedError(f: Form, v: string, external: Option<string>)
    requires !Truthy(external)
    ensures DisplayError(external, EditName(f, v).error) == ""
    ensures DisplayError(external, EditDob(f, v).error) == ""
    ensures DisplayError(external, EditMobile(f, v).error) == ""
  {
  }
}
