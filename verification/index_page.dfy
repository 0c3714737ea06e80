/** The app shell (`Index.tsx`): which screen is showing, who is logged in,
    the progress record in memory, and the two kinds of entries it keeps in
    browser storage: the app record under `concept_booster_data` and one
    progress record per mobile under `progress_<mobile>`. Storage is a map
    from keys to stored text; `JSON.stringify` and `JSON.parse` are
    function parameters. */
module IndexPage {
  import opened Wrappers
  import opened Text
  import opened Progress
  import LoginScreen

  datatype Screen = RoleSelect | Login | StudentDashboard | ParentDashboard

  datatype Role = Student | Parent

  /** A mobile as the page holds it. `handleLogin` is declared to take the
      mobile text, but the login screen hands it the form's whole record,
      and the page then keeps that record wherever a mobile goes. */
  datatype MobileValue = MobileText(text: string) | FormObject(form: LoginScreen.LoginData)

  const NoMobile := MobileText("")

  /** JavaScript truthiness of a mobile: the empty text is falsy, and every
      object is truthy. */
  predicate Present(v: MobileValue) {
    v.FormObject? || v.text != ""
  }

  /** `v || d` on mobiles. */
  function OrMobile(v: MobileValue, d: MobileValue): (r: MobileValue)
    ensures Present(v) ==> r == v
    ensures !Present(v) ==> r == d
  {
    if Present(v) then v else d
  }

  /** How a template literal renders a plain object. */
  const ObjectText := "[object Object]"

  /** `${v}` for a mobile: text renders as itself, a plain object without a
      `toString` of its own as `[object Object]`. */
  function TemplateText(v: MobileValue): string {
    match v
    case MobileText(t) => t
    case FormObject(_) => ObjectText
  }

  /** The record saved under `StorageKey`; a stored record may lack its
      progress. */
  datatype AppData = AppData(
    role: Option<Role>,
    mobile: MobileValue,
    studentMobile: MobileValue,
    progress: Option<StudentProgress>)

  datatype AppState = AppState(
    screen: Screen,
    role: Option<Role>,
    mobile: MobileValue,
    studentMobile: MobileValue,
    progress: StudentProgress)

  type Storage = map<string, string>

  const StorageKey := "concept_booster_data"
  const ProgressPrefix := "progress_"

  const EmptyData := AppData(None, NoMobile, NoMobile, Some(DefaultProgress))

  /** The state the page starts in before anything is restored. */
  const Initial := AppState(RoleSelect, None, NoMobile, NoMobile, DefaultProgress)

  /** `localStorage.getItem(key)`: `None` stands for `null`. */
  function Get(storage: Storage, key: string): (r: Option<string>)
    ensures r.Some? <==> key in storage
    ensures r.Some? ==> r.value == storage[key]
  {
    if key in storage then Some(storage[key]) else None
  }

  /** `parse` and `show` invert each other, and `show` never yields the empty
      text (JSON text of a record never is empty). */
  ghost predicate RoundTrips<T(!new)>(show: T -> string, parse: string -> Option<T>) {
    forall x: T :: show(x) != "" && parse(show(x)) == Some(x)
  }

  /** `loadData`: the stored record when there is one and it parses, the
      empty record otherwise (a missing or empty entry, or a parse error). */
  function LoadData(raw: Option<string>, parse: string -> Option<AppData>): (d: AppData)
    ensures Truthy(raw) && parse(raw.value).Some? ==> d == parse(raw.value).value
    ensures !Truthy(raw) || parse(raw.value).None? ==> d == EmptyData
  {
    if Truthy(raw) && parse(raw.value).Some? then parse(raw.value).value else EmptyData
  }

  /** The screen a role lands on after login or restore. */
  function Dashboard(role: Option<Role>): (s: Screen)
    ensures s == StudentDashboard <==> role == Some(Student)
    ensures s != StudentDashboard ==> s == ParentDashboard
  {
    if role == Some(Student) then StudentDashboard else ParentDashboard
  }

  /** The mount effect: a saved record is restored only when it has both a
      mobile and a role; its progress defaults, and so does its student
      mobile (to the mobile). */
  function Restore(d: AppData): (st: AppState)
    ensures !Present(d.mobile) || d.role.None? ==> st == Initial
    ensures Present(d.mobile) && d.role.Some? ==>
      && st.screen == Dashboard(d.role)
      && st.role == d.role && st.mobile == d.mobile
      && st.progress == d.progress.GetOr(DefaultProgress)
      && st.studentMobile == (if Present(d.studentMobile) then d.studentMobile else d.mobile)
    ensures st.screen == RoleSelect <==> !Present(d.mobile) || d.role.None?
  {
    if Present(d.mobile) && d.role.Some? then
      AppState(Dashboard(d.role), d.role, d.mobile,
        OrMobile(d.studentMobile, d.mobile), d.progress.GetOr(DefaultProgress))
    else Initial
  }

  /** Opening the page: load the app record and restore it. */
  function Startup(storage: Storage, parse: string -> Option<AppData>): AppState {
    Restore(LoadData(Get(storage, StorageKey), parse))
  }

  /** `handleRoleSelect`. */
  function HandleRoleSelect(st: AppState, role: Role): (r: AppState)
    ensures r.role == Some(role) && r.screen == Login
    ensures r.mobile == st.mobile && r.studentMobile == st.studentMobile && r.progress == st.progress
  {
    st.(role := Some(role), screen := Login)
  }

  /** The storage key of one mobile's progress record. */
  function ProgressKey(mobile: string): (k: string)
    ensures |k| == |ProgressPrefix| + |mobile|
    ensures k[..|ProgressPrefix|] == ProgressPrefix && k[|ProgressPrefix|..] == mobile
  {
    ProgressPrefix + mobile
  }

  /** Different mobiles have different progress records. */
  lemma ProgressKeyInjective(a: string, b: string)
    ensures ProgressKey(a) == ProgressKey(b) <==> a == b
  {
    if ProgressKey(a) == ProgressKey(b) {
      assert a == ProgressKey(a)[|ProgressPrefix|..];
    }
  }

  /** The progress stored under `key`, or the default when the entry is
      missing, empty or does not parse. */
  function LoadProgress(storage: Storage, key: string, parse: string -> Option<StudentProgress>): (p: StudentProgress)
    ensures key in storage && storage[key] != "" && parse(storage[key]).Some? ==> p == parse(storage[key]).value
    ensures key !in storage || storage[key] == "" || parse(storage[key]).None? ==> p == DefaultProgress
  {
    var raw := Get(storage, key);
    if Truthy(raw) && parse(raw.value).Some? then parse(raw.value).value else DefaultProgress
  }

  /** A state together with the storage after the handler ran. */
  datatype Step = Step(state: AppState, storage: Storage)

  /** The app record `handleLogin` saves: a missing role is saved as parent,
      since the parent branch is the `else` branch. */
  function LoginRecord(role: Option<Role>, mobile: MobileValue, p: StudentProgress): AppData {
    AppData(Some(if role == Some(Student) then Student else Parent), mobile, mobile, Some(p))
  }

  /** `handleLogin` on whatever it is handed: both branches load the record
      under `progress_${loginMobile}`, link the student mobile to the login
      mobile, save the app record and open the dashboard of the role. */
  function HandleLogin(st: AppState, loginMobile: MobileValue, storage: Storage,
                       parseProgress: string -> Option<StudentProgress>,
                       save: AppData -> string): (r: Step)
    ensures var p := LoadProgress(storage, ProgressKey(TemplateText(loginMobile)), parseProgress);
      && r.state == AppState(Dashboard(st.role), st.role, loginMobile, loginMobile, p)
      && r.storage == storage[StorageKey := save(LoginRecord(st.role, loginMobile, p))]
  {
    var existing := LoadProgress(storage, ProgressKey(TemplateText(loginMobile)), parseProgress);
    var data := LoginRecord(st.role, loginMobile, existing);
    if st.role == Some(Student) then
      Step(st.(mobile := loginMobile, progress := existing, studentMobile := loginMobile,
               screen := StudentDashboard),
           storage[StorageKey := save(data)])
    else
      var linked := LoadProgress(storage, ProgressKey(TemplateText(loginMobile)), parseProgress);
      Step(st.(mobile := loginMobile, progress := linked, studentMobile := loginMobile,
               screen := ParentDashboard),
           storage[StorageKey := save(data)])
  }

  /** `handleUpdateProgress`: merge, recompute mastery, and write the result
      to the logged-in mobile's progress record. */
  function HandleUpdateProgress(st: AppState, u: Update, storage: Storage,
                                show: StudentProgress -> string): (r: Step)
    ensures r.state == st.(progress := Merge(st.progress, u))
    ensures r.storage == storage[ProgressKey(TemplateText(st.mobile)) := show(Merge(st.progress, u))]
    ensures Consistent(r.state.progress)
  {
    var final := Merge(st.progress, u);
    Step(st.(progress := final), storage[ProgressKey(TemplateText(st.mobile)) := show(final)])
  }

  /** `handleLogout`: the saved app record is removed and every field goes
      back to its starting value. */
  function HandleLogout(st: AppState, storage: Storage): (r: Step)
    ensures r.state.screen == RoleSelect && r.state.role.None?
    ensures r.state.mobile == NoMobile && r.state.studentMobile == NoMobile && r.state.progress == DefaultProgress
    ensures StorageKey !in r.storage
    ensures forall k :: k in storage && k != StorageKey ==> k in r.storage && r.storage[k] == storage[k]
  {
    Step(Initial, storage - {StorageKey})
  }

  /** A reload right after logging in lands on the same screen with the same
      state, whatever role was chosen. */
  lemma LoginSurvivesReload(st: AppState, loginMobile: MobileValue, storage: Storage,
                            parseProgress: string -> Option<StudentProgress>,
                            save: AppData -> string, parse: string -> Option<AppData>)
    requires RoundTrips(save, parse)
    requires st.role.Some? && Present(loginMobile)
    ensures var r := HandleLogin(st, loginMobile, storage, parseProgress, save);
      Startup(r.storage, parse) == r.state
  {
    var r := HandleLogin(st, loginMobile, storage, parseProgress, save);
    var p := LoadProgress(storage, ProgressKey(TemplateText(loginMobile)), parseProgress);
    var d := LoginRecord(st.role, loginMobile, p);
    assert parse(save(d)) == Some(d) && save(d) != "";
    assert Get(r.storage, StorageKey) == Some(save(d));
    assert LoadData(Some(save(d)), parse) == d;
    assert d.role == st.role by {
      match st.role.value
      case Student =>
      case Parent =>
    }
    assert Restore(d) == r.state;
  }

  /** A reload after logging out shows role selection again. */
  lemma LogoutSurvivesReload(st: AppState, storage: Storage, parse: string -> Option<AppData>)
    ensures var r := HandleLogout(st, storage);
      Startup(r.storage, parse) == r.state
  {
    var r := HandleLogout(st, storage);
    assert Get(r.storage, StorageKey) == None;
    assert LoadData(None, parse) == EmptyData;
    assert Restore(EmptyData) == Initial;
  }

  /** Progress earned under a mobile comes back at the next login with that
      mobile, in either role. */
  lemma ProgressComesBackAtLogin(st: AppState, u: Update, storage: Storage,
                                 show: StudentProgress -> string,
                                 parseProgress: string -> Option<StudentProgress>,
                                 later: AppState, save: AppData -> string)
    requires RoundTrips(show, parseProgress)
    ensures var r := HandleUpdateProgress(st, u, storage, show);
      HandleLogin(later, st.mobile, r.storage, parseProgress, save).state.progress == r.state.progress
  {
    var final := Merge(st.progress, u);
    assert parseProgress(show(final)) == Some(final) && show(final) != "";
  }

  /** Progress earned under one mobile is invisible to a login with another. */
  lemma SeparateRecords(st: AppState, u: Update, storage: Storage,
                        show: StudentProgress -> string,
                        parseProgress: string -> Option<StudentProgress>,
                        later: AppState, other: string, save: AppData -> string)
    requires st.mobile.MobileText? && other != st.mobile.text
    ensures var r := HandleUpdateProgress(st, u, storage, show);
      HandleLogin(later, MobileText(other), r.storage, parseProgress, save).state.progress
        == HandleLogin(later, MobileText(other), storage, parseProgress, save).state.progress
  {
    ProgressKeyInjective(other, st.mobile.text);
  }

  /** Whether the screen of `st` can be drawn. Both dashboards show a mobile
      as a React child, `+91 {mobile}` on the student's and
      `{studentMobile || mobile}` on the parent's, and React throws on a
      plain object. */
  predicate Renders(st: AppState) {
    match st.screen
    case StudentDashboard => st.mobile.MobileText?
    case ParentDashboard => OrMobile(st.studentMobile, st.mobile).MobileText?
    case _ => true
  }

  /** The login as wired: the login screen hands `handleLogin` its whole
      `{fullName, dob, mobile}` record. The progress lookup renders the
      record as `[object Object]`, so the key is the same whoever logs in,
      and the dashboard it opens cannot be drawn, since it shows the record
      where the mobile goes. */
  function LoginAsWired(st: AppState, d: LoginScreen.LoginData, storage: Storage,
                        parseProgress: string -> Option<StudentProgress>,
                        save: AppData -> string): (r: Step)
    ensures r.state.mobile == FormObject(d) && r.state.studentMobile == FormObject(d)
    ensures r.state.progress == LoadProgress(storage, ProgressKey(ObjectText), parseProgress)
    ensures !Renders(r.state)
  {
    HandleLogin(st, FormObject(d), storage, parseProgress, save)
  }

  /** Counterexample to per-student records as wired: forms with different
      mobiles look up the same entry and load the same record. Since nothing
      ever writes that entry, each loads the default record. */
  lemma OneRecordForEveryForm(st: AppState, a: LoginScreen.LoginData, b: LoginScreen.LoginData,
                              storage: Storage, parseProgress: string -> Option<StudentProgress>,
                              save: AppData -> string)
    requires a.mobile != b.mobile
    ensures LoginAsWired(st, a, storage, parseProgress, save).state.progress
         == LoginAsWired(st, b, storage, parseProgress, save).state.progress
    ensures ProgressKey(ObjectText) !in storage ==>
      LoginAsWired(st, a, storage, parseProgress, save).state.progress == DefaultProgress
  {
  }

  /** As wired, a reload brings the record back as the mobile, so the
      dashboard fails to draw again. */
  lemma ReloadFailsAgainAsWired(st: AppState, d: LoginScreen.LoginData, storage: Storage,
                                parseProgress: string -> Option<StudentProgress>,
                                save: AppData -> string, parse: string -> Option<AppData>)
    requires RoundTrips(save, parse) && st.role.Some?
    ensures var r := LoginAsWired(st, d, storage, parseProgress, save);
      Startup(r.storage, parse) == r.state && !Renders(Startup(r.storage, parse))
  {
    LoginSurvivesReload(st, FormObject(d), storage, parseProgress, save, parse);
  }

  /** The shared record the wiring would make, were a dashboard to pass an
      update on without drawing the mobile: what one user saved is what a
      user with a different mobile then loads. As wired, the student
      dashboard draws the mobile first, so nothing reaches the shared key. */
  lemma SharedRecordIfUndrawn(st: AppState, a: LoginScreen.LoginData, b: LoginScreen.LoginData,
                              u: Update, storage: Storage, show: StudentProgress -> string,
                              parseProgress: string -> Option<StudentProgress>,
                              later: AppState, save: AppData -> string)
    requires RoundTrips(show, parseProgress)
    requires st.mobile == FormObject(a) && a.mobile != b.mobile
    ensures var r := HandleUpdateProgress(st, u, storage, show);
      LoginAsWired(later, b, r.storage, parseProgress, save).state.progress == r.state.progress
  {
    var final := Merge(st.progress, u);
    assert parseProgress(show(final)) == Some(final) && show(final) != "";
  }

  /** The intended wiring: the mobile field of the login record is what
      `handleLogin` receives. The dashboard can be drawn, and progress is
      keyed by the mobile. */
  function LoginFromForm(st: AppState, d: LoginScreen.LoginData, storage: Storage,
                         parseProgress: string -> Option<StudentProgress>,
                         save: AppData -> string): (r: Step)
    ensures r.state.mobile == MobileText(d.mobile) && r.state.studentMobile == MobileText(d.mobile)
    ensures r.state.progress == LoadProgress(storage, ProgressKey(d.mobile), parseProgress)
    ensures Renders(r.state)
  {
    HandleLogin(st, MobileText(d.mobile), storage, parseProgress, save)
  }

  /** With the mobile passed on, forms with different mobiles keep separate
      records: what the first earns on its dashboard does not change what
      the second loads. */
  lemma SeparateRecordsFromForms(st: AppState, a: LoginScreen.LoginData, b: LoginScreen.LoginData,
                                 u: Update, storage: Storage, show: StudentProgress -> string,
                                 parseProgress: string -> Option<StudentProgress>,
                                 later: AppState, save: AppData -> string)
    requires a.mobile != b.mobile
    ensures var s1 := LoginFromForm(st, a, storage, parseProgress, save);
      var r := HandleUpdateProgress(s1.state, u, s1.storage, show);
      LoginFromForm(later, b, r.storage, parseProgress, save).state.progress
        == LoginFromForm(later, b, s1.storage, parseProgress, save).state.progress
  {
    var s1 := LoginFromForm(st, a, storage, parseProgress, save);
    SeparateRecords(s1.state, u, s1.storage, show, parseProgress, later, b.mobile, save);
  }
}
