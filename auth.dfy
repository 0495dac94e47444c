/** The sign-in / sign-up page: the three form schemas, the Aadhaar input
    sanitiser, the page mode taken from the `mode` query parameter, and the
    three submit handlers with the rows they write. The e-mail check of the
    schema library is a parameter `isEmail`. */
module Auth {
  import opened Text
  import opened Seqs
  import opened Backend

  datatype Mode = LoginMode | SignupMode | BusinessMode

  /** The roles the sign-up form offers. */
  datatype UserRole = AthleteRole | ExAthleteRole | ScoutCoachRole | EnthusiastRole

  function AsAppRole(r: UserRole): AppRole {
    match r
    case AthleteRole => Athlete
    case ExAthleteRole => ExAthlete
    case ScoutCoachRole => ScoutCoach
    case EnthusiastRole => Enthusiast
  }

  datatype LoginForm = LoginForm(email: string, password: string)

  datatype SignupForm = SignupForm(
    fullName: string,
    email: string,
    password: string,
    role: UserRole,
    sport: string,
    location: string,
    aadharNumber: string)

  datatype BusinessForm = BusinessForm(
    businessName: string,
    businessType: BusinessType,
    contactPerson: string,
    email: string,
    password: string,
    phone: string,
    location: string,
    gstNumber: string,
    aadharNumber: string)

  /** One failed schema rule; a parse reports the first, in field order. */
  datatype Issue =
    | InvalidEmail | PasswordTooShort
    | NameTooShort | NameTooLong | AadharLength
    | BusinessNameTooShort | BusinessNameTooLong
    | ContactTooShort | ContactTooLong
    | PhoneTooShort | LocationTooShort | InvalidGst

  // ---------------------------------------------------------------------------
  // Schemas
  // ---------------------------------------------------------------------------

  /** `loginSchema`: fields email, password. Lengths are JavaScript string
      lengths, in UTF-16 code units. */
  function LoginIssue(f: LoginForm, isEmail: string -> bool): (r: Option<Issue>)
    ensures r.None? <==> isEmail(f.email) && Utf16Length(f.password) >= 6
    ensures !isEmail(f.email) ==> r == Some(InvalidEmail)
    ensures isEmail(f.email) && Utf16Length(f.password) < 6 ==> r == Some(PasswordTooShort)
  {
    if !isEmail(f.email) then Some(InvalidEmail)
    else if Utf16Length(f.password) < 6 then Some(PasswordTooShort)
    else None
  }

  /** Three characters above U+FFFF are six code units: a long enough password. */
  lemma AstralPasswordIsLongEnough(email: string, isEmail: string -> bool)
    requires isEmail(email)
    ensures LoginIssue(LoginForm(email, "\U{1F600}\U{1F600}\U{1F600}"), isEmail) == None
  {
    var p := "\U{1F600}\U{1F600}\U{1F600}";
    assert p[1..][1..][1..] == [];
    assert Utf16Length(p) == 6;
  }

  /** `signupSchema`, the login schema extended with fullName and aadharNumber
      (sport and location are optional and always pass). */
  function SignupIssue(f: SignupForm, isEmail: string -> bool): (r: Option<Issue>)
    ensures r.None? <==>
      && isEmail(f.email) && Utf16Length(f.password) >= 6
      && 2 <= Utf16Length(f.fullName) <= 100
      && Utf16Length(f.aadharNumber) == 12
    ensures LoginIssue(LoginForm(f.email, f.password), isEmail).Some? ==>
      r == LoginIssue(LoginForm(f.email, f.password), isEmail)
    ensures LoginIssue(LoginForm(f.email, f.password), isEmail).None? ==>
      && (Utf16Length(f.fullName) < 2 ==> r == Some(NameTooShort))
      && (Utf16Length(f.fullName) > 100 ==> r == Some(NameTooLong))
      && (2 <= Utf16Length(f.fullName) <= 100 && Utf16Length(f.aadharNumber) != 12 ==> r == Some(AadharLength))
  {
    var login := LoginIssue(LoginForm(f.email, f.password), isEmail);
    if login.Some? then login
    else if Utf16Length(f.fullName) < 2 then Some(NameTooShort)
    else if Utf16Length(f.fullName) > 100 then Some(NameTooLong)
    else if Utf16Length(f.aadharNumber) != 12 then Some(AadharLength)
    else None
  }

  /** The business and contact names are both 2..100 code units long. */
  predicate BusinessNamesValid(f: BusinessForm) {
    2 <= Utf16Length(f.businessName) <= 100 && 2 <= Utf16Length(f.contactPerson) <= 100
  }

  /** `businessSchema`, in its field order; the first failing rule is the
      issue reported. */
  function BusinessIssue(f: BusinessForm, isEmail: string -> bool): (r: Option<Issue>)
    ensures r.None? <==>
      && 2 <= Utf16Length(f.businessName) <= 100
      && 2 <= Utf16Length(f.contactPerson) <= 100
      && isEmail(f.email) && Utf16Length(f.password) >= 6
      && Utf16Length(f.phone) >= 10
      && Utf16Length(f.location) >= 3
      && IsGstNumber(f.gstNumber)
      && Utf16Length(f.aadharNumber) == 12
    ensures Utf16Length(f.businessName) < 2 ==> r == Some(BusinessNameTooShort)
    ensures Utf16Length(f.businessName) > 100 ==> r == Some(BusinessNameTooLong)
    ensures 2 <= Utf16Length(f.businessName) <= 100 ==>
      && (Utf16Length(f.contactPerson) < 2 ==> r == Some(ContactTooShort))
      && (Utf16Length(f.contactPerson) > 100 ==> r == Some(ContactTooLong))
    ensures BusinessNamesValid(f) ==>
      && (!isEmail(f.email) ==> r == Some(InvalidEmail))
      && (isEmail(f.email) && Utf16Length(f.password) < 6 ==> r == Some(PasswordTooShort))
    ensures BusinessNamesValid(f) && isEmail(f.email) && Utf16Length(f.password) >= 6 ==>
      && (Utf16Length(f.phone) < 10 ==> r == Some(PhoneTooShort))
      && (Utf16Length(f.phone) >= 10 && Utf16Length(f.location) < 3 ==> r == Some(LocationTooShort))
    ensures BusinessNamesValid(f) && isEmail(f.email) && Utf16Length(f.password) >= 6 &&
            Utf16Length(f.phone) >= 10 && Utf16Length(f.location) >= 3 ==>
      && (!IsGstNumber(f.gstNumber) ==> r == Some(InvalidGst))
      && (IsGstNumber(f.gstNumber) && Utf16Length(f.aadharNumber) != 12 ==> r == Some(AadharLength))
  {
    if Utf16Length(f.businessName) < 2 then Some(BusinessNameTooShort)
    else if Utf16Length(f.businessName) > 100 then Some(BusinessNameTooLong)
    else if Utf16Length(f.contactPerson) < 2 then Some(ContactTooShort)
    else if Utf16Length(f.contactPerson) > 100 then Some(ContactTooLong)
    else if !isEmail(f.email) then Some(InvalidEmail)
    else if Utf16Length(f.password) < 6 then Some(PasswordTooShort)
    else if Utf16Length(f.phone) < 10 then Some(PhoneTooShort)
    else if Utf16Length(f.location) < 3 then Some(LocationTooShort)
    else if !IsGstNumber(f.gstNumber) then Some(InvalidGst)
    else if Utf16Length(f.aadharNumber) != 12 then Some(AadharLength)
    else None
  }

  // ---------------------------------------------------------------------------
  // GSTIN shape: ^[0-9]{2}[A-Z]{5}[0-9]{4}[A-Z]{1}[1-9A-Z]{1}Z[0-9A-Z]{1}$
  // ---------------------------------------------------------------------------

  datatype CharClass = Digit | Upper | NonZeroDigitOrUpper | DigitOrUpper | Exactly(c: char)

  predicate InClass(c: char, k: CharClass) {
    match k
    case Digit => IsDigit(c)
    case Upper => IsUpper(c)
    case NonZeroDigitOrUpper => ('1' <= c <= '9') || IsUpper(c)
    case DigitOrUpper => IsDigit(c) || IsUpper(c)
    case Exactly(d) => c == d
  }

  /** A regular-expression item `[class]{count}`. */
  datatype Item = Repeat(cls: CharClass, count: nat)

  const GstPattern: seq<Item> := [
    Repeat(Digit, 2), Repeat(Upper, 5), Repeat(Digit, 4), Repeat(Upper, 1),
    Repeat(NonZeroDigitOrUpper, 1), Repeat(Exactly('Z'), 1), Repeat(DigitOrUpper, 1)]

  /** s matches the anchored pattern p item by item. */
  predicate MatchesPattern(s: string, p: seq<Item>)
    decreases |p|
  {
    if p == [] then s == []
    else
      && |s| >= p[0].count
      && (forall i :: 0 <= i < p[0].count ==> InClass(s[i], p[0].cls))
      && MatchesPattern(s[p[0].count..], p[1..])
  }

  predicate IsGstNumber(s: string) {
    MatchesPattern(s, GstPattern)
  }

  /** The GST rule position by position: 15 characters, two digits, five
      capitals, four digits, a capital, a non-zero digit or capital, the
      letter Z, and a digit or capital. */
  lemma GstByPosition(s: string)
    ensures IsGstNumber(s) <==>
      && |s| == 15
      && IsDigit(s[0]) && IsDigit(s[1])
      && (forall i :: 2 <= i < 7 ==> IsUpper(s[i]))
      && (forall i :: 7 <= i < 11 ==> IsDigit(s[i]))
      && IsUpper(s[11])
      && (('1' <= s[12] <= '9') || IsUpper(s[12]))
      && s[13] == 'Z'
      && (IsDigit(s[14]) || IsUpper(s[14]))
  {
    var p := GstPattern;
    if |s| == 15 {
      var s1, s2, s3, s4, s5, s6 := s[2..], s[7..], s[11..], s[12..], s[13..], s[14..];
      assert s1[5..] == s2 && s2[4..] == s3 && s3[1..] == s4 && s4[1..] == s5 && s5[1..] == s6;
      assert s6[1..] == [];
      assert forall i :: 0 <= i < 5 ==> s1[i] == s[i + 2];
      assert forall i :: 0 <= i < 4 ==> s2[i] == s[i + 7];
      assert MatchesPattern(s6, p[6..]) <==> DigitOrUpperAt(s, 14) by {
        assert p[6..][1..] == [];
      }
      assert MatchesPattern(s5, p[5..]) <==> s[13] == 'Z' && DigitOrUpperAt(s, 14) by {
        assert p[5..][1..] == p[6..];
      }
      assert MatchesPattern(s4, p[4..]) <==> NonZeroOrUpperAt(s, 12) && s[13] == 'Z' && DigitOrUpperAt(s, 14) by {
        assert p[4..][1..] == p[5..];
      }
      assert MatchesPattern(s3, p[3..]) <==> IsUpper(s[11]) && MatchesPattern(s4, p[4..]) by {
        assert p[3..][1..] == p[4..];
      }
      assert MatchesPattern(s2, p[2..]) <==> (forall i :: 7 <= i < 11 ==> IsDigit(s[i])) && MatchesPattern(s3, p[3..]) by {
        assert p[2..][1..] == p[3..];
      }
      assert MatchesPattern(s1, p[1..]) <==> (forall i :: 2 <= i < 7 ==> IsUpper(s[i])) && MatchesPattern(s2, p[2..]) by {
        assert p[1..][1..] == p[2..];
      }
      assert MatchesPattern(s, p) <==> IsDigit(s[0]) && IsDigit(s[1]) && MatchesPattern(s1, p[1..]);
    } else if IsGstNumber(s) {
      GstLength(s);
    }
  }

  predicate DigitOrUpperAt(s: string, i: nat) { i < |s| && (IsDigit(s[i]) || IsUpper(s[i])) }

  predicate NonZeroOrUpperAt(s: string, i: nat) { i < |s| && (('1' <= s[i] <= '9') || IsUpper(s[i])) }

  /** Total length a pattern demands. */
  function PatternLength(p: seq<Item>): nat {
    if p == [] then 0 else p[0].count + PatternLength(p[1..])
  }

  lemma {:induction false} MatchLength(s: string, p: seq<Item>)
    requires MatchesPattern(s, p)
    ensures |s| == PatternLength(p)
    decreases |p|
  {
    if p != [] {
      MatchLength(s[p[0].count..], p[1..]);
    }
  }

  lemma GstLength(s: string)
    requires IsGstNumber(s)
    ensures |s| == 15
  {
    MatchLength(s, GstPattern);
    assert PatternLength(GstPattern[6..]) == 1;
    assert PatternLength(GstPattern[5..]) == 2;
    assert PatternLength(GstPattern[4..]) == 3;
    assert PatternLength(GstPattern[3..]) == 4;
    assert PatternLength(GstPattern[2..]) == 8;
    assert PatternLength(GstPattern[1..]) == 13;
  }

  /** The form's placeholder is a well-formed GST number. */
  lemma GstPlaceholder()
    ensures IsGstNumber("22AAAAA0000A1Z5")
  {
    var good := "22AAAAA0000A1Z5";
    GstByPosition(good);
    assert forall i :: 2 <= i < 7 ==> good[i] == 'A';
    assert forall i :: 7 <= i < 11 ==> good[i] == '0';
  }

  /** The placeholder in lower case is not: the pattern has no lower-case class. */
  lemma LowerCaseGstRejected()
    ensures !IsGstNumber("22aaaaa0000a1z5")
  {
    var bad := "22aaaaa0000a1z5";
    GstByPosition(bad);
    assert bad[2] == 'a';
  }

  // ---------------------------------------------------------------------------
  // Aadhaar sanitiser: value.replace(/\D/g, '')
  // ---------------------------------------------------------------------------

  function SanitiseDigits(s: string): (r: string)
    ensures AllDigits(r)
    ensures |r| <= |s|
    ensures forall c | c in s && IsDigit(c) :: c in r
  {
    Filter(s, IsDigit)
  }

  /** The sanitiser keeps the digits in their original order. */
  lemma SanitiseKeepsOrder(s: string)
    ensures IsSubsequence(SanitiseDigits(s), s)
  {
    FilterIsSubsequence(s, IsDigit);
  }

  /** The sanitiser drops every non-digit and keeps each digit as often as
      it was typed. */
  lemma SanitiseKeepsEveryDigit(s: string, c: char)
    ensures multiset(SanitiseDigits(s))[c] == if IsDigit(c) then multiset(s)[c] else 0
  {
    FilterCounts(s, IsDigit, c);
  }

  /** Digits pass unchanged, so sanitising twice is sanitising once. */
  lemma SanitiseIdempotent(s: string)
    ensures SanitiseDigits(SanitiseDigits(s)) == SanitiseDigits(s)
  {
    FilterAll(SanitiseDigits(s), IsDigit);
  }

  /** A sanitised value that passes the schema is exactly twelve digits. */
  lemma AcceptedAadharIsTwelveDigits(f: SignupForm, raw: string, isEmail: string -> bool)
    requires f.aadharNumber == SanitiseDigits(raw)
    requires SignupIssue(f, isEmail).None?
    ensures |f.aadharNumber| == 12 && AllDigits(f.aadharNumber)
  {
  }

  // ---------------------------------------------------------------------------
  // Mode from the query string
  // ---------------------------------------------------------------------------

  /** The effect on `searchParams`: only the three known values change the mode. */
  function ModeAfterQuery(current: Mode, param: Option<string>): (m: Mode)
    ensures param == Some("login") ==> m == LoginMode
    ensures param == Some("signup") ==> m == SignupMode
    ensures param == Some("business") ==> m == BusinessMode
    ensures param !in {Some("login"), Some("signup"), Some("business")} ==> m == current
  {
    if param == Some("login") then LoginMode
    else if param == Some("signup") then SignupMode
    else if param == Some("business") then BusinessMode
    else current
  }

  // ---------------------------------------------------------------------------
  // Submit handlers
  // ---------------------------------------------------------------------------

  /** The answer to `auth.signUp` / `auth.signInWithPassword`. */
  datatype AuthReply = AuthError | AuthOk(user: Option<UserId>)

  datatype Outcome =
    | Rejected(issue: Issue)      // schema failed: toast, nothing sent
    | IdProofMissing              // scout/coach without a document
    | Failed                      // a backend call returned an error
    | NoUser                      // sign-up answered without a user: nothing more happens
    | Done(user: Option<UserId>)  // signed in, or account created for this user

  /** What a handler sent, in order, and how it ended. */
  datatype Run = Run(sent: seq<Request>, outcome: Outcome)

  /** Errors of the calls after sign-up, in the order they are made. */
  datatype SignupReplies = SignupReplies(auth: AuthReply, uploadFailed: bool, profileFailed: bool, roleFailed: bool)

  datatype BusinessReplies = BusinessReplies(auth: AuthReply, profileFailed: bool, roleFailed: bool, businessFailed: bool)

  function IdProofPath(uid: UserId, file: File): string {
    StoragePath(uid, "id-proof", file)
  }

  /** The `profiles` row of a personal sign-up: empty sport and location are
      stored as null. */
  function SignupProfile(uid: UserId, f: SignupForm, idProofUrl: Option<string>): (row: ProfileRow)
    ensures row.id == uid && row.fullName == f.fullName && row.email == f.email
    ensures row.aadharNumber == f.aadharNumber && row.idProofUrl == idProofUrl
    ensures row.sport.None? <==> f.sport == ""
    ensures row.location.None? <==> f.location == ""
    ensures row.sport.Some? ==> row.sport.value == f.sport
    ensures row.location.Some? ==> row.location.value == f.location
  {
    ProfileRow(uid, f.fullName, f.email,
      if f.sport == "" then None else Some(f.sport),
      if f.location == "" then None else Some(f.location),
      f.aadharNumber, idProofUrl)
  }

  /** The profile and role inserts, once any document upload is over. */
  function ProfileAndRole(uid: UserId, f: SignupForm, url: Option<string>, replies: SignupReplies): (run: Run)
    ensures run.outcome == Failed || run.outcome == Done(Some(uid))
    ensures 1 <= |run.sent| <= 2 && run.sent[0] == InsertProfile(SignupProfile(uid, f, url))
    ensures |run.sent| == 2 <==> !replies.profileFailed
    ensures run.outcome.Done? <==> !replies.profileFailed && !replies.roleFailed
    ensures |run.sent| == 2 ==> run.sent[1] == InsertRole(uid, AsAppRole(f.role))
  {
    var profile := InsertProfile(SignupProfile(uid, f, url));
    if replies.profileFailed then Run([profile], Failed)
    else Run([profile, InsertRole(uid, AsAppRole(f.role))], if replies.roleFailed then Failed else Done(Some(uid)))
  }

  /** The id_proof_url column: the public URL of the uploaded document, or
      null when there was none or its upload failed. */
  function IdProofUrl(uid: UserId, idProof: Option<File>, uploadFailed: bool): (url: Option<string>)
    ensures url.Some? <==> idProof.Some? && !uploadFailed
    ensures url.Some? ==> url.value == PublicUrl("documents", IdProofPath(uid, idProof.value))
  {
    if idProof.Some? && !uploadFailed then Some(PublicUrl("documents", IdProofPath(uid, idProof.value))) else None
  }

  /** The requests of a personal sign-up once the account call returned uid:
      the document upload, whose failure only leaves id_proof_url null, then
      the profile and role inserts. */
  function SignupWrites(uid: UserId, f: SignupForm, idProof: Option<File>, replies: SignupReplies): (run: Run)
    ensures run.outcome == Failed || run.outcome == Done(Some(uid))
    ensures idProof.Some? ==> |run.sent| >= 2 && run.sent[0] == Upload("documents", IdProofPath(uid, idProof.value), false)
    ensures idProof.None? ==> forall k :: 0 <= k < |run.sent| ==> !run.sent[k].Upload?
    ensures run.outcome.Done? <==> !replies.profileFailed && !replies.roleFailed
    ensures run.outcome.Done? ==> |run.sent| >= 2 && run.sent[|run.sent| - 1] == InsertRole(uid, AsAppRole(f.role))
    ensures var p := if idProof.Some? then 1 else 0;
      && (|run.sent| == p + 1 || |run.sent| == p + 2)
      && run.sent[p] == InsertProfile(SignupProfile(uid, f, IdProofUrl(uid, idProof, replies.uploadFailed)))
      && (|run.sent| == p + 2 <==> !replies.profileFailed)
      && (|run.sent| == p + 2 ==> run.sent[p + 1] == InsertRole(uid, AsAppRole(f.role)))
  {
    match idProof
    case None => ProfileAndRole(uid, f, None, replies)
    case Some(file) =>
      var path := IdProofPath(uid, file);
      var url := IdProofUrl(uid, idProof, replies.uploadFailed);
      var rest := ProfileAndRole(uid, f, url, replies);
      Run([Upload("documents", path, false)] + rest.sent, rest.outcome)
  }

  /** `handleSignup` as a function of the form, the chosen document and the
      backend's answers. */
  function SignupRun(f: SignupForm, idProof: Option<File>, replies: SignupReplies, isEmail: string -> bool): (run: Run)
    ensures SignupIssue(f, isEmail).Some? ==> run == Run([], Rejected(SignupIssue(f, isEmail).value))
    ensures SignupIssue(f, isEmail).None? && f.role == ScoutCoachRole && idProof.None? ==> run == Run([], IdProofMissing)
    ensures run.sent != [] <==> SignupIssue(f, isEmail).None? && (f.role == ScoutCoachRole ==> idProof.Some?)
    ensures run.sent != [] ==> run.sent[0] == SignUp(f.email, f.password)
    ensures run.outcome.Done? ==>
      && run.outcome.user.Some?
      && run.sent[|run.sent| - 1] == InsertRole(run.outcome.user.value, AsAppRole(f.role))
    ensures run.outcome.Done? <==>
      && SignupIssue(f, isEmail).None? && (f.role == ScoutCoachRole ==> idProof.Some?)
      && replies.auth.AuthOk? && replies.auth.user.Some?
      && !replies.profileFailed && !replies.roleFailed
    ensures replies.auth.AuthOk? && replies.auth.user.Some? && run.sent != [] ==>
      run.sent == [SignUp(f.email, f.password)] + SignupWrites(replies.auth.user.value, f, idProof, replies).sent
  {
    var issue := SignupIssue(f, isEmail);
    if issue.Some? then Run([], Rejected(issue.value))
    else if f.role == ScoutCoachRole && idProof.None? then Run([], IdProofMissing)
    else SignupAccount(f, idProof, replies)
  }

  /** `handleSignup` once the form passed: the account call, then, for a
      returned user, the writes of SignupWrites. */
  function SignupAccount(f: SignupForm, idProof: Option<File>, replies: SignupReplies): (run: Run)
    ensures run.sent != [] && run.sent[0] == SignUp(f.email, f.password)
    ensures run.outcome.Done? <==>
      replies.auth.AuthOk? && replies.auth.user.Some? && !replies.profileFailed && !replies.roleFailed
    ensures run.outcome.Done? ==>
      && run.outcome.user.Some?
      && run.sent[|run.sent| - 1] == InsertRole(run.outcome.user.value, AsAppRole(f.role))
    ensures replies.auth.AuthOk? && replies.auth.user.Some? ==>
      run.sent == [SignUp(f.email, f.password)] + SignupWrites(replies.auth.user.value, f, idProof, replies).sent
  {
    var signUp := [SignUp(f.email, f.password)];
    match replies.auth
    case AuthError => Run(signUp, Failed)
    case AuthOk(None) => Run(signUp, NoUser)
    case AuthOk(Some(uid)) =>
      var rest := SignupWrites(uid, f, idProof, replies);
      assert rest.outcome.Done? ==> (signUp + rest.sent)[|signUp + rest.sent| - 1] == rest.sent[|rest.sent| - 1];
      Run(signUp + rest.sent, rest.outcome)
  }

  /** The `profiles` row of a business sign-up: the contact person is the
      profile's name. */
  function BusinessProfile(uid: UserId, f: BusinessForm): (row: ProfileRow)
    ensures row.id == uid && row.fullName == f.contactPerson && row.email == f.email
    ensures row.sport.None? && row.location == Some(f.location)
    ensures row.aadharNumber == f.aadharNumber && row.idProofUrl.None?
  {
    ProfileRow(uid, f.contactPerson, f.email, None, Some(f.location), f.aadharNumber, None)
  }

  function BusinessRecord(uid: UserId, f: BusinessForm): BusinessRow {
    BusinessRow(uid, f.businessName, f.businessType, f.contactPerson, f.phone, f.location, f.gstNumber)
  }

  /** The three inserts of a business sign-up, in order. */
  function BusinessInserts(uid: UserId, f: BusinessForm): seq<Request> {
    [InsertProfile(BusinessProfile(uid, f)), InsertRole(uid, Business), InsertBusiness(BusinessRecord(uid, f))]
  }

  /** The inserts after a business account was created: each one only if
      every earlier one succeeded. */
  function BusinessWrites(uid: UserId, f: BusinessForm, replies: BusinessReplies): (run: Run)
    ensures run.sent <= BusinessInserts(uid, f) && run.sent != []
    ensures |run.sent| >= 2 <==> !replies.profileFailed
    ensures |run.sent| == 3 <==> !replies.profileFailed && !replies.roleFailed
    ensures run.outcome.Done? <==> !replies.profileFailed && !replies.roleFailed && !replies.businessFailed
    ensures run.outcome == Failed || run.outcome == Done(Some(uid))
  {
    var inserts := BusinessInserts(uid, f);
    if replies.profileFailed then Run(inserts[..1], Failed)
    else if replies.roleFailed then Run(inserts[..2], Failed)
    else Run(inserts, if replies.businessFailed then Failed else Done(Some(uid)))
  }

  /** `handleBusinessSignup` as a function of the form and the answers. */
  function BusinessRun(f: BusinessForm, replies: BusinessReplies, isEmail: string -> bool): (run: Run)
    ensures BusinessIssue(f, isEmail).Some? ==> run == Run([], Rejected(BusinessIssue(f, isEmail).value))
    ensures run.sent != [] <==> BusinessIssue(f, isEmail).None?
    ensures run.sent != [] ==> run.sent[0] == SignUp(f.email, f.password)
    ensures forall r | r in run.sent && r.InsertRole? :: r.role == Business
    ensures forall r | r in run.sent && r.InsertProfile? :: r.profile.fullName == f.contactPerson
    ensures run.outcome.Done? <==>
      && BusinessIssue(f, isEmail).None? && replies.auth.AuthOk? && replies.auth.user.Some?
      && !replies.profileFailed && !replies.roleFailed && !replies.businessFailed
    ensures run.outcome.Done? ==>
      && run.outcome.user.Some?
      && run.sent == [SignUp(f.email, f.password)] + BusinessInserts(run.outcome.user.value, f)
  {
    var issue := BusinessIssue(f, isEmail);
    if issue.Some? then Run([], Rejected(issue.value))
    else
      var signUp := [SignUp(f.email, f.password)];
      match replies.auth
      case AuthError => Run(signUp, Failed)
      case AuthOk(None) => Run(signUp, NoUser)
      case AuthOk(Some(uid)) =>
        var rest := BusinessWrites(uid, f, replies);
        assert forall k :: 0 <= k < |rest.sent| ==> rest.sent[k] in BusinessInserts(uid, f);
        Run(signUp + rest.sent, rest.outcome)
  }

  /** `handleLogin` as a function of the form and the answer. */
  function LoginRun(f: LoginForm, reply: AuthReply, isEmail: string -> bool): (run: Run)
    ensures run.sent != [] <==> LoginIssue(f, isEmail).None?
    ensures run.sent != [] ==> run.sent == [SignIn(f.email, f.password)]
    ensures run.outcome.Done? <==> LoginIssue(f, isEmail).None? && reply.AuthOk?
  {
    var issue := LoginIssue(f, isEmail);
    if issue.Some? then Run([], Rejected(issue.value))
    else if reply.AuthError? then Run([SignIn(f.email, f.password)], Failed)
    else Run([SignIn(f.email, f.password)], Done(reply.user))
  }

  /** The page's own state: the tab shown and the busy flag of the buttons. */
  class AuthPage {
    var mode: Mode
    var loading: bool

    constructor ()
      ensures mode == LoginMode && !loading
    {
      mode := LoginMode;
      loading := false;
    }

    /** The effect run whenever the query string changes. */
    method OnQueryChange(param: Option<string>)
      modifies this`mode
      ensures mode == ModeAfterQuery(old(mode), param)
    {
      if param == Some("login") {
        mode := LoginMode;
      } else if param == Some("signup") {
        mode := SignupMode;
      } else if param == Some("business") {
        mode := BusinessMode;
      }
    }

    method HandleLogin(f: LoginForm, reply: AuthReply, isEmail: string -> bool) returns (sent: seq<Request>, outcome: Outcome)
      modifies this`loading
      ensures Run(sent, outcome) == LoginRun(f, reply, isEmail)
      ensures !loading
    {
      sent := [];
      var issue := LoginIssue(f, isEmail);
      if issue.Some? {
        outcome := Rejected(issue.value);
        loading := false;
        return;
      }
      loading := true;
      sent := sent + [SignIn(f.email, f.password)];
      if reply.AuthError? {
        outcome := Failed;
      } else {
        outcome := Done(reply.user);
      }
      loading := false;
    }

    method HandleSignup(f: SignupForm, idProof: Option<File>, replies: SignupReplies, isEmail: string -> bool)
      returns (sent: seq<Request>, outcome: Outcome)
      modifies this`loading
      ensures Run(sent, outcome) == SignupRun(f, idProof, replies, isEmail)
      ensures !loading
    {
      sent := [];
      var issue := SignupIssue(f, isEmail);
      if issue.Some? {
        outcome := Rejected(issue.value);
      } else if f.role == ScoutCoachRole && idProof.None? {
        outcome := IdProofMissing;
      } else {
        loading := true;
        sent := [SignUp(f.email, f.password)];
        match replies.auth
        case AuthError =>
          outcome := Failed;
        case AuthOk(None) =>
          outcome := NoUser;
        case AuthOk(Some(uid)) =>
          var writes, last := SendSignupRows(uid, f, idProof, replies);
          sent := sent + writes;
          outcome := last;
      }
      loading := false;
    }

    /** The part of `handleSignup` after the account exists: the optional
        document upload, then the profile and role inserts. */
    method SendSignupRows(uid: UserId, f: SignupForm, idProof: Option<File>, replies: SignupReplies)
      returns (sent: seq<Request>, outcome: Outcome)
      ensures Run(sent, outcome) == SignupWrites(uid, f, idProof, replies)
    {
      var idProofUrl: Option<string> := None;
      sent := [];
      if idProof.Some? {
        var path := IdProofPath(uid, idProof.value);
        sent := [Upload("documents", path, false)];
        if !replies.uploadFailed {
          idProofUrl := Some(PublicUrl("documents", path));
        }
      }
      var profile := InsertProfile(SignupProfile(uid, f, idProofUrl));
      if replies.profileFailed {
        sent := sent + [profile];
        outcome := Failed;
      } else {
        sent := sent + [profile, InsertRole(uid, AsAppRole(f.role))];
        outcome := if replies.roleFailed then Failed else Done(Some(uid));
      }
    }

    method HandleBusinessSignup(f: BusinessForm, replies: BusinessReplies, isEmail: string -> bool)
      returns (sent: seq<Request>, outcome: Outcome)
      modifies this`loading
      ensures Run(sent, outcome) == BusinessRun(f, replies, isEmail)
      ensures !loading
    {
      sent := [];
      var issue := BusinessIssue(f, isEmail);
      if issue.Some? {
        outcome := Rejected(issue.value);
      } else {
        loading := true;
        sent := [SignUp(f.email, f.password)];
        match replies.auth
        case AuthError =>
          outcome := Failed;
        case AuthOk(None) =>
          outcome := NoUser;
        case AuthOk(Some(uid)) =>
          var writes, last := SendBusinessRows(uid, f, replies);
          sent := sent + writes;
          outcome := last;
      }
      loading := false;
    }

    /** The part of `handleBusinessSignup` after the account exists: the
        profile, role and business inserts, stopping at the first error. */
    method SendBusinessRows(uid: UserId, f: BusinessForm, replies: BusinessReplies)
      returns (sent: seq<Request>, outcome: Outcome)
      ensures Run(sent, outcome) == BusinessWrites(uid, f, replies)
    {
      sent := [InsertProfile(BusinessProfile(uid, f))];
      outcome := Failed;
      if !replies.profileFailed {
        sent := sent + [InsertRole(uid, Business)];
        if !replies.roleFailed {
          sent := sent + [InsertBusiness(BusinessRecord(uid, f))];
          if !replies.businessFailed {
            outcome := Done(Some(uid));
          }
        }
      }
    }
  }
}
