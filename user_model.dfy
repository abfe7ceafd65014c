/** The user document of the backend: its seven game statistics with their
    summary, and the normalisation and validation of its three fields. */
module UserModel {
  import opened Wrappers
  import Gesture

  /** The per-user statistics kept on the user document. */
  datatype Stats = Stats(
    racingHighScore: int, racingGamesPlayed: nat, racingTotalScore: int,
    slapHighScore: int, slapGamesPlayed: nat, slapTotalSlaps: int, slapMaxSpeed: real)

  /** Every statistic defaults to 0. */
  const DefaultStats := Stats(0, 0, 0, 0, 0, 0, 0.0)

  datatype RacingSummary = RacingSummary(highScore: int, gamesPlayed: nat, averageScore: int)
  datatype SlapSummary = SlapSummary(highScore: int, gamesPlayed: nat, totalSlaps: int, maxSpeed: real)
  datatype Summary = Summary(racing: RacingSummary, slap: SlapSummary)

  /** `getStatsSummary`: the figures are copied, and the racing average is the
      total divided by the games, rounded half up, or 0 before any game. */
  function StatsSummary(st: Stats): (r: Summary)
    ensures r.racing.highScore == st.racingHighScore && r.racing.gamesPlayed == st.racingGamesPlayed
    ensures r.slap == SlapSummary(st.slapHighScore, st.slapGamesPlayed, st.slapTotalSlaps, st.slapMaxSpeed)
    ensures st.racingGamesPlayed == 0 ==> r.racing.averageScore == 0
    ensures st.racingGamesPlayed > 0 ==>
      var mean := st.racingTotalScore as real / st.racingGamesPlayed as real;
      r.racing.averageScore as real - 0.5 <= mean < r.racing.averageScore as real + 0.5
  {
    var average :=
      if st.racingGamesPlayed > 0
      then Gesture.Round(st.racingTotalScore as real / st.racingGamesPlayed as real)
      else 0;
    Summary(
      RacingSummary(st.racingHighScore, st.racingGamesPlayed, average),
      SlapSummary(st.slapHighScore, st.slapGamesPlayed, st.slapTotalSlaps, st.slapMaxSpeed))
  }

  /** No racing game scored below 0 or above the high score: the total lies
      between 0 and games times the high score. */
  ghost predicate RacingCoherent(st: Stats) {
    0 <= st.racingHighScore && 0 <= st.racingTotalScore <= st.racingGamesPlayed * st.racingHighScore
  }

  /** With coherent racing figures the average lies between 0 and the high score. */
  lemma AverageWithinHighScore(st: Stats)
    requires RacingCoherent(st)
    ensures 0 <= StatsSummary(st).racing.averageScore <= st.racingHighScore
  {
    if st.racingGamesPlayed > 0 {
      var g := st.racingGamesPlayed as real;
      var mean := st.racingTotalScore as real / g;
      assert st.racingTotalScore as real <= g * st.racingHighScore as real;
      assert mean * g == st.racingTotalScore as real;
      assert mean <= st.racingHighScore as real;
      assert 0.0 <= mean;
    }
  }

  // ----- strings -----

  /** The characters JavaScript treats as white space (`\s`, and what `trim`
      removes): the ASCII controls TAB to CR, SPACE, NO-BREAK SPACE, the
      Unicode space separators, LINE and PARAGRAPH SEPARATOR and the BOM. */
  predicate IsSpace(c: char) {
    || ('\t' <= c <= '\r') || c == ' ' || c == '\U{00A0}' || c == '\U{1680}'
    || ('\U{2000}' <= c <= '\U{200A}') || c == '\U{2028}' || c == '\U{2029}'
    || c == '\U{202F}' || c == '\U{205F}' || c == '\U{3000}' || c == '\U{FEFF}'
  }

  /** The string without its leading white space. */
  function TrimStart(s: string): (r: string)
    ensures |r| <= |s| && r == s[|s| - |r|..]
    ensures r == [] || !IsSpace(r[0])
    ensures forall k :: 0 <= k < |s| - |r| ==> IsSpace(s[k])
  {
    if s != [] && IsSpace(s[0]) then TrimStart(s[1..]) else s
  }

  /** The string without its trailing white space. */
  function TrimEnd(s: string): (r: string)
    ensures |r| <= |s| && r == s[..|r|]
    ensures r == [] || !IsSpace(r[|r| - 1])
    ensures forall k :: |r| <= k < |s| ==> IsSpace(s[k])
  {
    if s != [] && IsSpace(s[|s| - 1]) then TrimEnd(s[..|s| - 1]) else s
  }

  /** `String.prototype.trim`. */
  function Trim(s: string): (r: string)
    ensures r == [] || (!IsSpace(r[0]) && !IsSpace(r[|r| - 1]))
    ensures |r| <= |s|
  {
    TrimEnd(TrimStart(s))
  }

  /** Trimming twice changes nothing more. */
  lemma TrimIdempotent(s: string)
    ensures Trim(Trim(s)) == Trim(s)
  {
    var t := Trim(s);
    if t != [] {
      assert TrimStart(t) == t;
      assert TrimEnd(t) == t;
    }
  }

  /** Lower-casing of the ASCII capitals (other scripts are not modelled). */
  function Lower(s: string): (r: string)
    ensures |r| == |s|
    ensures forall k :: 0 <= k < |s| ==> r[k] == if 'A' <= s[k] <= 'Z' then (s[k] as int + 32) as char else s[k]
  {
    seq(|s|, k requires 0 <= k < |s| => if 'A' <= s[k] <= 'Z' then (s[k] as int + 32) as char else s[k])
  }

  // ----- the e-mail pattern ^\S+@\S+\.\S+$ -----

  predicate NoSpace(s: string) {
    forall k :: 0 <= k < |s| ==> !IsSpace(s[k])
  }

  /** The pattern as a description: no white space anywhere, and an '@' and a
      later '.' splitting the string into three non-empty parts. */
  ghost predicate EmailPattern(s: string) {
    NoSpace(s) &&
    exists i, j :: 1 <= i && i + 2 <= j <= |s| - 2 && s[i] == '@' && s[j] == '.'
  }

  /** The index of the first `c` in `s`, or |s| when there is none. */
  function FirstIndex(s: string, c: char): (i: nat)
    ensures i <= |s| && (i < |s| ==> s[i] == c)
    ensures forall k :: 0 <= k < i ==> s[k] != c
  {
    if s == [] then 0
    else if s[0] == c then 0
    else 1 + FirstIndex(s[1..], c)
  }

  /** The index of the last `c` in `s`, or -1 when there is none. */
  function LastIndex(s: string, c: char): (i: int)
    ensures -1 <= i < |s| && (0 <= i ==> s[i] == c)
    ensures forall k :: i < k < |s| ==> s[k] != c
  {
    if s == [] then -1
    else if s[|s| - 1] == c then |s| - 1
    else LastIndex(s[..|s| - 1], c)
  }

  /** A recogniser for the pattern: the first '@' after the first character
      and the last '.' before the last character leave a non-empty part
      before, between and after them. */
  predicate MatchesEmail(s: string) {
    && NoSpace(s)
    && |s| >= 1
    && var i := 1 + FirstIndex(s[1..], '@');
       var j := LastIndex(s[..|s| - 1], '.');
       i < |s| && i + 2 <= j <= |s| - 2
  }

  /** The recogniser accepts exactly the strings of the pattern. */
  lemma MatchesEmailIsPattern(s: string)
    ensures MatchesEmail(s) <==> EmailPattern(s)
  {
    if MatchesEmail(s) {
      var i := 1 + FirstIndex(s[1..], '@');
      assert s[i] == s[1..][i - 1];
      var j := LastIndex(s[..|s| - 1], '.');
      assert s[j] == s[..|s| - 1][j];
      assert 1 <= i && i + 2 <= j <= |s| - 2 && s[i] == '@' && s[j] == '.';
    }
    if EmailPattern(s) {
      var i, j :| 1 <= i && i + 2 <= j <= |s| - 2 && s[i] == '@' && s[j] == '.';
      var fi := 1 + FirstIndex(s[1..], '@');
      assert s[1..][i - 1] == '@';
      assert fi <= i;
      assert s[..|s| - 1][j] == '.';
      assert j <= LastIndex(s[..|s| - 1], '.');
    }
  }

  // ----- the schema of the three fields -----

  const UsernameRequired := "Username is required"
  const UsernameTooShort := "Username must be at least 3 characters"
  const UsernameTooLong := "Username cannot exceed 20 characters"
  const EmailRequired := "Email is required"
  const EmailInvalid := "Please enter a valid email"
  const PasswordRequired := "Password is required"
  const PasswordTooShort := "Password must be at least 6 characters"

  /** The username is trimmed, then required and 3 to 20 characters long;
      the first failing rule gives the error. */
  function CheckUsername(raw: Option<string>): (r: Result<string>)
    ensures raw == None ==> r == Err(UsernameRequired)
    ensures raw.Some? ==>
      var t := Trim(raw.value);
      && (r.Ok? <==> 3 <= |t| <= 20)
      && (r.Ok? ==> r.value == t)
      && (t == [] ==> r == Err(UsernameRequired))
      && (0 < |t| < 3 ==> r == Err(UsernameTooShort))
      && (|t| > 20 ==> r == Err(UsernameTooLong))
  {
    match raw
    case None => Err(UsernameRequired)
    case Some(v) =>
      var t := Trim(v);
      if t == [] then Err(UsernameRequired)
      else if |t| < 3 then Err(UsernameTooShort)
      else if |t| > 20 then Err(UsernameTooLong)
      else Ok(t)
  }

  /** The e-mail is trimmed and lower-cased, then required and matched
      against the pattern. */
  function CheckEmail(raw: Option<string>): (r: Result<string>)
    ensures raw == None ==> r == Err(EmailRequired)
    ensures raw.Some? ==>
      var t := Lower(Trim(raw.value));
      && (r.Ok? <==> EmailPattern(t))
      && (r.Ok? ==> r.value == t)
      && (t == [] ==> r == Err(EmailRequired))
      && (t != [] && !EmailPattern(t) ==> r == Err(EmailInvalid))
  {
    match raw
    case None => Err(EmailRequired)
    case Some(v) =>
      var t := Lower(Trim(v));
      MatchesEmailIsPattern(t);
      if t == [] then Err(EmailRequired)
      else if !MatchesEmail(t) then Err(EmailInvalid)
      else Ok(t)
  }

  /** The password is not trimmed; it is required and at least 6 characters. */
  function CheckPassword(raw: Option<string>): (r: Result<string>)
    ensures r.Ok? <==> raw.Some? && |raw.value| >= 6
    ensures r.Ok? ==> r.value == raw.value
    ensures (raw == None || raw == Some("")) ==> r == Err(PasswordRequired)
    ensures raw.Some? && 0 < |raw.value| < 6 ==> r == Err(PasswordTooShort)
  {
    match raw
    case None => Err(PasswordRequired)
    case Some(v) =>
      if v == [] then Err(PasswordRequired)
      else if |v| < 6 then Err(PasswordTooShort)
      else Ok(v)
  }

  /** A new user's fields as stored, with default statistics. */
  datatype NewUser = NewUser(username: string, email: string, password: string, stats: Stats)

  /** The outcome of validating a user document: the stored fields, or the
      error of each failing field. */
  datatype UserCheck = Accepted(user: NewUser) | Rejected(errors: seq<string>)

  /** The error of a failing check, as a list of zero or one message. */
  function ErrorOf(r: Result<string>): seq<string> {
    if r.Err? then [r.message] else []
  }

  /** Validation of a whole document: every field is checked, and the errors
      are those of the failing fields, in field order. */
  function ValidateUser(username: Option<string>, email: Option<string>, password: Option<string>): (r: UserCheck)
    ensures r.Accepted? <==> CheckUsername(username).Ok? && CheckEmail(email).Ok? && CheckPassword(password).Ok?
    ensures r.Accepted? ==> r.user == NewUser(CheckUsername(username).value, CheckEmail(email).value, password.value, DefaultStats)
    ensures r.Rejected? ==>
      && r.errors != []
      && r.errors == ErrorOf(CheckUsername(username)) + ErrorOf(CheckEmail(email)) + ErrorOf(CheckPassword(password))
  {
    var u, e, p := CheckUsername(username), CheckEmail(email), CheckPassword(password);
    if u.Ok? && e.Ok? && p.Ok? then Accepted(NewUser(u.value, e.value, p.value, DefaultStats))
    else Rejected(ErrorOf(u) + ErrorOf(e) + ErrorOf(p))
  }
}
