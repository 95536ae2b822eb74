/** The data-access layer of the habit client: habit records, the comparator
    builder for a (key, direction) sort order, the average score, and the three
    authenticated calls against the habit service, modelled as a pure request
    builder plus the mapping from a response to the call's outcome. */
module HabitsApi {
  import opened Wrappers

  /** The credentials signal's payload: a user id and an API token. */
  datatype Credentials = Credentials(userId: string, token: string)

  /** A habit as the service returns it; `value` and `priority` are JS numbers. */
  datatype Habit = Habit(
    id: string,
    text: string,
    notes: string,
    value: real,
    priority: real,
    up: bool,
    down: bool,
    counterUp: int,
    counterDown: int,
    frequency: string,
    attribute: string)

  /** The profile fields the client asks for. */
  datatype UserData = UserData(id: string, profileName: string)

  datatype SortKey = ByPriority | ByValue
  datatype SortDirection = Asc | Desc
  datatype SortOrder = SortOrder(key: SortKey, dir: SortDirection)

  // ---------------------------------------------------------------------------
  // Comparator
  // ---------------------------------------------------------------------------

  /** JavaScript's `x || y` on numbers: `x` unless it is zero, then `y`. */
  function Or(x: real, y: real): real
  {
    if x != 0.0 then x else y
  }

  /** The comparator `compareHabits(order)(a, b)`: negative when `a` sorts
      before `b`, positive when after, zero when neither. */
  function Compare(order: SortOrder, a: Habit, b: Habit): (r: real)
    ensures Sign(r) == LexCompare(Key(order, a), Key(order, b))
  {
    var byValue := a.value - b.value;
    var byPriority := b.priority - a.priority;
    var primary :=
      if order.key == ByValue then
        (if order.dir == Asc then byValue else -byValue)
      else
        (if order.dir == Asc then byPriority else -byPriority);
    var secondary := if order.key == ByValue then 0.0 else byValue;
    Or(primary, secondary)
  }

  /** The sign of a real, as -1, 0 or 1. */
  function Sign(x: real): int
  {
    if x < 0.0 then -1 else if x > 0.0 then 1 else 0
  }

  /** Reference definition of the order: each habit has a two-part key, the
      direction-adjusted primary key and an ascending tie-break. */
  function Key(order: SortOrder, h: Habit): (real, real)
  {
    match order.key
    case ByValue => (if order.dir == Asc then h.value else -h.value, 0.0)
    case ByPriority => (if order.dir == Asc then -h.priority else h.priority, h.value)
  }

  /** Lexicographic three-way comparison of key pairs. */
  function LexCompare(x: (real, real), y: (real, real)): int
  {
    if x.0 < y.0 then -1
    else if x.0 > y.0 then 1
    else Sign(x.1 - y.1)
  }

  /** Ordering by ascending value is the plain value difference: priority is
      never consulted. */
  lemma ValueAscIsDifference(a: Habit, b: Habit)
    ensures Compare(SortOrder(ByValue, Asc), a, b) == a.value - b.value
  {
  }

  /** Descending value negates ascending value, and equal values compare
      equal whatever the priorities: there is no tie-break. */
  lemma ValueDescNegatesAsc(a: Habit, b: Habit)
    ensures Compare(SortOrder(ByValue, Desc), a, b) == -Compare(SortOrder(ByValue, Asc), a, b)
    ensures a.value == b.value ==> Compare(SortOrder(ByValue, Desc), a, b) == 0.0
  {
  }

  /** Under ascending priority a strictly higher priority sorts first;
      descending priority reverses that. */
  lemma HigherPriorityFirst(a: Habit, b: Habit)
    requires a.priority > b.priority
    ensures Compare(SortOrder(ByPriority, Asc), a, b) < 0.0
    ensures Compare(SortOrder(ByPriority, Desc), a, b) > 0.0
  {
  }

  /** Equal priorities fall back to ascending value, whatever the direction. */
  lemma PriorityTieBreakIgnoresDirection(dir: SortDirection, a: Habit, b: Habit)
    requires a.priority == b.priority
    ensures Compare(SortOrder(ByPriority, dir), a, b) == a.value - b.value
  {
  }

  /** Swapping the arguments negates the comparison; a habit compares equal
      to itself. */
  lemma CompareAntisymmetric(order: SortOrder, a: Habit, b: Habit)
    ensures Compare(order, a, b) == -Compare(order, b, a)
    ensures Compare(order, a, a) == 0.0
  {
  }

  /** "Sorts no later than" is transitive and total. */
  lemma CompareTransitive(order: SortOrder, a: Habit, b: Habit, c: Habit)
    ensures Compare(order, a, b) <= 0.0 && Compare(order, b, c) <= 0.0 ==> Compare(order, a, c) <= 0.0
    ensures Compare(order, a, b) <= 0.0 || Compare(order, b, a) <= 0.0
  {
    assert Sign(Compare(order, a, b)) == LexCompare(Key(order, a), Key(order, b));
    assert Sign(Compare(order, b, c)) == LexCompare(Key(order, b), Key(order, c));
    assert Sign(Compare(order, a, c)) == LexCompare(Key(order, a), Key(order, c));
    assert Sign(Compare(order, b, a)) == LexCompare(Key(order, b), Key(order, a));
  }

  // ---------------------------------------------------------------------------
  // Average score
  // ---------------------------------------------------------------------------

  /** Reference sum of the habits' values. */
  function Sum(hs: seq<Habit>): real
  {
    if |hs| == 0 then 0.0 else hs[0].value + Sum(hs[1..])
  }

  /** `habits.reduce((acc, h) => acc + h.value, acc)`: a left fold. */
  function FoldValues(hs: seq<Habit>, acc: real): (r: real)
    ensures r == acc + Sum(hs)
  {
    if |hs| == 0 then acc else FoldValues(hs[1..], acc + hs[0].value)
  }

  /** `calculateAverageScore` before its one-decimal formatting. */
  function AverageScore(hs: seq<Habit>): (r: real)
    requires |hs| > 0
    ensures r * (|hs| as real) == Sum(hs)
  {
    FoldValues(hs, 0.0) / (|hs| as real)
  }

  /** Values bounded by lo and hi bound the sum by n*lo and n*hi. */
  lemma {:induction false} SumBounds(hs: seq<Habit>, lo: real, hi: real)
    requires forall i :: 0 <= i < |hs| ==> lo <= hs[i].value <= hi
    ensures (|hs| as real) * lo <= Sum(hs) <= (|hs| as real) * hi
  {
    if |hs| > 0 {
      SumBounds(hs[1..], lo, hi);
      assert lo <= hs[0].value <= hi;
    }
  }

  /** The average lies between any lower and upper bound of the values. */
  lemma AverageWithinBounds(hs: seq<Habit>, lo: real, hi: real)
    requires |hs| > 0
    requires forall i :: 0 <= i < |hs| ==> lo <= hs[i].value <= hi
    ensures lo <= AverageScore(hs) <= hi
  {
    var n := |hs| as real;
    var r := AverageScore(hs);
    SumBounds(hs, lo, hi);
    assert (r - lo) * n == r * n - n * lo >= 0.0;
    assert (hi - r) * n == n * hi - r * n >= 0.0;
  }

  // ---------------------------------------------------------------------------
  // Requests
  // ---------------------------------------------------------------------------

  datatype ScoreDirection = Up | Down
  datatype HttpMethod = Get | Post

  /** The three calls the client makes. */
  datatype Endpoint = UserProfile | HabitList | Score(taskId: string, direction: ScoreDirection)

  /** What `fetch` is handed: method, URL and headers. */
  datatype Request = Request(verb: HttpMethod, url: string, headers: map<string, string>)

  const BaseUrl: string := "https://habitica.com/api/v3/"
  const UserPath: string := "user?userFields=profile.name"
  const HabitsPath: string := "tasks/user?type=habits"
  const UserHeader: string := "x-api-user"
  const KeyHeader: string := "x-api-key"

  function DirectionName(d: ScoreDirection): string
  {
    match d
    case Up => "up"
    case Down => "down"
  }

  /** The request a call issues, or None when no credentials are signed in:
      the call then returns without touching the network. */
  function BuildRequest(creds: Option<Credentials>, e: Endpoint): (r: Option<Request>)
    ensures r.None? <==> creds.None?
    ensures r.Some? ==> UserHeader in r.value.headers && r.value.headers[UserHeader] == creds.value.userId
    ensures r.Some? ==> KeyHeader in r.value.headers && r.value.headers[KeyHeader] == creds.value.token
    ensures r.Some? ==> r.value.headers.Keys == {UserHeader, KeyHeader}
    ensures r.Some? ==> (r.value.verb == Post <==> e.Score?)
  {
    match creds
    case None => None
    case Some(c) =>
      Some(Request(
        if e.Score? then Post else Get,
        BaseUrl + Path(e),
        map[UserHeader := c.userId, KeyHeader := c.token]))
  }

  // A reader of paths and requests. The source never parses a request; this
  // reader is the inverse of the builder, so that the round trip shows the
  // builder loses nothing.

  const UpSuffix: string := "/score/up"
  const DownSuffix: string := "/score/down"

  predicate EndsWith(s: string, suffix: string)
  {
    |s| >= |suffix| && s[|s| - |suffix|..] == suffix
  }

  /** Recovers the score endpoint from what follows "tasks/": the task id is
      everything before the "/score/up" or "/score/down" suffix. */
  function ParseScorePath(rest: string): Option<Endpoint>
  {
    if EndsWith(rest, UpSuffix) then Some(Score(rest[..|rest| - |UpSuffix|], Up))
    else if EndsWith(rest, DownSuffix) then Some(Score(rest[..|rest| - |DownSuffix|], Down))
    else None
  }

  /** Recovers the endpoint from a path below the base URL. */
  function ParsePath(p: string): Option<Endpoint>
  {
    if p == UserPath then Some(UserProfile)
    else if |p| >= 6 && p[..6] == "tasks/" && ParseScorePath(p[6..]).Some? then ParseScorePath(p[6..])
    else if p == HabitsPath then Some(HabitList)
    else None
  }

  /** Recovers credentials and endpoint from a request, when it is well formed. */
  function ParseRequest(req: Request): Option<(Credentials, Endpoint)>
  {
    if |req.url| >= |BaseUrl| && req.url[..|BaseUrl|] == BaseUrl
       && UserHeader in req.headers && KeyHeader in req.headers
    then
      match ParsePath(req.url[|BaseUrl|..])
      case None => None
      case Some(e) =>
        if (req.verb == Post) == e.Score? then
          Some((Credentials(req.headers[UserHeader], req.headers[KeyHeader]), e))
        else None
    else None
  }

  lemma ParseHabitsPath()
    ensures ParsePath(HabitsPath) == Some(HabitList)
  {
    assert HabitsPath[..6] == "tasks/";
    var rest := HabitsPath[6..];
    assert rest == "user?type=habits";
    assert !EndsWith(rest, UpSuffix) && !EndsWith(rest, DownSuffix);
  }

  lemma ParseScorePathOf(id: string, d: ScoreDirection)
    ensures ParseScorePath(id + "/score/" + DirectionName(d)) == Some(Score(id, d))
  {
    var rest := id + "/score/" + DirectionName(d);
    match d
    case Up =>
      assert rest == id + UpSuffix;
      assert rest[|rest| - |UpSuffix|..] == UpSuffix;
      assert rest[..|rest| - |UpSuffix|] == id;
    case Down =>
      assert rest == id + DownSuffix;
      assert rest[|rest| - |UpSuffix|..] == "core/down";
      assert rest[|rest| - |DownSuffix|..] == DownSuffix;
      assert rest[..|rest| - |DownSuffix|] == id;
  }

  /** The path below the base URL that each call requests. Every path reads
      back as the endpoint it was built from, whatever the task id holds. */
  function Path(e: Endpoint): (p: string)
    ensures ParsePath(p) == Some(e)
  {
    match e
    case UserProfile => UserPath
    case HabitList =>
      ParseHabitsPath();
      HabitsPath
    case Score(taskId, d) =>
      var p := "tasks/" + taskId + "/score/" + DirectionName(d);
      var rest := taskId + "/score/" + DirectionName(d);
      assert p == "tasks/" + rest;
      assert p[0] == 't' != UserPath[0];
      assert p[..6] == "tasks/";
      assert p[6..] == rest;
      ParseScorePathOf(taskId, d);
      p
  }

  /** Distinct endpoints never share a path. */
  lemma PathInjective(e1: Endpoint, e2: Endpoint)
    ensures Path(e1) == Path(e2) ==> e1 == e2
  {
  }

  /** Reading back a built request yields the credentials and the endpoint
      it was built from. */
  lemma RequestRoundTrip(c: Credentials, e: Endpoint)
    ensures BuildRequest(Some(c), e).Some?
    ensures ParseRequest(BuildRequest(Some(c), e).value) == Some((c, e))
  {
    var req := BuildRequest(Some(c), e).value;
    assert req.url[..|BaseUrl|] == BaseUrl;
    assert req.url[|BaseUrl|..] == Path(e);
  }

  // ---------------------------------------------------------------------------
  // Responses and the three calls
  // ---------------------------------------------------------------------------

  /** What `fetch` resolves to: the status, the body as text, and the `data`
      field of the body's JSON envelope. */
  datatype Response<T> = Response(status: int, text: string, data: T)

  /** `Response.ok`: a 2xx status. */
  function IsOk<T>(res: Response<T>): (ok: bool)
    ensures ok <==> res.status / 100 == 2
  {
    200 <= res.status <= 299
  }

  /** How a call ends: returned without a request, threw with the body text,
      or returned the envelope's payload. */
  datatype CallResult<T> = Skipped | Failed(message: string) | Fetched(value: T)

  /** The status check after `await fetch(...)`. */
  function Receive<T>(res: Response<T>): (r: CallResult<T>)
    ensures r.Failed? <==> !IsOk(res)
    ensures r.Failed? ==> r.message == res.text
    ensures r.Fetched? <==> IsOk(res)
    ensures r.Fetched? ==> r.value == res.data
  {
    if IsOk(res) then Fetched(res.data) else Failed(res.text)
  }

  /** One call: build the request, hand it to `fetch`, check the status. */
  function Call<T>(creds: Option<Credentials>, e: Endpoint, fetch: Request -> Response<T>): (r: CallResult<T>)
    ensures creds.None? <==> r.Skipped?
    ensures creds.Some? ==> r == Receive(fetch(BuildRequest(creds, e).value))
  {
    match BuildRequest(creds, e)
    case None => Skipped
    case Some(req) => Receive(fetch(req))
  }

  /** `getUser`. */
  function GetUser(creds: Option<Credentials>, fetch: Request -> Response<UserData>): (r: CallResult<UserData>)
    ensures creds.None? ==> r == Skipped
    ensures creds.Some? ==>
      var req := Request(Get, BaseUrl + UserPath, map[UserHeader := creds.value.userId, KeyHeader := creds.value.token]);
      r == Receive(fetch(req))
  {
    Call(creds, UserProfile, fetch)
  }

  /** `getHabits`. */
  function GetHabits(creds: Option<Credentials>, fetch: Request -> Response<seq<Habit>>): (r: CallResult<seq<Habit>>)
    ensures creds.None? ==> r == Skipped
    ensures creds.Some? ==>
      var req := Request(Get, BaseUrl + HabitsPath, map[UserHeader := creds.value.userId, KeyHeader := creds.value.token]);
      r == Receive(fetch(req))
  {
    Call(creds, HabitList, fetch)
  }

  lemma ScoreUrl(taskId: string, d: ScoreDirection)
    ensures BaseUrl + Path(Score(taskId, d)) == BaseUrl + "tasks/" + taskId + "/score/" + DirectionName(d)
  {
    assert Path(Score(taskId, d)) == "tasks/" + taskId + "/score/" + DirectionName(d);
  }

  /** `scoreTask({taskId, direction})`. */
  function ScoreTask(creds: Option<Credentials>, taskId: string, direction: ScoreDirection,
                     fetch: Request -> Response<Habit>): (r: CallResult<Habit>)
    ensures creds.None? ==> r == Skipped
    ensures creds.Some? ==>
      var req := Request(Post, BaseUrl + "tasks/" + taskId + "/score/" + DirectionName(direction),
                         map[UserHeader := creds.value.userId, KeyHeader := creds.value.token]);
      r == Receive(fetch(req))
  {
    ScoreUrl(taskId, direction);
    Call(creds, Score(taskId, direction), fetch)
  }

  /** Without credentials none of the calls consults `fetch` at all: every
      `fetch` gives the same (skipped) result. */
  lemma NoCredentialsNoRequest<T>(e: Endpoint, f1: Request -> Response<T>, f2: Request -> Response<T>)
    ensures Call(None, e, f1) == Call(None, e, f2) == Skipped
  {
  }

  /** A 401 with body "Unauthorized" fails with message "Unauthorized". */
  lemma UnauthorizedExample<T>(data: T)
    ensures Receive(Response(401, "Unauthorized", data)) == Failed("Unauthorized")
  {
  }
}
