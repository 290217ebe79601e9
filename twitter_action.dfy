/**
 * The behaviour of the action built by `make_twitter_action`, as functions:
 * for each user cell, choose the initial cursor (possibly resumed), check the
 * user against the input mode, then page through the API, writing one batch
 * of ids per page. The API is a script of responses, consumed one per call
 * across all users; the enricher's output is the list of `Write`s.
 */
module TwitterAction {
  import opened Wrappers
  import opened PyValues
  import opened TwitterValidators

  const ItemsPerPage := 1000

  type Row = seq<string>

  /** One `(row, user)` pair given by `enricher.cells(column, with_rows=True)`. */
  datatype Cell = Cell(row: Row, user: string)

  /** The command-line flags the action reads; `methodName` is "followers" or "friends". */
  datatype Config = Config(methodName: string, v2: bool, ids: bool)

  /** What `pop_state()` gives back: the last cursor written (a CSV cell) and the ids already written. */
  datatype ResumeState = ResumeState(lastCursor: string, valuesToSkip: set<PyValue>)

  datatype Mode = ApiV2 | UserIds | ScreenNames

  /** The three `FatalError`s of the input check. */
  datatype FatalReason = V2ExpectsUserIds | IdsExpectsUserIds | ExpectsScreenNames

  /** What the action raises: a `FatalError`, or `ValueError` from `int(last_cursor)`. */
  datatype Failure = Fatal(reason: FatalReason) | CursorNotAnInteger

  /** How the action ends; `OutOfResponses` means the scripted API had no answer left. */
  datatype Outcome = Completed | Raised(failure: Failure) | OutOfResponses

  /** A call `client.call(route, **kwargs)`. */
  datatype Request = Request(route: seq<string>, kwargs: map<string, PyValue>)

  /**
   * What one call gives: a `TwitterHTTPError`, `None`, or a JSON object whose
   * optional keys are "ids" and "next_cursor" (API v1.1) and "data" and
   * `meta["next_token"]` (API v2; each element of "data" stands for its "id").
   */
  datatype Response =
    | HttpError
    | NoResult
    | Payload(ids: Option<seq<PyValue>>, nextCursor: Option<PyValue>, data: Option<seq<PyValue>>, nextToken: Option<PyValue>)

  /** `enricher.writebatch(row, batch, cursor)` */
  datatype Write = Write(row: Row, batch: seq<seq<PyValue>>, cursor: PyValue)

  /** How the loop reads one response: leave the loop, or a page of ids with the next cursor. */
  datatype Reply = Break | Page(ids: seq<PyValue>, next: PyValue)

  /** The paging loop of one user: the calls made, the batches written, the responses left. */
  datatype PagesRun = PagesRun(calls: seq<Request>, writes: seq<Write>, rest: seq<Response>, exhausted: bool)

  /** The whole action: the calls made, the batches written and how it ended. */
  datatype Run = Run(calls: seq<Request>, writes: seq<Write>, outcome: Outcome)

  function SelectMode(cfg: Config): Mode {
    if cfg.v2 then ApiV2 else if cfg.ids then UserIds else ScreenNames
  }

  /**
   * `next_cursor` before the first page: -1 for API v1.1, `None` for v2, or
   * `int(last_cursor)` when resuming with a non-empty last cursor.
   */
  function InitialCursor(v2: bool, resuming: Option<ResumeState>): Result<PyValue, Failure> {
    var default := if v2 then PyNone else PyInt(-1);
    if resuming.Some? && Truthy(PyStr(resuming.value.lastCursor)) then
      match ParseInt(resuming.value.lastCursor)
      case Some(n) => Success(PyInt(n))
      case None => Failure(CursorNotAnInteger)
    else
      Success(default)
  }

  /** The input check and the initial `client_kwargs` of one user. */
  function InitialKwargs(mode: Mode, user: string): Result<map<string, PyValue>, Failure> {
    match mode
    case ApiV2 =>
      if IsNotUserId(user) then Failure(Fatal(V2ExpectsUserIds)) else Success(map["max_results" := PyInt(ItemsPerPage)])
    case UserIds =>
      if IsNotUserId(user) then Failure(Fatal(IdsExpectsUserIds)) else Success(map["user_id" := PyStr(user)])
    case ScreenNames =>
      if IsProbablyNotUserScreenName(user) then Failure(Fatal(ExpectsScreenNames)) else Success(map["screen_name" := PyStr(user)])
  }

  /** The v2 route is named "following" where v1.1 says "friends". */
  function V2MethodName(methodName: string): string {
    if methodName == "friends" then "following" else methodName
  }

  function Route(cfg: Config, user: string): seq<string> {
    if cfg.v2 then ["users", user, V2MethodName(cfg.methodName)] else [cfg.methodName, "ids"]
  }

  /** The ids to leave out of the first page after a resume. */
  function SkipOf(resuming: Option<ResumeState>): Option<set<PyValue>> {
    if resuming.Some? then Some(resuming.value.valuesToSkip) else None
  }

  /** `skip_in_output and user_id in skip_in_output` */
  predicate Skipped(id: PyValue, skip: Option<set<PyValue>>) {
    skip.Some? && skip.value != {} && id in skip.value
  }

  /** The batch written for a page: one single-id row per id that is not skipped, in page order. */
  function Batch(ids: seq<PyValue>, skip: Option<set<PyValue>>): seq<seq<PyValue>>
    decreases |ids|
  {
    if ids == [] then []
    else
      var last := ids[|ids| - 1];
      Batch(ids[..|ids| - 1], skip) + (if Skipped(last, skip) then [] else [[last]])
  }

  /** How the loop reads a response in each API version. */
  function Interpret(v2: bool, response: Response): Reply {
    match response
    case HttpError => Break
    case NoResult => Break
    case Payload(ids, nextCursor, data, nextToken) =>
      if !v2 then Page(ids.GetOr([]), nextCursor.GetOr(PyInt(0)))
      else if data.None? then Break
      else Page(data.value, nextToken.GetOr(PyNone))
  }

  /** `next_cursor is None or next_cursor == 0` */
  predicate IsStop(cursor: PyValue) {
    cursor == PyNone || cursor == PyInt(0)
  }

  /** The keyword arguments actually sent: API v1.1 sets "cursor" before each call. */
  function Sent(cfg: Config, cursor: PyValue, kwargs: map<string, PyValue>): map<string, PyValue> {
    if cfg.v2 then kwargs else kwargs["cursor" := cursor]
  }

  /** The keyword arguments of the next call: API v2 sets "pagination_token" after a page. */
  function NextKwargs(cfg: Config, sent: map<string, PyValue>, next: PyValue): map<string, PyValue> {
    if cfg.v2 then sent["pagination_token" := next] else sent
  }

  /** The `while True` loop of one user, from the given cursor and keyword arguments. */
  function Pages(cfg: Config, row: Row, user: string, cursor: PyValue, kwargs: map<string, PyValue>,
                 resuming: Option<ResumeState>, pending: seq<Response>): PagesRun
    decreases |pending|
  {
    var skip := SkipOf(resuming);
    var sent := Sent(cfg, cursor, kwargs);
    var request := Request(Route(cfg, user), sent);
    if pending == [] then PagesRun([], [], [], true)
    else
      match Interpret(cfg.v2, pending[0])
      case Break => PagesRun([request], [], pending[1..], false)
      case Page(ids, next) =>
        var w := Write(row, Batch(ids, skip), OrNone(next));
        if IsStop(next) then PagesRun([request], [w], pending[1..], false)
        else
          var p := Pages(cfg, row, user, next, NextKwargs(cfg, sent, next), None, pending[1..]);
          PagesRun([request] + p.calls, [w] + p.writes, p.rest, p.exhausted)
  }

  /** The `for` loop over the user cells; `resuming` is cleared once the first user has started paging. */
  function Users(cfg: Config, cells: seq<Cell>, resuming: Option<ResumeState>, pending: seq<Response>): Run
    decreases |cells|, 1
  {
    if cells == [] then Run([], [], Completed) else FirstUser(cfg, cells, resuming, pending)
  }

  /**
   * One turn of that loop: the first user's starting cursor and input check,
   * then its pages, then the remaining users.
   */
  function FirstUser(cfg: Config, cells: seq<Cell>, resuming: Option<ResumeState>, pending: seq<Response>): Run
    requires cells != []
    decreases |cells|, 0
  {
    match InitialCursor(cfg.v2, resuming)
    case Failure(e) => Run([], [], Raised(e))
    case Success(cursor) =>
      match InitialKwargs(SelectMode(cfg), cells[0].user)
      case Failure(e) => Run([], [], Raised(e))
      case Success(kwargs) =>
        var p := Pages(cfg, cells[0].row, cells[0].user, cursor, kwargs, resuming, pending);
        if p.exhausted then Run(p.calls, p.writes, OutOfResponses)
        else
          var r := Users(cfg, cells[1..], None, p.rest);
          Run(p.calls + r.calls, p.writes + r.writes, r.outcome)
  }
}
