/**
 * The action itself, as the source runs it: a `for` loop over the user cells
 * and, per user, a `while True` loop that reassigns `next_cursor`, updates
 * `client_kwargs` in place, builds each batch by appending, and clears the
 * resume state. Each method is proved to do what the functions of
 * `TwitterAction` say.
 */
module TwitterActionLoop {
  import opened Wrappers
  import opened PyValues
  import opened TwitterAction

  /** The API client: answers each call with the next scripted response and keeps a log of the calls. */
  class Client {
    var pending: seq<Response>
    var calls: seq<Request>

    constructor (responses: seq<Response>)
      ensures pending == responses && calls == []
    {
      pending := responses;
      calls := [];
    }

    /** `client.call(...)`; `None` when the script has no response left (the call is then not made). */
    method Call(request: Request) returns (response: Option<Response>)
      modifies this
      ensures old(pending) == [] ==> response.None? && pending == old(pending) && calls == old(calls)
      ensures old(pending) != [] ==>
                response == Some(old(pending)[0]) && pending == old(pending)[1..] && calls == old(calls) + [request]
    {
      if pending == [] {
        response := None;
      } else {
        response := Some(pending[0]);
        pending := pending[1..];
        calls := calls + [request];
      }
    }
  }

  /** The batch enricher: the batches written so far. */
  class Enricher {
    var written: seq<Write>

    constructor ()
      ensures written == []
    {
      written := [];
    }

    /** `enricher.writebatch(row, batch, cursor)` */
    method WriteBatch(row: Row, batch: seq<seq<PyValue>>, cursor: PyValue)
      modifies this
      ensures written == old(written) + [Write(row, batch, cursor)]
    {
      written := written + [Write(row, batch, cursor)];
    }
  }

  /** The `for user_id in ...: if skip ...: continue; batch.append([user_id])` loop. */
  method BuildBatch(ids: seq<PyValue>, skipInOutput: Option<set<PyValue>>) returns (batch: seq<seq<PyValue>>)
    ensures batch == Batch(ids, skipInOutput)
  {
    batch := [];
    for i := 0 to |ids|
      invariant batch == Batch(ids[..i], skipInOutput)
    {
      var userId := ids[i];
      assert ids[..i + 1][..i] == ids[..i];
      if skipInOutput.Some? && skipInOutput.value != {} && userId in skipInOutput.value {
        continue;
      }
      batch := batch + [[userId]];
    }
    assert ids[..|ids|] == ids;
  }

  /** A loop run prefixed by what was already called and written. */
  ghost function After(calls: seq<Request>, writes: seq<Write>, p: PagesRun): PagesRun {
    PagesRun(calls + p.calls, writes + p.writes, p.rest, p.exhausted)
  }

  /** A turn with no scripted response left: the run ends exhausted. */
  lemma TurnWithoutResponse(cfg: Config, row: Row, user: string, cursor: PyValue, kwargs: map<string, PyValue>,
                            resuming: Option<ResumeState>, target: PagesRun, calls: seq<Request>, writes: seq<Write>)
    requires target == After(calls, writes, Pages(cfg, row, user, cursor, kwargs, resuming, []))
    ensures target == PagesRun(calls, writes, [], true)
  {
  }

  /** A turn on a response that makes the loop leave without writing. */
  lemma TurnOnBreak(cfg: Config, row: Row, user: string, cursor: PyValue, kwargs: map<string, PyValue>,
                    resuming: Option<ResumeState>, pending: seq<Response>,
                    target: PagesRun, calls: seq<Request>, writes: seq<Write>)
    requires pending != [] && Interpret(cfg.v2, pending[0]).Break?
    requires target == After(calls, writes, Pages(cfg, row, user, cursor, kwargs, resuming, pending))
    ensures target == PagesRun(calls + [Request(Route(cfg, user), Sent(cfg, cursor, kwargs))], writes, pending[1..], false)
  {
  }

  /** A turn on a page: its request and batch are recorded, then the run ends or goes on from the page's cursor. */
  lemma TurnOnPage(cfg: Config, row: Row, user: string, cursor: PyValue, kwargs: map<string, PyValue>,
                   resuming: Option<ResumeState>, pending: seq<Response>, ids: seq<PyValue>, next: PyValue,
                   kwargsAfter: map<string, PyValue>, target: PagesRun, calls: seq<Request>, writes: seq<Write>)
    requires pending != [] && Interpret(cfg.v2, pending[0]) == Page(ids, next)
    requires target == After(calls, writes, Pages(cfg, row, user, cursor, kwargs, resuming, pending))
    requires !IsStop(next) ==> kwargsAfter == NextKwargs(cfg, Sent(cfg, cursor, kwargs), next)
    ensures var calls' := calls + [Request(Route(cfg, user), Sent(cfg, cursor, kwargs))];
            var writes' := writes + [Write(row, Batch(ids, SkipOf(resuming)), OrNone(next))];
            if IsStop(next) then target == PagesRun(calls', writes', pending[1..], false)
            else target == After(calls', writes', Pages(cfg, row, user, next, kwargsAfter, None, pending[1..]))
  {
    var request := Request(Route(cfg, user), Sent(cfg, cursor, kwargs));
    var w := Write(row, Batch(ids, SkipOf(resuming)), OrNone(next));
    if !IsStop(next) {
      var q := Pages(cfg, row, user, next, kwargsAfter, None, pending[1..]);
      assert calls + ([request] + q.calls) == (calls + [request]) + q.calls;
      assert writes + ([w] + q.writes) == (writes + [w]) + q.writes;
    }
  }

  /** What one turn of the loop got from the client. */
  datatype Fetched = NoResponse | Left | Paged(batch: seq<seq<PyValue>>, nextCursor: PyValue)

  /**
   * The body of the `while True` loop up to the write: send the request (in
   * API v1.1 after setting "cursor"), then either leave the loop or build the
   * batch and take the next cursor (in API v2 also setting "pagination_token").
   */
  method FetchPage(cfg: Config, user: string, nextCursor: PyValue, clientKwargs: map<string, PyValue>,
                   skipInOutput: Option<set<PyValue>>, client: Client)
    returns (turn: Fetched, kwargsAfter: map<string, PyValue>)
    modifies client
    ensures old(client.pending) == [] ==>
              turn == NoResponse && client.pending == old(client.pending) && client.calls == old(client.calls)
    ensures old(client.pending) != [] ==>
              client.pending == old(client.pending)[1..] &&
              client.calls == old(client.calls) + [Request(Route(cfg, user), Sent(cfg, nextCursor, clientKwargs))]
    ensures old(client.pending) != [] ==>
              match Interpret(cfg.v2, old(client.pending)[0])
              case Break => turn == Left
              case Page(ids, next) =>
                turn == Paged(Batch(ids, skipInOutput), next) &&
                (!IsStop(next) ==> kwargsAfter == NextKwargs(cfg, Sent(cfg, nextCursor, clientKwargs), next))
  {
    kwargsAfter := clientKwargs;
    var result: Option<Response>;
    if !cfg.v2 {
      kwargsAfter := kwargsAfter["cursor" := nextCursor];
      result := client.Call(Request([cfg.methodName, "ids"], kwargsAfter));
    } else {
      result := client.Call(Request(["users", user, V2MethodName(cfg.methodName)], kwargsAfter));
    }
    if result.None? {
      return NoResponse, kwargsAfter;
    }
    if !cfg.v2 {
      match result.value
      case HttpError =>
        turn := Left;
      case NoResult =>
        turn := Left;
      case Payload(ids, nextCursorField, _, _) =>
        var allIds := ids.GetOr([]);
        var next := nextCursorField.GetOr(PyInt(0));
        var batch := BuildBatch(allIds, skipInOutput);
        turn := Paged(batch, next);
    } else {
      match result.value
      case HttpError =>
        turn := Left;
      case NoResult =>
        turn := Left;
      case Payload(_, _, data, nextToken) =>
        if data.None? {
          return Left, kwargsAfter;
        }
        var batch := BuildBatch(data.value, skipInOutput);
        var next := PyNone;
        if nextToken.Some? {
          next := nextToken.value;
          kwargsAfter := kwargsAfter["pagination_token" := next];
        }
        turn := Paged(batch, next);
    }
  }

  /**
   * One turn of the `while True` loop: take the skip set from the resume state
   * and clear it, fetch a page, write its batch with `next_cursor or None`,
   * and say whether the loop stops. What it calls and writes is the first
   * turn of `Pages`; `cursorAfter` and `kwargsAfter` are where the rest of
   * the loop starts.
   */
  method Turn(cfg: Config, row: Row, user: string, nextCursor: PyValue, clientKwargs: map<string, PyValue>,
              resumingState: Option<ResumeState>, client: Client, enricher: Enricher)
    returns (stop: bool, exhausted: bool, cursorAfter: PyValue, kwargsAfter: map<string, PyValue>,
             resumingAfter: Option<ResumeState>, ghost rest: PagesRun)
    modifies client, enricher
    ensures old(After(client.calls, enricher.written, Pages(cfg, row, user, nextCursor, clientKwargs, resumingState, client.pending))) ==
            After(client.calls, enricher.written, rest)
    ensures stop ==> rest == PagesRun([], [], client.pending, exhausted)
    ensures !stop ==> rest == Pages(cfg, row, user, cursorAfter, kwargsAfter, None, client.pending)
    ensures !stop ==> |client.pending| < old(|client.pending|)
    ensures resumingAfter.None?
  {
    ghost var pending := client.pending;
    ghost var calls, writes := client.calls, enricher.written;
    ghost var target := After(calls, writes, Pages(cfg, row, user, nextCursor, clientKwargs, resumingState, pending));
    var skipInOutput: Option<set<PyValue>> := None;
    resumingAfter := resumingState;
    if resumingAfter.Some? {
      skipInOutput := Some(resumingAfter.value.valuesToSkip);
      resumingAfter := None;
    }
    var turn;
    turn, kwargsAfter := FetchPage(cfg, user, nextCursor, clientKwargs, skipInOutput, client);
    cursorAfter := nextCursor;
    stop, exhausted := true, false;
    if turn.NoResponse? {
      TurnWithoutResponse(cfg, row, user, nextCursor, clientKwargs, resumingState, target, calls, writes);
      exhausted := true;
    } else if turn.Left? {
      TurnOnBreak(cfg, row, user, nextCursor, clientKwargs, resumingState, pending, target, calls, writes);
    } else {
      cursorAfter := turn.nextCursor;
      enricher.WriteBatch(row, turn.batch, OrNone(cursorAfter));
      var reply := Interpret(cfg.v2, pending[0]);
      TurnOnPage(cfg, row, user, nextCursor, clientKwargs, resumingState, pending, reply.ids, reply.next,
                 kwargsAfter, target, calls, writes);
      stop := cursorAfter == PyNone || cursorAfter == PyInt(0);
    }
    rest := if stop then PagesRun([], [], client.pending, exhausted)
            else Pages(cfg, row, user, cursorAfter, kwargsAfter, None, client.pending);
    assert client.calls + [] == client.calls && enricher.written + [] == enricher.written;
  }

  /**
   * The `while True` loop of one user, from `next_cursor`, `client_kwargs` and
   * the resume state the user starts with. `exhausted` reports that the
   * scripted API ran out; the resume state is always cleared afterwards.
   */
  method PageThrough(cfg: Config, row: Row, user: string, cursor: PyValue, kwargs: map<string, PyValue>,
                     resuming: Option<ResumeState>, client: Client, enricher: Enricher)
    returns (exhausted: bool, resumingState: Option<ResumeState>)
    modifies client, enricher
    ensures var p := Pages(cfg, row, user, cursor, kwargs, resuming, old(client.pending));
            client.calls == old(client.calls) + p.calls && enricher.written == old(enricher.written) + p.writes &&
            client.pending == p.rest && exhausted == p.exhausted
    ensures resumingState.None?
  {
    var nextCursor := cursor;
    var clientKwargs := kwargs;
    resumingState := resuming;
    ghost var rest := Pages(cfg, row, user, cursor, kwargs, resuming, client.pending);
    ghost var target := After(client.calls, enricher.written, rest);
    var done := false;
    exhausted := false;
    while !done
      invariant target == After(client.calls, enricher.written, rest)
      invariant !done ==> rest == Pages(cfg, row, user, nextCursor, clientKwargs, resumingState, client.pending)
      invariant done ==> rest == PagesRun([], [], client.pending, exhausted) && resumingState.None?
      decreases !done, |client.pending|
    {
      done, exhausted, nextCursor, clientKwargs, resumingState, rest :=
        Turn(cfg, row, user, nextCursor, clientKwargs, resumingState, client, enricher);
    }
    assert client.calls + [] == client.calls && enricher.written + [] == enricher.written;
  }

  /** A whole run prefixed by what was already called and written. */
  ghost function Then(calls: seq<Request>, writes: seq<Write>, r: Run): Run {
    Run(calls + r.calls, writes + r.writes, r.outcome)
  }

  lemma ThenThen(c1: seq<Request>, w1: seq<Write>, c2: seq<Request>, w2: seq<Write>, r: Run)
    ensures Then(c1, w1, Then(c2, w2, r)) == Then(c1 + c2, w1 + w2, r)
  {
    assert c1 + (c2 + r.calls) == (c1 + c2) + r.calls;
    assert w1 + (w2 + r.writes) == (w1 + w2) + r.writes;
  }

  /**
   * One iteration of the `for row, user in ...` loop, for the first of
   * `cells`: the starting cursor (parsing the resumed one), the input-mode
   * check, then the user's pages. `stop` is set when the action ends here,
   * by an exception or because the scripted API ran out.
   */
  method ActOnUser(cfg: Config, cells: seq<Cell>, resumingState: Option<ResumeState>,
                   client: Client, enricher: Enricher)
    returns (stop: bool, outcome: Outcome, resumingAfter: Option<ResumeState>, ghost rest: Run)
    requires cells != []
    modifies client, enricher
    ensures old(Then(client.calls, enricher.written, FirstUser(cfg, cells, resumingState, client.pending))) ==
            Then(client.calls, enricher.written, rest)
    ensures stop ==> rest == Run([], [], outcome)
    ensures !stop ==> rest == Users(cfg, cells[1..], None, client.pending) && resumingAfter.None? && outcome == Completed
  {
    var row, user := cells[0].row, cells[0].user;
    resumingAfter := resumingState;
    var start := InitialCursor(cfg.v2, resumingState);
    if start.Failure? {
      outcome := Raised(start.error);
      return true, outcome, resumingAfter, Run([], [], outcome);
    }
    var kwargs := InitialKwargs(SelectMode(cfg), user);
    if kwargs.Failure? {
      outcome := Raised(kwargs.error);
      return true, outcome, resumingAfter, Run([], [], outcome);
    }
    ghost var p := Pages(cfg, row, user, start.value, kwargs.value, resumingState, client.pending);
    ghost var calls, writes := client.calls, enricher.written;
    var exhausted;
    exhausted, resumingAfter := PageThrough(cfg, row, user, start.value, kwargs.value, resumingState, client, enricher);
    stop := exhausted;
    outcome := if exhausted then OutOfResponses else Completed;
    rest := if exhausted then Run([], [], OutOfResponses) else Users(cfg, cells[1..], None, client.pending);
    ThenThen(calls, writes, p.calls, p.writes, rest);
  }

  /**
   * The `for row, user in ...` loop, from the resume state the first user
   * starts with. The calls made, the batches written and how the loop ends
   * are those of `Users`.
   */
  method ActOnUsers(cfg: Config, cells: seq<Cell>, resuming: Option<ResumeState>,
                    client: Client, enricher: Enricher) returns (outcome: Outcome)
    modifies client, enricher
    ensures var r := Users(cfg, cells, resuming, old(client.pending));
            client.calls == old(client.calls) + r.calls && enricher.written == old(enricher.written) + r.writes &&
            outcome == r.outcome
  {
    ghost var rest := Users(cfg, cells, resuming, client.pending);
    ghost var target := Then(client.calls, enricher.written, rest);
    var resumingState := resuming;
    var todo := cells;
    var done := false;
    outcome := Completed;
    while todo != [] && !done
      invariant target == Then(client.calls, enricher.written, rest)
      invariant !done ==> rest == Users(cfg, todo, resumingState, client.pending) && outcome == Completed
      invariant done ==> rest == Run([], [], outcome)
      decreases |todo|
    {
      done, outcome, resumingState, rest := ActOnUser(cfg, todo, resumingState, client, enricher);
      todo := todo[1..];
    }
    assert client.calls + [] == client.calls && enricher.written + [] == enricher.written;
  }

  /**
   * The decorated `action`: `resume` is the --resume flag and `popped` what
   * `pop_state()` would return; without the flag no state is popped.
   */
  method Action(cfg: Config, resume: bool, popped: Option<ResumeState>, cells: seq<Cell>,
                client: Client, enricher: Enricher) returns (outcome: Outcome)
    modifies client, enricher
    ensures var r := Users(cfg, cells, if resume then popped else None, old(client.pending));
            client.calls == old(client.calls) + r.calls && enricher.written == old(enricher.written) + r.writes &&
            outcome == r.outcome
  {
    var resumingState: Option<ResumeState> := None;
    if resume {
      resumingState := popped;
    }
    outcome := ActOnUsers(cfg, cells, resumingState, client, enricher);
  }
}
