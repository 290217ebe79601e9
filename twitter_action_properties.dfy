/**
 * What the action promises, proved about the functions of `TwitterAction`:
 * the batches written, the requests sent, when the paging loop stops, and what
 * a resume state changes.
 */
module TwitterActionProperties {
  import opened Wrappers
  import opened PyValues
  import opened TwitterValidators
  import opened TwitterAction

  // ---------------------------------------------------------------------------
  // Batches

  /** Building a batch distributes over concatenation, so page order is kept. */
  lemma {:induction false} BatchAppend(a: seq<PyValue>, b: seq<PyValue>, skip: Option<set<PyValue>>)
    ensures Batch(a + b, skip) == Batch(a, skip) + Batch(b, skip)
    decreases |b|
  {
    if b == [] {
      assert a + b == a;
    } else {
      var init := b[..|b| - 1];
      assert (a + b)[..|a + b| - 1] == a + init;
      BatchAppend(a, init, skip);
    }
  }

  /** The row one id adds to a batch holds `[x]` once exactly when the id is `x` and not skipped. */
  lemma AddedRowCount(last: PyValue, skip: Option<set<PyValue>>, x: PyValue)
    ensures multiset(if Skipped(last, skip) then [] else [[last]])[[x]] ==
            if !Skipped(last, skip) && last == x then 1 else 0
  {
    if !Skipped(last, skip) && last != x {
      assert [last] != [x] by { assert [last][0] != [x][0]; }
    }
  }

  lemma CountOfAppend<T>(a: seq<T>, b: seq<T>, y: T)
    ensures multiset(a + b)[y] == multiset(a)[y] + multiset(b)[y]
  {
  }

  /** Counting in a non-empty sequence: its prefix without the last element, plus that element. */
  lemma CountOfSnoc<T>(s: seq<T>, y: T)
    requires s != []
    ensures multiset(s)[y] == multiset(s[..|s| - 1])[y] + if s[|s| - 1] == y then 1 else 0
  {
    assert s == s[..|s| - 1] + [s[|s| - 1]];
  }

  /** A batch holds each id of the page as often as the page does, unless it is skipped. */
  lemma {:induction false} BatchCount(ids: seq<PyValue>, skip: Option<set<PyValue>>, x: PyValue)
    ensures multiset(Batch(ids, skip))[[x]] == if Skipped(x, skip) then 0 else multiset(ids)[x]
    decreases |ids|
  {
    if ids != [] {
      var init, last := ids[..|ids| - 1], ids[|ids| - 1];
      var added := if Skipped(last, skip) then [] else [[last]];
      BatchCount(init, skip, x);
      AddedRowCount(last, skip, x);
      CountOfSnoc(ids, x);
      CountOfAppend(Batch(init, skip), added, [x]);
    }
  }

  /** Every row of a batch is a one-element row `[user_id]`. */
  lemma {:induction false} BatchRowsAreSingletons(ids: seq<PyValue>, skip: Option<set<PyValue>>)
    ensures |Batch(ids, skip)| <= |ids|
    ensures forall k :: 0 <= k < |Batch(ids, skip)| ==> |Batch(ids, skip)[k]| == 1
    decreases |ids|
  {
    if ids != [] {
      BatchRowsAreSingletons(ids[..|ids| - 1], skip);
    }
  }

  /** With nothing to skip (no resume state, or an empty skip set) a batch is the page itself, row by row. */
  lemma {:induction false} BatchWithoutSkips(ids: seq<PyValue>, skip: Option<set<PyValue>>)
    requires forall k :: 0 <= k < |ids| ==> !Skipped(ids[k], skip)
    ensures |Batch(ids, skip)| == |ids|
    ensures forall k :: 0 <= k < |ids| ==> Batch(ids, skip)[k] == [ids[k]]
    decreases |ids|
  {
    if ids != [] {
      BatchWithoutSkips(ids[..|ids| - 1], skip);
    }
  }

  // ---------------------------------------------------------------------------
  // One user's paging loop

  /** Each call consumes exactly one scripted response, and each call writes at most one batch. */
  lemma {:induction false} PagesConsumption(cfg: Config, row: Row, user: string, cursor: PyValue,
                                            kwargs: map<string, PyValue>, resuming: Option<ResumeState>,
                                            pending: seq<Response>)
    ensures var p := Pages(cfg, row, user, cursor, kwargs, resuming, pending);
            |p.calls| <= |pending| && p.rest == pending[|p.calls|..] &&
            |p.writes| <= |p.calls| <= |p.writes| + 1 &&
            (p.exhausted ==> |p.calls| == |pending| == |p.writes|)
    decreases |pending|
  {
    if pending != [] {
      var sent := Sent(cfg, cursor, kwargs);
      match Interpret(cfg.v2, pending[0])
      case Break =>
      case Page(ids, next) =>
        if !IsStop(next) {
          PagesConsumption(cfg, row, user, next, NextKwargs(cfg, sent, next), None, pending[1..]);
        }
    }
  }

  /**
   * The k-th batch written comes from the k-th response, which was a page: it
   * holds that page's ids minus the resume state's skip set for k == 0 and
   * all of them afterwards, and it is written with the cursor `next or None`.
   */
  predicate WrittenFrom(cfg: Config, row: Row, resuming: Option<ResumeState>, pending: seq<Response>,
                        writes: seq<Write>, k: nat)
    requires k < |writes|
  {
    k < |pending| && Interpret(cfg.v2, pending[k]).Page? &&
    writes[k] == Write(row,
                       Batch(Interpret(cfg.v2, pending[k]).ids, if k == 0 then SkipOf(resuming) else None),
                       OrNone(Interpret(cfg.v2, pending[k]).next))
  }

  lemma {:induction false} PagesWrites(cfg: Config, row: Row, user: string, cursor: PyValue,
                                       kwargs: map<string, PyValue>, resuming: Option<ResumeState>,
                                       pending: seq<Response>, p: PagesRun)
    requires p == Pages(cfg, row, user, cursor, kwargs, resuming, pending)
    ensures forall k: nat :: k < |p.writes| ==> WrittenFrom(cfg, row, resuming, pending, p.writes, k)
    decreases |pending|
  {
    if pending != [] {
      var sent := Sent(cfg, cursor, kwargs);
      match Interpret(cfg.v2, pending[0])
      case Break =>
        assert p.writes == [];
      case Page(ids, next) =>
        if !IsStop(next) {
          var q := Pages(cfg, row, user, next, NextKwargs(cfg, sent, next), None, pending[1..]);
          PagesWrites(cfg, row, user, next, NextKwargs(cfg, sent, next), None, pending[1..], q);
          var w := Write(row, Batch(ids, SkipOf(resuming)), OrNone(next));
          assert p.writes == [w] + q.writes;
          forall k: nat | k < |p.writes|
            ensures WrittenFrom(cfg, row, resuming, pending, p.writes, k)
          {
            if k == 0 {
              assert p.writes[k] == w;
            } else {
              assert WrittenFrom(cfg, row, None, pending[1..], q.writes, k - 1);
              assert p.writes[k] == q.writes[k - 1];
              assert pending[1..][k - 1] == pending[k];
            }
          }
        } else {
          assert p.writes == [Write(row, Batch(ids, SkipOf(resuming)), OrNone(next))];
          assert Interpret(cfg.v2, pending[0]) == Page(ids, next);
        }
      } else {
        assert p.writes == [];
      }
  }

  /** The arguments of the call that follows a page: its next cursor as "pagination_token" (v2) or "cursor" (v1.1). */
  function Advance(cfg: Config, sent: map<string, PyValue>, next: PyValue): map<string, PyValue> {
    if cfg.v2 then sent["pagination_token" := next] else sent["cursor" := next]
  }

  /**
   * The requests sent: the first carries the loop's starting arguments (in
   * API v1.1 with "cursor" set to the starting cursor); each later one follows
   * a page whose cursor did not stop the loop, and differs from the request
   * before it only in "cursor" (v1.1) or "pagination_token" (v2), set to that
   * page's next cursor.
   */
  lemma {:induction false} PagesRequests(cfg: Config, row: Row, user: string, cursor: PyValue,
                                         kwargs: map<string, PyValue>, resuming: Option<ResumeState>,
                                         pending: seq<Response>, p: PagesRun)
    requires p == Pages(cfg, row, user, cursor, kwargs, resuming, pending)
    ensures |p.calls| <= |pending|
    ensures |p.calls| > 0 ==> p.calls[0] == Request(Route(cfg, user), Sent(cfg, cursor, kwargs))
    ensures forall k {:trigger pending[k]} :: 0 <= k < |p.calls| - 1 ==>
              Interpret(cfg.v2, pending[k]).Page? && !IsStop(Interpret(cfg.v2, pending[k]).next) &&
              p.calls[k + 1] == Request(Route(cfg, user), Advance(cfg, p.calls[k].kwargs, Interpret(cfg.v2, pending[k]).next))
    decreases |pending|
  {
    PagesConsumption(cfg, row, user, cursor, kwargs, resuming, pending);
    if pending != [] {
      var sent := Sent(cfg, cursor, kwargs);
      match Interpret(cfg.v2, pending[0])
      case Break =>
      case Page(ids, next) =>
        if !IsStop(next) {
          var nextKwargs := NextKwargs(cfg, sent, next);
          var q := Pages(cfg, row, user, next, nextKwargs, None, pending[1..]);
          PagesRequests(cfg, row, user, next, nextKwargs, None, pending[1..], q);
          assert p.calls == [Request(Route(cfg, user), sent)] + q.calls;
          forall k | 1 <= k < |p.calls| - 1
            ensures Interpret(cfg.v2, pending[k]).Page? && !IsStop(Interpret(cfg.v2, pending[k]).next)
            ensures p.calls[k + 1] == Request(Route(cfg, user), Advance(cfg, p.calls[k].kwargs, Interpret(cfg.v2, pending[k]).next))
          {
            assert p.calls[k + 1] == q.calls[k] && p.calls[k] == q.calls[k - 1];
            assert pending[1..][k - 1] == pending[k];
          }
        }
    }
  }

  /**
   * Unless the script ran out, the loop ends on the first response that is an
   * error, `None` or lacks "data" (nothing written for it), or on the first
   * page whose next cursor is `None` or 0 (its batch is the last written).
   */
  lemma {:induction false} PagesStop(cfg: Config, row: Row, user: string, cursor: PyValue,
                                     kwargs: map<string, PyValue>, resuming: Option<ResumeState>,
                                     pending: seq<Response>)
    ensures var p := Pages(cfg, row, user, cursor, kwargs, resuming, pending);
            !p.exhausted ==>
              0 < |p.calls| <= |pending| &&
              var last := Interpret(cfg.v2, pending[|p.calls| - 1]);
              (last.Break? && |p.writes| + 1 == |p.calls|) ||
              (last.Page? && IsStop(last.next) && |p.writes| == |p.calls|)
    decreases |pending|
  {
    if pending != [] {
      var sent := Sent(cfg, cursor, kwargs);
      match Interpret(cfg.v2, pending[0])
      case Break =>
      case Page(ids, next) =>
        if !IsStop(next) {
          var q := Pages(cfg, row, user, next, NextKwargs(cfg, sent, next), None, pending[1..]);
          PagesStop(cfg, row, user, next, NextKwargs(cfg, sent, next), None, pending[1..]);
          if !q.exhausted {
            assert pending[|q.calls|] == pending[1..][|q.calls| - 1];
          }
        }
    }
  }

  /** In API v2 the cursor the loop starts from is never sent: it does not change the run. */
  lemma V2IgnoresStartingCursor(cfg: Config, row: Row, user: string, c1: PyValue, c2: PyValue,
                                kwargs: map<string, PyValue>, resuming: Option<ResumeState>,
                                pending: seq<Response>)
    requires cfg.v2
    ensures Pages(cfg, row, user, c1, kwargs, resuming, pending) == Pages(cfg, row, user, c2, kwargs, resuming, pending)
  {
  }

  /** Two resume states with the same skip set lead to the same loop; skip sets only change the first batch. */
  lemma PagesResumeOnlyFirstBatch(cfg: Config, row: Row, user: string, cursor: PyValue,
                                  kwargs: map<string, PyValue>, r1: Option<ResumeState>, r2: Option<ResumeState>,
                                  pending: seq<Response>, p1: PagesRun, p2: PagesRun)
    requires p1 == Pages(cfg, row, user, cursor, kwargs, r1, pending)
    requires p2 == Pages(cfg, row, user, cursor, kwargs, r2, pending)
    ensures p1.calls == p2.calls && p1.rest == p2.rest && p1.exhausted == p2.exhausted &&
            |p1.writes| == |p2.writes| &&
            (forall k :: 1 <= k < |p1.writes| ==> p1.writes[k] == p2.writes[k]) &&
            (SkipOf(r1) == SkipOf(r2) ==> p1 == p2)
  {
  }

  // ---------------------------------------------------------------------------
  // The whole action

  /**
   * `owner[k]` is the cell whose user the k-th write belongs to: writes carry
   * their cell's row and come user by user, in cell order.
   */
  predicate WrittenInCellOrder(cells: seq<Cell>, writes: seq<Write>, owner: seq<nat>) {
    |owner| == |writes| &&
    (forall k :: 0 <= k < |owner| ==> owner[k] < |cells| && writes[k].row == cells[owner[k]].row) &&
    (forall k, l :: 0 <= k <= l < |owner| ==> owner[k] <= owner[l])
  }

  /** The first user's writes, followed by the later users' writes in cell order, are in cell order. */
  lemma CellOrderCons(cells: seq<Cell>, first: seq<Write>, later: seq<Write>, rest: seq<nat>)
    requires cells != []
    requires forall k :: 0 <= k < |first| ==> first[k].row == cells[0].row
    requires WrittenInCellOrder(cells[1..], later, rest)
    ensures exists owner :: WrittenInCellOrder(cells, first + later, owner)
  {
    var shifted: seq<nat> := seq(|rest|, i requires 0 <= i < |rest| => rest[i] + 1);
    var owner := seq(|first|, _ => 0) + shifted;
    var writes := first + later;
    forall k | 0 <= k < |owner|
      ensures owner[k] < |cells| && writes[k].row == cells[owner[k]].row
    {
      if k >= |first| {
        var i := k - |first|;
        assert owner[k] == rest[i] + 1 && writes[k] == later[i];
        assert cells[1..][rest[i]] == cells[rest[i] + 1];
      }
    }
    forall k, l | 0 <= k <= l < |owner|
      ensures owner[k] <= owner[l]
    {
      if k >= |first| {
        assert owner[k] == rest[k - |first|] + 1 && owner[l] == rest[l - |first|] + 1;
      }
    }
    assert WrittenInCellOrder(cells, writes, owner);
  }

  /** The batches are written user by user, in cell order, each against its own cell's row. */
  lemma {:induction false} UsersWriteCellRows(cfg: Config, cells: seq<Cell>, resuming: Option<ResumeState>,
                                              pending: seq<Response>, r: Run)
    requires r == Users(cfg, cells, resuming, pending)
    ensures exists owner :: WrittenInCellOrder(cells, r.writes, owner)
    decreases |cells|
  {
    if cells != [] && InitialCursor(cfg.v2, resuming).Success? && InitialKwargs(SelectMode(cfg), cells[0].user).Success? {
      var cursor := InitialCursor(cfg.v2, resuming).value;
      var kwargs := InitialKwargs(SelectMode(cfg), cells[0].user).value;
      var p := Pages(cfg, cells[0].row, cells[0].user, cursor, kwargs, resuming, pending);
      PagesWrites(cfg, cells[0].row, cells[0].user, cursor, kwargs, resuming, pending, p);
      forall k | 0 <= k < |p.writes|
        ensures p.writes[k].row == cells[0].row
      {
        assert WrittenFrom(cfg, cells[0].row, resuming, pending, p.writes, k);
      }
      if p.exhausted {
        assert WrittenInCellOrder(cells[1..], [], []);
        assert r.writes == p.writes + [];
        CellOrderCons(cells, p.writes, [], []);
      } else {
        var tail := Users(cfg, cells[1..], None, p.rest);
        UsersWriteCellRows(cfg, cells[1..], None, p.rest, tail);
        var rest :| WrittenInCellOrder(cells[1..], tail.writes, rest);
        assert r.writes == p.writes + tail.writes;
        CellOrderCons(cells, p.writes, tail.writes, rest);
      }
    } else {
      assert WrittenInCellOrder(cells, r.writes, []);
    }
  }

  /** Every cursor written is `None` or truthy: `next_cursor or None` never writes 0 or "". */
  lemma {:induction false} UsersWrittenCursors(cfg: Config, cells: seq<Cell>, resuming: Option<ResumeState>,
                                               pending: seq<Response>, r: Run)
    requires r == Users(cfg, cells, resuming, pending)
    ensures forall k :: 0 <= k < |r.writes| ==> r.writes[k].cursor == PyNone || Truthy(r.writes[k].cursor)
    decreases |cells|
  {
    if cells != [] && InitialCursor(cfg.v2, resuming).Success? && InitialKwargs(SelectMode(cfg), cells[0].user).Success? {
      var cursor := InitialCursor(cfg.v2, resuming).value;
      var kwargs := InitialKwargs(SelectMode(cfg), cells[0].user).value;
      var p := Pages(cfg, cells[0].row, cells[0].user, cursor, kwargs, resuming, pending);
      PagesWrites(cfg, cells[0].row, cells[0].user, cursor, kwargs, resuming, pending, p);
      var tail := Users(cfg, cells[1..], None, p.rest);
      if !p.exhausted {
        UsersWrittenCursors(cfg, cells[1..], None, p.rest, tail);
      }
      assert r.writes == if p.exhausted then p.writes else p.writes + tail.writes;
      forall k | 0 <= k < |r.writes|
        ensures r.writes[k].cursor == PyNone || Truthy(r.writes[k].cursor)
      {
        if k < |p.writes| {
          assert WrittenFrom(cfg, cells[0].row, resuming, pending, p.writes, k);
          assert r.writes[k] == p.writes[k];
        } else {
          assert r.writes[k] == tail.writes[k - |p.writes|];
        }
      }
    }
  }

  /** The action completes only if every user passed the input check. */
  lemma {:induction false} UsersCompletedMeansAllAccepted(cfg: Config, cells: seq<Cell>, resuming: Option<ResumeState>,
                                                          pending: seq<Response>)
    requires Users(cfg, cells, resuming, pending).outcome == Completed
    ensures forall j :: 0 <= j < |cells| ==> InitialKwargs(SelectMode(cfg), cells[j].user).Success?
    decreases |cells|
  {
    if cells != [] {
      var cursor := InitialCursor(cfg.v2, resuming).value;
      var kwargs := InitialKwargs(SelectMode(cfg), cells[0].user).value;
      var p := Pages(cfg, cells[0].row, cells[0].user, cursor, kwargs, resuming, pending);
      UsersCompletedMeansAllAccepted(cfg, cells[1..], None, p.rest);
      forall j | 1 <= j < |cells|
        ensures InitialKwargs(SelectMode(cfg), cells[j].user).Success?
      {
        assert cells[j] == cells[1..][j - 1];
      }
    }
  }

  /**
   * Resuming with or without the skip set differs in the first batch written
   * and nowhere else: the skip set filters only the first page after a resume.
   */
  lemma SkipSetFiltersOnlyFirstBatch(cfg: Config, cells: seq<Cell>, state: ResumeState, pending: seq<Response>,
                                     r1: Run, r2: Run)
    requires r1 == Users(cfg, cells, Some(state), pending)
    requires r2 == Users(cfg, cells, Some(ResumeState(state.lastCursor, {})), pending)
    ensures r1.calls == r2.calls && r1.outcome == r2.outcome && |r1.writes| == |r2.writes| &&
            forall k :: 1 <= k < |r1.writes| ==> r1.writes[k] == r2.writes[k]
  {
    var plain := ResumeState(state.lastCursor, {});
    if cells != [] && InitialCursor(cfg.v2, Some(state)).Success? && InitialKwargs(SelectMode(cfg), cells[0].user).Success? {
      var cursor := InitialCursor(cfg.v2, Some(state)).value;
      var kwargs := InitialKwargs(SelectMode(cfg), cells[0].user).value;
      PagesResumeOnlyFirstBatch(cfg, cells[0].row, cells[0].user, cursor, kwargs, Some(state), Some(plain), pending,
                                Pages(cfg, cells[0].row, cells[0].user, cursor, kwargs, Some(state), pending),
                                Pages(cfg, cells[0].row, cells[0].user, cursor, kwargs, Some(plain), pending));
    }
  }

  /** In API v2 a resumed cursor is parsed but never sent: the run is the same as resuming with no cursor. */
  lemma V2ResumedCursorUnused(cfg: Config, cells: seq<Cell>, state: ResumeState, pending: seq<Response>)
    requires cfg.v2 && ParseInt(state.lastCursor).Some?
    ensures Users(cfg, cells, Some(state), pending) == Users(cfg, cells, Some(ResumeState("", state.valuesToSkip)), pending)
  {
    var plain := ResumeState("", state.valuesToSkip);
    if cells != [] && InitialKwargs(SelectMode(cfg), cells[0].user).Success? {
      var kwargs := InitialKwargs(SelectMode(cfg), cells[0].user).value;
      var c1 := InitialCursor(cfg.v2, Some(state)).value;
      V2IgnoresStartingCursor(cfg, cells[0].row, cells[0].user, c1, PyNone, kwargs, Some(state), pending);
      PagesResumeOnlyFirstBatch(cfg, cells[0].row, cells[0].user, PyNone, kwargs, Some(state), Some(plain), pending,
                                Pages(cfg, cells[0].row, cells[0].user, PyNone, kwargs, Some(state), pending),
                                Pages(cfg, cells[0].row, cells[0].user, PyNone, kwargs, Some(plain), pending));
    }
  }

  /**
   * In API v2 the cursor written out is the page's `next_token`, a string;
   * unless that string reads as an integer, resuming from it raises
   * `ValueError` before any call is made.
   */
  lemma V2ResumeFromWrittenToken(cfg: Config, cells: seq<Cell>, token: string, skip: set<PyValue>,
                                 pending: seq<Response>)
    requires cfg.v2 && cells != [] && token != "" && ParseInt(token).None?
    ensures Users(cfg, cells, Some(ResumeState(token, skip)), pending) == Run([], [], Raised(CursorNotAnInteger))
  {
  }

  /**
   * In API v1.1, resuming from a cursor the enricher wrote out as text sends
   * that same cursor with the first request.
   */
  lemma V1ResumeSendsWrittenCursor(cfg: Config, cells: seq<Cell>, n: int, skip: set<PyValue>, pending: seq<Response>)
    requires !cfg.v2 && cells != [] && pending != []
    requires InitialKwargs(SelectMode(cfg), cells[0].user).Success?
    ensures var r := Users(cfg, cells, Some(ResumeState(ShowInt(n), skip)), pending);
            |r.calls| > 0 && r.calls[0].route == [cfg.methodName, "ids"] &&
            "cursor" in r.calls[0].kwargs && r.calls[0].kwargs["cursor"] == PyInt(n)
  {
    ParseIntOfShowInt(n);
    var state := Some(ResumeState(ShowInt(n), skip));
    var kwargs := InitialKwargs(SelectMode(cfg), cells[0].user).value;
    assert InitialCursor(cfg.v2, state) == Success(PyInt(n));
    PagesRequests(cfg, cells[0].row, cells[0].user, PyInt(n), kwargs, state, pending,
                  Pages(cfg, cells[0].row, cells[0].user, PyInt(n), kwargs, state, pending));
    PagesConsumption(cfg, cells[0].row, cells[0].user, PyInt(n), kwargs, state, pending);
  }

  /** Whether the resume state carries a cursor: `resuming_state is not None and resuming_state.last_cursor`. */
  predicate HasResumedCursor(resuming: Option<ResumeState>) {
    resuming.Some? && resuming.value.lastCursor != ""
  }

  /**
   * In API v1.1, for a first user that passes the input check: a resumed
   * cursor that is not an integer raises `ValueError` before any call;
   * otherwise the first call sends "cursor" = `int(last_cursor)` when a
   * cursor was resumed and -1 when none was.
   */
  lemma V1FirstCursorSent(cfg: Config, cells: seq<Cell>, resuming: Option<ResumeState>, pending: seq<Response>)
    requires !cfg.v2 && cells != [] && pending != []
    requires InitialKwargs(SelectMode(cfg), cells[0].user).Success?
    ensures var r := Users(cfg, cells, resuming, pending);
            if HasResumedCursor(resuming) && ParseInt(resuming.value.lastCursor).None? then
              r == Run([], [], Raised(CursorNotAnInteger))
            else
              |r.calls| > 0 && r.calls[0].route == [cfg.methodName, "ids"] && "cursor" in r.calls[0].kwargs &&
              r.calls[0].kwargs["cursor"] ==
                if HasResumedCursor(resuming) then PyInt(ParseInt(resuming.value.lastCursor).value) else PyInt(-1)
  {
    var start := InitialCursor(cfg.v2, resuming);
    if start.Success? {
      var kwargs := InitialKwargs(SelectMode(cfg), cells[0].user).value;
      var p := Pages(cfg, cells[0].row, cells[0].user, start.value, kwargs, resuming, pending);
      PagesRequests(cfg, cells[0].row, cells[0].user, start.value, kwargs, resuming, pending, p);
      PagesConsumption(cfg, cells[0].row, cells[0].user, start.value, kwargs, resuming, pending);
      assert |p.calls| > 0;
    }
  }

  /** A cursor the enricher wrote out as text is resumed as the same integer. */
  lemma ResumeFromWrittenCursor(v2: bool, n: int, skip: set<PyValue>)
    ensures InitialCursor(v2, Some(ResumeState(ShowInt(n), skip))) == Success(PyInt(n))
  {
    ParseIntOfShowInt(n);
  }

  /**
   * The input check: with --api-v2 or --ids a user passes exactly when it
   * does not start with a letter or `_`; otherwise exactly when it is a
   * well-formed screen name that is not all digits. Each mode keys its
   * arguments by "max_results" (1000), "user_id" or "screen_name".
   */
  lemma InputGate(mode: Mode, user: string)
    ensures mode != ScreenNames ==>
              (InitialKwargs(mode, user).Success? <==> user == "" || !IsIdentifierStart(user[0]))
    ensures mode == ScreenNames ==>
              (InitialKwargs(mode, user).Success? <==> IsWellFormedScreenName(user) && !AllDigits(user))
    ensures mode == ApiV2 && InitialKwargs(mode, user).Success? ==>
              InitialKwargs(mode, user).value == map["max_results" := PyInt(1000)]
    ensures mode == UserIds && InitialKwargs(mode, user).Success? ==>
              InitialKwargs(mode, user).value == map["user_id" := PyStr(user)]
    ensures mode == ScreenNames && InitialKwargs(mode, user).Success? ==>
              InitialKwargs(mode, user).value == map["screen_name" := PyStr(user)]
  {
    IsNotUserIdIff(user);
    IsProbablyNotUserScreenNameIff(user);
  }
}
