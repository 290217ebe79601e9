# minet — Twitter follower/friend retrieval helpers, in Dafny

This project models the core of minet's Twitter command-line helpers
(`minet/cli/twitter/utils.py`). That core has five parts:

- the two string validators `is_not_user_id` and `is_probably_not_user_screen_name`, together with the regular expressions they use;
- `validate_query_boundaries`, which refuses an inverted time window or id window;
- the `api_version` that `with_twitter_client` chooses once and then keeps;
- the action built by `make_twitter_action`. For every user cell of the input CSV, it computes the starting cursor, which can come from a resumed state and goes through `int(last_cursor)`. It checks the user against the input mode (`--api-v2`, `--ids` or screen names). It then pages through the followers/friends endpoint, writing one batch of ids per page with `next_cursor or None`, until a page's cursor is `None` or `0`;
- the skip set of a resumed state, which filters the first page fetched after the resume, and is dropped if that call yields no page.

The files:

- `wrappers.dfy`: `Option` and `Result`.
- `py_values.dfy`: the Python values the action handles (`None`, `int`, `str`), truthiness, `v or None`, `int(s)` and `str(n)`.
- `regex.dfy`: the one-class, greedy-quantifier fragment of `re` used by the validators.
- `twitter_validators.dfy`: the validators, and the character-level characterisations proved about them.
- `query_boundaries.dfy`: `validate_query_boundaries`.
- `twitter_client.dfy`: the `api_version` stickiness of `with_twitter_client`. The decorator's closure is a class whose field the wrapper updates.
- `twitter_action.dfy`: the action as functions. `Pages` is one user's `while True` loop, and `Users` (with `FirstUser`) is the `for` loop over the cells.
- `twitter_action_loop.dfy`: the action as the source runs it. The client and the enricher are objects. The loops are `while`/`for` loops that update the cursor and the keyword arguments step by step, and build each batch by appending. Each method is proved equal to the functions above.
- `twitter_action_properties.dfy`: what the action promises, proved about those functions. This covers batches and skip sets, the requests sent, when paging stops, resume behaviour and the input check.

The Twitter API is a script: a sequence of responses, consumed one per call.
A response is a `TwitterHTTPError`, `None`, or a JSON object with optional
"ids"/"next_cursor" (API v1.1) or "data"/`meta["next_token"]` (API v2). The
enricher's output is the sequence of `writebatch(row, batch, cursor)` calls.

Two observations about resuming in API v2 follow from the code and are proved:

- The cursor the v2 loop writes is the page's `next_token` string. `int(last_cursor)` raises `ValueError` on it unless the token reads as an integer (`V2ResumeFromWrittenToken`).
- When it does read as an integer, v2 never sends the cursor, so the run is the same as resuming with no cursor (`V2ResumedCursorUnused`). Only the skip set of the resumed state has an effect.

## Model

| member | source | states |
|---|---|---|
| PyValues.ParseInt | minet/cli/twitter/utils.py:84 | `int(s)` on an optional sign and ASCII digits, `None` where Python raises `ValueError`. It reads back what `ShowInt` writes (`ParseIntOfShowInt`) |
| PyValues.ShowInt | minet/cli/twitter/utils.py:184 | `str(n)` of a written cursor, never empty. `ParseInt` inverts it (`ParseIntOfShowInt`) |
| Regex.Match | minet/cli/twitter/utils.py:193 | `re.match` of a repeated class: the length of the greedy run, or no match. Characterised by `MatchIff` |
| Regex.FullMatch | minet/cli/twitter/utils.py:197 | `fullmatch` of a repeated class. Characterised by `FullMatchIff` |
| TwitterValidators.IsNotUserId | minet/cli/twitter/utils.py:192-193 | `is_not_user_id`. Characterised by `IsNotUserIdIff`, `IsNotUserIdFirstCharOnly` and `DigitsAreNotFlaggedAsNonIds` |
| TwitterValidators.IsProbablyNotUserScreenName | minet/cli/twitter/utils.py:196-200 | `is_probably_not_user_screen_name`. Characterised by `IsProbablyNotUserScreenNameIff` |
| TwitterClient.VersionForFlag | minet/cli/twitter/utils.py:38-41 | the version chosen when none is set: "2" for a true `v2` flag, "1.1" otherwise. Used and stored by `Wrapper` |
| TwitterAction.InitialCursor | minet/cli/twitter/utils.py:77-84 | the starting cursor of a user. Specified through the calls it leads to by `V1FirstCursorSent`, `V1ResumeSendsWrittenCursor`, `V2ResumedCursorUnused`, `V2ResumeFromWrittenToken` and `ResumeFromWrittenCursor` |
| TwitterAction.InitialKwargs | minet/cli/twitter/utils.py:86-109 | the input check and the starting arguments. Characterised by `InputGate` and `UsersCompletedMeansAllAccepted` |
| TwitterAction.Batch | minet/cli/twitter/utils.py:136-142 | the filtered batch of one page. Characterised by `BatchAppend`, `BatchCount`, `BatchRowsAreSingletons` and `BatchWithoutSkips`, and built in place by `BuildBatch` |
| TwitterAction.Interpret | minet/cli/twitter/utils.py:119-182 | what one response means: leave the loop, or a page with its ids and next cursor. Run step by step by `FetchPage` |
| TwitterAction.Pages | minet/cli/twitter/utils.py:111-187 | one user's `while True` loop. Characterised by `PagesConsumption`, `PagesWrites`, `PagesRequests`, `PagesStop` and `PagesResumeOnlyFirstBatch`, and run step by step by `PageThrough` |
| TwitterAction.Users | minet/cli/twitter/utils.py:74-187 | the `for` loop over the user cells. Characterised by `UsersWriteCellRows`, `UsersWrittenCursors`, `UsersCompletedMeansAllAccepted` and `SkipSetFiltersOnlyFirstBatch`, and run step by step by `ActOnUsers` |
| TwitterAction.FirstUser | minet/cli/twitter/utils.py:74-187 | one turn of that loop: starting cursor, input check, pages, then the remaining users. Run step by step by `ActOnUser` |
| PyValues.OrNone | minet/cli/twitter/utils.py:184 | `v or None` keeps a truthy value, turns `None`, `0` and `""` into `None`, and preserves truthiness |
| PyValues.ParseIntOfShowInt | minet/cli/twitter/utils.py:83-84 | `int(str(i)) == i` for every integer, so a cursor written out as text is read back unchanged |
| Regex.Run | minet/cli/twitter/utils.py:15-17 | the greedy run is the longest prefix within the repetition limit whose characters are all in the class |
| Regex.MatchIff | minet/cli/twitter/utils.py:193 | `re.match` of a repeated class succeeds exactly when the first `min` characters are in the class |
| Regex.FullMatchIff | minet/cli/twitter/utils.py:197 | `fullmatch` succeeds exactly when the length is within `{min,max}` and every character is in the class |
| TwitterValidators.CharactersClass | minet/cli/twitter/utils.py:15 | a character is in `[A-Za-z_]` exactly when it is an ASCII letter or `_` |
| TwitterValidators.NumbersClass | minet/cli/twitter/utils.py:16 | a character is in `[0-9]` exactly when it is an ASCII digit |
| TwitterValidators.ScreenNameClass | minet/cli/twitter/utils.py:17 | a character is in `[a-zA-Z0-9_]` exactly when it is an ASCII letter, a digit or `_` |
| TwitterValidators.IsNotUserIdIff | minet/cli/twitter/utils.py:192-193 | `is_not_user_id(s)` holds exactly when `s` starts with an ASCII letter or `_` |
| TwitterValidators.IsNotUserIdFirstCharOnly | minet/cli/twitter/utils.py:192-193 | appending text never changes the verdict: only the first character is looked at |
| TwitterValidators.DigitsAreNotFlaggedAsNonIds | minet/cli/twitter/utils.py:192-193 | a string of digits (a numeric id) is never flagged as "not a user id" |
| TwitterValidators.IsProbablyNotUserScreenNameIff | minet/cli/twitter/utils.py:196-200 | flagged exactly when the string is not 1 to 15 characters from `[a-zA-Z0-9_]`, or is made only of digits |
| QueryBoundaries.ValidateQueryBoundaries | minet/cli/twitter/utils.py:22-29 | passing means neither window is inverted. The end-time error implies that the time window is inverted. The until-id error implies that the id window is inverted and the time window is not, because the time check comes first |
| QueryBoundaries.ZeroIdDisablesIdCheck | minet/cli/twitter/utils.py:27-29 | an id of 0 is falsy, so it turns the id check off |
| QueryBoundaries.GivenTimesAreCompared | minet/cli/twitter/utils.py:23-25 | two given times are always compared, 0 included: the end-time error is raised exactly when the end is before the start. A missing bound skips the time check |
| TwitterClient.WithTwitterClient.Wrapper | minet/cli/twitter/utils.py:35-41 | a version already set is used unchanged. Otherwise the `v2` attribute (default `False`) chooses "2" or "1.1". Either way the version is then stored |
| TwitterClient.Invocations | minet/cli/twitter/utils.py:32-41 | every invocation of one decorated action uses the decorator's version, or else the one chosen by the first invocation's flag |
| TwitterActionLoop.BuildBatch | minet/cli/twitter/utils.py:136-142 | the appended batch equals `Batch`: one `[user_id]` row per id not skipped, in page order |
| TwitterActionLoop.FetchPage | minet/cli/twitter/utils.py:119-182 | one call per turn with the route and arguments of the API version. It consumes the next response and leaves on an error, `None` or a v2 result without "data". Otherwise it yields the page's batch and next cursor, with "pagination_token" set in v2 |
| TwitterActionLoop.Turn | minet/cli/twitter/utils.py:111-187 | one turn of `while True`: what it calls and writes, where the loop continues, and that the resume state is cleared |
| TwitterActionLoop.PageThrough | minet/cli/twitter/utils.py:111-187 | the loop's calls, writes, remaining responses and exhaustion are exactly `Pages` of the starting state. The resume state is cleared afterwards |
| TwitterActionLoop.ActOnUser | minet/cli/twitter/utils.py:74-187 | one user: the calls, writes and outcome are the first step of `Users`, and the loop goes on only when the user's paging ended normally |
| TwitterActionLoop.ActOnUsers | minet/cli/twitter/utils.py:74-187 | the `for` loop over the cells makes the calls and writes of `Users` and ends with its outcome |
| TwitterActionLoop.Action | minet/cli/twitter/utils.py:68-187 | the action equals `Users`, started from the popped state with `--resume` and from no state without it |
| TwitterActionProperties.BatchAppend | minet/cli/twitter/utils.py:136-142 | the batch of a concatenation is the concatenation of the batches, so page order is kept |
| TwitterActionProperties.BatchCount | minet/cli/twitter/utils.py:138-142 | a batch holds `[x]` as often as the page holds `x`, and never when `x` is skipped |
| TwitterActionProperties.BatchRowsAreSingletons | minet/cli/twitter/utils.py:142 | every row is a one-element `[user_id]` and a batch is never longer than its page |
| TwitterActionProperties.BatchWithoutSkips | minet/cli/twitter/utils.py:138-142 | with nothing to skip, the batch is the page row by row |
| TwitterActionProperties.PagesConsumption | minet/cli/twitter/utils.py:111-187 | each call consumes one response and writes at most one batch, and an exhausted loop wrote one batch per response |
| TwitterActionProperties.PagesWrites | minet/cli/twitter/utils.py:111-187 | the k-th batch comes from the k-th response, which was a page. It is filtered by the skip set only for k == 0, and written with the page's `next or None` |
| TwitterActionProperties.PagesRequests | minet/cli/twitter/utils.py:119-177 | the first request carries the starting arguments, with "cursor" set in v1.1. Each later request follows a non-final page and sets only "cursor" (v1.1) or "pagination_token" (v2) to that page's cursor |
| TwitterActionProperties.PagesStop | minet/cli/twitter/utils.py:184-187 | unless the script ran out, the loop ends on a response with nothing written, or on the first page whose cursor is `None` or 0 |
| TwitterActionProperties.PagesResumeOnlyFirstBatch | minet/cli/twitter/utils.py:113-117 | resume states differ only in the first batch, and not at all when their skip sets agree |
| TwitterActionProperties.UsersWriteCellRows | minet/cli/twitter/utils.py:74-184 | the batches are written user by user, in cell order: each write is owned by a cell, carries that cell's row, and the owners never go back |
| TwitterActionProperties.UsersWrittenCursors | minet/cli/twitter/utils.py:184 | every cursor written is `None` or truthy |
| TwitterActionProperties.UsersCompletedMeansAllAccepted | minet/cli/twitter/utils.py:86-109 | the action completes only if every user passed the input check |
| TwitterActionProperties.SkipSetFiltersOnlyFirstBatch | minet/cli/twitter/utils.py:113-117 | across the whole action, the skip set of a resume changes only the first batch written, never the calls or the outcome |
| TwitterActionProperties.V2ResumedCursorUnused | minet/cli/twitter/utils.py:80-84 | in v2 a resumed integer cursor is never sent, and the action equals resuming with no cursor |
| TwitterActionProperties.V2ResumeFromWrittenToken | minet/cli/twitter/utils.py:83-84 | in v2, resuming from a written `next_token` that is not an integer literal raises `ValueError` before any call |
| TwitterActionProperties.V1ResumeSendsWrittenCursor | minet/cli/twitter/utils.py:83-123 | in v1.1, resuming from a written integer cursor sends that cursor with the first request |
| TwitterActionProperties.V1FirstCursorSent | minet/cli/twitter/utils.py:77-123 | in v1.1, for a first user that passes the input check and a non-empty script: a non-empty resumed cursor that is not an integer raises `ValueError` before any call. Otherwise the first call goes to `[method_name, "ids"]` with "cursor" set to `int(last_cursor)` when a cursor was resumed and to -1 when none was |
| TwitterActionProperties.ResumeFromWrittenCursor | minet/cli/twitter/utils.py:83-84 | a cursor written as `str(n)` is resumed as `n` |
| TwitterActionProperties.InputGate | minet/cli/twitter/utils.py:86-109 | with `--api-v2` or `--ids` a user passes exactly when it does not start with a letter or `_`. Otherwise it passes exactly when it is a well-formed screen name that is not all digits. The arguments are "max_results" = 1000, "user_id" or "screen_name" |

## Left out

- The loading bar (`loading_bar.step`, `inc_stat`, `nested_advance`) only reports progress. It does not change what is called or written.
- Building `TwitterAPIClient` from the four credentials, and the network itself, are not modelled. The client is a script of responses, and the model records the route and keyword arguments of each call.
- `with_enricher_and_loading_bar`, `enricher.cells`, `pop_state` and the CSV layer are not part of this model. The cells are a sequence of `(row, user)` pairs and the popped state is a parameter.
- `functools.wraps` and the decorator plumbing are not modelled. `Wrapper` models only the version choice and stores it.
- `int()` is modelled on an optional sign and ASCII digits. Surrounding whitespace, `_` separators and non-ASCII digits, which Python also accepts, are not modelled.
- TwitterActionLoop.PageThrough: `while True` is bounded by the script. When the script runs out, the action ends with `OutOfResponses`. The real client would block or raise in that case.
- TwitterActionLoop.FetchPage: exceptions from `client.call` other than `TwitterHTTPError` are not modelled. Neither is a v2 result without "meta", which would raise `KeyError`.
- A v2 "data" element is modelled as its "id". The rest of the follower metadata is not used.
- `start_time`/`end_time` and `since_id`/`until_id` are modelled as optional integers. Their parsing from the command line is not part of this model.
- A popped resume state is assumed truthy when it is not `None`.
- The other Twitter commands, the scraper and the rest of minet are not part of this model.
