/**
 * The `GET /api/games` handler (src/api/main.py:48-75): fetch a page of raw
 * records from the catalog service, then reshape every record into a game
 * summary and answer `{"data": [...]}`.
 *
 * The fetch is not modelled: its outcome is the `upstream` parameter, either
 * the list of raw records or the text of the exception it raised. The ids
 * that `uuid4()` would generate are the `ids` parameter, one per record.
 */
module Handler {
  import opened Wrappers
  import opened Catalog
  import PlatformNames

  /** What the handler answers. */
  datatype Response =
    | Ok(data: seq<GameSummary>)               // 200 {"data": [...]}
    | HttpError(status: int, detail: string)   // an HTTPException: {"detail": ...}
    | Crash(fault: Fault)                      // an unhandled exception: 500 "Internal Server Error"

  const InternalServerError := 500

  /** The HTTP status code the caller sees. */
  function Status(resp: Response): int {
    match resp
    case Ok(_) => 200
    case HttpError(status, _) => status
    case Crash(_) => InternalServerError
  }

  /**
   * The answer to a failed fetch, as intended: status 500 carrying the
   * exception's text (src/api/main.py:58-59).
   */
  function FailureResponse(message: string): (resp: Response)
    ensures Status(resp) == 500 && !resp.Ok?
    ensures resp.HttpError? && resp.detail == message
  {
    HttpError(InternalServerError, message)
  }

  /**
   * The answer to a failed fetch as the code is written: `HTTPException` is
   * never imported (src/api/main.py:1-8), so evaluating line 59 raises
   * `NameError` instead, which the framework turns into a bare 500.
   */
  function FailureResponseAsWritten(message: string): (resp: Response)
    ensures Status(resp) == 500 && resp.Crash?
    ensures resp.fault == UndefinedName("HTTPException")
  {
    Crash(UndefinedName("HTTPException"))
  }

  /**
   * Both versions answer 500, but the one as written loses the error text:
   * its answer is the same whatever the fetch's error was.
   */
  lemma MissingImportLosesDetail(message: string, other: string)
    ensures Status(FailureResponseAsWritten(message)) == Status(FailureResponse(message))
    ensures FailureResponseAsWritten(message) != FailureResponse(message)
    ensures FailureResponseAsWritten(message) == FailureResponseAsWritten(other)
    ensures message != other ==> FailureResponse(message) != FailureResponse(other)
  {
  }

  /**
   * The handler as a function of the fetch's outcome and the generated ids.
   * Only the fetch is inside the `try`: a failed fetch gets the intended
   * `HTTPException` answer (`FailureResponse`; for the code as written see
   * `FailureResponseAsWritten` and `MissingImportLosesDetail`), while a
   * record that cannot be reshaped escapes uncaught as a `Crash`.
   */
  function Handle(upstream: Result<seq<RawGame>, string>, ids: seq<string>): (resp: Response)
    requires upstream.Success? ==> |ids| == |upstream.value|
    ensures upstream.Failure? ==> resp == FailureResponse(upstream.error)
    ensures upstream.Success? ==>
      (resp.Ok? <==> forall i :: 0 <= i < |ids| ==> Summarize(upstream.value[i], ids[i]).Success?)
    ensures resp.Ok? ==> upstream.Success? && |resp.data| == |upstream.value|
    ensures resp.Ok? ==>
      forall i :: 0 <= i < |resp.data| ==> resp.data[i] == Summarize(upstream.value[i], ids[i]).value
    ensures !resp.Ok? ==> Status(resp) == 500
    ensures upstream.Success? && !resp.Ok? ==> resp == Crash(MapRecords(upstream.value, ids).error)
  {
    match upstream
    case Failure(message) => FailureResponse(message)
    case Success(raws) =>
      match MapRecords(raws, ids)
      case Failure(f) => Crash(f)
      case Success(games) => Ok(games)
  }

  /**
   * `index` (src/api/main.py:56-75): the fetch-failure branch, then the loop
   * appending one summary per raw record. The failure branch answers as
   * intended (`FailureResponse`); the code as written raises NameError there,
   * see `FailureResponseAsWritten` and `MissingImportLosesDetail`.
   */
  method Index(upstream: Result<seq<RawGame>, string>, ids: seq<string>) returns (resp: Response)
    requires upstream.Success? ==> |ids| == |upstream.value|
    ensures resp == Handle(upstream, ids)
  {
    if upstream.Failure? {
      return FailureResponse(upstream.error);
    }
    var raws := upstream.value;
    var games: seq<GameSummary> := [];
    var i := 0;
    while i < |raws|
      invariant 0 <= i <= |raws|
      invariant MapRecords(raws[..i], ids[..i]) == Success(games)
    {
      var summary := Summarize(raws[i], ids[i]);
      if summary.Failure? {
        FirstFailureDecides(raws, ids, i);
        return Crash(summary.error);
      }
      assert raws[..i + 1][..i] == raws[..i] && ids[..i + 1][..i] == ids[..i];
      games := games + [summary.value];
      i := i + 1;
    }
    assert raws[..i] == raws && ids[..i] == ids;
    return Ok(games);
  }

  /**
   * When the records before k all map and record k does not, the whole list
   * fails with record k's error.
   */
  lemma FirstFailureDecides(raws: seq<RawGame>, ids: seq<string>, k: nat)
    requires |ids| == |raws| && k < |raws|
    requires MapRecords(raws[..k], ids[..k]).Success?
    requires Summarize(raws[k], ids[k]).Failure?
    ensures MapRecords(raws, ids) == Failure(Summarize(raws[k], ids[k]).error)
  {
    var r := MapRecords(raws, ids);
    forall i | 0 <= i < k
      ensures Summarize(raws[i], ids[i]).Success?
    {
      assert raws[..k][i] == raws[i] && ids[..k][i] == ids[i];
    }
    var j :| FirstFailing(raws, ids, j) && r.error == Summarize(raws[j], ids[j]).error;
    assert j == k;
  }

  /**
   * A record with an unreadable platform entry (no `platform` or no `name`
   * key) fails the whole request: no default key is invented.
   */
  lemma UnreadablePlatformFailsRequest(raws: seq<RawGame>, ids: seq<string>, k: nat, e: nat)
    requires |ids| == |raws| && k < |raws|
    requires raws[k].platforms.Entries? && e < |raws[k].platforms.entries|
    requires !WellFormed(raws[k].platforms.entries[e])
    ensures Handle(Success(raws), ids).Crash?
    ensures Status(Handle(Success(raws), ids)) == 500
  {
  }

  /** The worked scenario: one "Portal 2" record with a single "PC" platform. */
  lemma Portal2Scenario(g: RawGame, id: string)
    requires g == RawGame(
      name := Some("Portal 2"), slug := Some("portal-2"), released := Some("2011-04-18"),
      metacritic := Some(95), platforms := Entries([NamedEntry("PC")]),
      backgroundImage := Some("http://x/y.jpg"))
    ensures Handle(Success([g]), [id]) == Ok([GameSummary(
      id := id, title := Some("Portal 2"), description := "portal-2",
      releaseDate := Some("2011-04-18"), reviewScore := 95, platforms := map["pc" := true],
      playerCount := 1, coverUrl := Some("http://x/y.jpg"))])
  {
    var pc := [NamedEntry("PC")];
    assert pc[..0] == [];
    assert PlatformNames.NormalizeName("PC") == "pc";
    assert PlatformFlags(pc) == Success(map["pc" := true]);
    assert [g][..0] == [] && [id][..0] == [];
    assert MapRecords([g][..0], [id][..0]) == Success([]);
  }
}
