/**
 * The reshaping of raw catalog records into game summaries done by the
 * `GET /api/games` handler (src/api/main.py:61-73).
 */
module Catalog {
  import opened Wrappers
  import opened PlatformNames

  /** The nested `platform` object of a platform entry; `name` is None when that key is missing. */
  datatype PlatformInfo = PlatformInfo(name: Option<string>)

  /** One element of a record's `platforms` list; `platform` is None when that key is missing. */
  datatype PlatformEntry = PlatformEntry(platform: Option<PlatformInfo>)

  /** The `platforms` field of a raw record: missing, explicitly null, or a list. */
  datatype PlatformList = Absent | Null | Entries(entries: seq<PlatformEntry>)

  /** A raw record as returned by the catalog service; None stands for a missing key or null. */
  datatype RawGame = RawGame(
    name: Option<string>,
    slug: Option<string>,
    released: Option<string>,
    metacritic: Option<int>,
    platforms: PlatformList,
    backgroundImage: Option<string>)

  /** An exception raised while reshaping a record (or by the handler itself). */
  datatype Fault =
    | MissingKey(key: string)      // KeyError on `p["platform"]` or `["name"]`
    | NotIterable                  // TypeError: iterating over a null `platforms`
    | UndefinedName(name: string)  // NameError: a name used without being imported

  /** The simplified game summary served to the front end. */
  datatype GameSummary = GameSummary(
    id: string,
    title: Option<string>,
    description: string,
    releaseDate: Option<string>,
    reviewScore: int,
    platforms: map<string, bool>,
    playerCount: int,
    coverUrl: Option<string>)

  /** Every summary claims a single player, whatever the record says. */
  const SinglePlayer := 1

  /** Python's `x or ""` on an optional string: None and "" are falsy. */
  function OrEmpty(x: Option<string>): string {
    if x.Some? && x.value != "" then x.value else ""
  }

  /** Python's `x or 0` on an optional integer: None and 0 are falsy. */
  function OrZero(x: Option<int>): int {
    if x.Some? && x.value != 0 then x.value else 0
  }

  /** A platform entry from which `p["platform"]["name"]` can be read. */
  predicate WellFormed(p: PlatformEntry) {
    p.platform.Some? && p.platform.value.name.Some?
  }

  /** The key a well-formed platform entry contributes. */
  function KeyOf(p: PlatformEntry): string
    requires WellFormed(p)
  {
    NormalizeName(p.platform.value.name.value)
  }

  /** The KeyError raised by an entry lacking `platform` or `name`. */
  function FaultOf(p: PlatformEntry): Fault
    requires !WellFormed(p)
  {
    if p.platform.None? then MissingKey("platform") else MissingKey("name")
  }

  /** Index j holds the first entry that cannot be read. */
  predicate FirstBad(es: seq<PlatformEntry>, j: int) {
    0 <= j < |es| && !WellFormed(es[j]) && forall i :: 0 <= i < j ==> WellFormed(es[i])
  }

  /** The keys of all well-formed entries of a list. */
  function KeySet(es: seq<PlatformEntry>): set<string> {
    set p | p in es && WellFormed(p) :: KeyOf(p)
  }

  /**
   * The dict comprehension `{normalised name: True for p in entries}`,
   * evaluated left to right: the first unreadable entry raises.
   */
  function PlatformFlags(es: seq<PlatformEntry>): (r: Result<map<string, bool>, Fault>)
    ensures r.Success? <==> forall i :: 0 <= i < |es| ==> WellFormed(es[i])
    ensures r.Success? ==> r.value.Keys == KeySet(es)
    ensures r.Success? ==> forall k :: k in r.value ==> r.value[k]
    ensures r.Failure? ==> exists j :: FirstBad(es, j) && r.error == FaultOf(es[j])
    decreases |es|
  {
    if es == [] then Success(map[])
    else
      var n := |es| - 1;
      var done := PlatformFlags(es[..n]);
      PlatformFlagsSnoc(es, done);
      AddFlag(done, es[n])
  }

  /** The comprehension after one more entry; the first error wins. */
  function AddFlag(done: Result<map<string, bool>, Fault>, p: PlatformEntry): Result<map<string, bool>, Fault> {
    if done.Failure? then done
    else if WellFormed(p) then Success(done.value[KeyOf(p) := true])
    else Failure(FaultOf(p))
  }

  /** What PlatformFlags promises of a prefix carries over to the list after one more entry. */
  lemma PlatformFlagsSnoc(es: seq<PlatformEntry>, done: Result<map<string, bool>, Fault>)
    requires es != []
    requires var front := es[..|es| - 1];
      && (done.Success? <==> forall i :: 0 <= i < |front| ==> WellFormed(front[i]))
      && (done.Success? ==> done.value.Keys == KeySet(front))
      && (done.Success? ==> forall k :: k in done.value ==> done.value[k])
      && (done.Failure? ==> exists j :: FirstBad(front, j) && done.error == FaultOf(front[j]))
    ensures var r := AddFlag(done, es[|es| - 1]);
      && (r.Success? <==> forall i :: 0 <= i < |es| ==> WellFormed(es[i]))
      && (r.Success? ==> r.value.Keys == KeySet(es))
      && (r.Success? ==> forall k :: k in r.value ==> r.value[k])
      && (r.Failure? ==> exists j :: FirstBad(es, j) && r.error == FaultOf(es[j]))
  {
    var n := |es| - 1;
    if done.Failure? {
      var j :| FirstBad(es[..n], j) && done.error == FaultOf(es[..n][j]);
      assert FirstBad(es, j);
    } else if WellFormed(es[n]) {
      KeySetSnoc(es);
      var k := KeyOf(es[n]);
      assert done.value[k := true].Keys == done.value.Keys + {k};
    } else {
      assert FirstBad(es, n);
    }
  }

  /** Appending a well-formed entry adds exactly its key. */
  lemma KeySetSnoc(es: seq<PlatformEntry>)
    requires es != [] && WellFormed(es[|es| - 1])
    ensures KeySet(es) == KeySet(es[..|es| - 1]) + {KeyOf(es[|es| - 1])}
  {
  }

  /**
   * A platform list yields at most one key per entry; fewer when names
   * collide after normalisation.
   */
  lemma {:induction false} KeySetSize(es: seq<PlatformEntry>)
    ensures |KeySet(es)| <= |es|
  {
    if es != [] {
      var n := |es| - 1;
      KeySetSize(es[..n]);
      assert es == es[..n] + [es[n]];
      if WellFormed(es[n]) {
        KeySetSnoc(es);
      } else {
        assert KeySet(es) == KeySet(es[..n]);
      }
    }
  }

  /** `g.get("platforms", [])` fed to the comprehension: a missing list is empty, a null one raises. */
  function PlatformMap(field: PlatformList): (r: Result<map<string, bool>, Fault>)
    ensures field.Absent? ==> r == Success(map[])
    ensures field.Null? ==> r == Failure(NotIterable)
    ensures field.Entries? && field.entries == [] ==> r == Success(map[])
    ensures field.Entries? ==> r == PlatformFlags(field.entries)
    ensures r.Success? ==> forall k :: k in r.value ==> r.value[k] && ' ' !in k
  {
    match field
    case Absent => Success(map[])
    case Null => Failure(NotIterable)
    case Entries(es) => PlatformFlags(es)
  }

  /** The summary built for one raw record, with a freshly generated `id`. */
  function Summarize(g: RawGame, id: string): (r: Result<GameSummary, Fault>)
    ensures r.Success? <==> PlatformMap(g.platforms).Success?
    ensures r.Failure? ==> r.error == PlatformMap(g.platforms).error
    ensures r.Success? ==> r.value.platforms == PlatformMap(g.platforms).value
    ensures r.Success? ==>
      && r.value.id == id
      && r.value.title == g.name
      && r.value.releaseDate == g.released
      && r.value.coverUrl == g.backgroundImage
      && r.value.playerCount == 1
    ensures r.Success? ==>
      r.value.description == (if g.slug.Some? && g.slug.value != "" then g.slug.value else "")
    ensures r.Success? ==> (g.metacritic.Some? ==> r.value.reviewScore == g.metacritic.value)
    ensures r.Success? ==> (g.metacritic.None? ==> r.value.reviewScore == 0)
  {
    match PlatformMap(g.platforms)
    case Failure(f) => Failure(f)
    case Success(flags) =>
      Success(GameSummary(
        id := id,
        title := g.name,
        description := OrEmpty(g.slug),
        releaseDate := g.released,
        reviewScore := OrZero(g.metacritic),
        platforms := flags,
        playerCount := SinglePlayer,
        coverUrl := g.backgroundImage))
  }

  /** Record j is the first whose summary cannot be built. */
  predicate FirstFailing(raws: seq<RawGame>, ids: seq<string>, j: int)
    requires |ids| == |raws|
  {
    0 <= j < |raws|
    && Summarize(raws[j], ids[j]).Failure?
    && forall i :: 0 <= i < j ==> Summarize(raws[i], ids[i]).Success?
  }

  /**
   * The list of summaries for a list of raw records, record i getting id i;
   * the first record whose platforms cannot be read makes the whole list fail.
   */
  function MapRecords(raws: seq<RawGame>, ids: seq<string>): (r: Result<seq<GameSummary>, Fault>)
    requires |ids| == |raws|
    ensures r.Success? <==> forall i :: 0 <= i < |raws| ==> Summarize(raws[i], ids[i]).Success?
    ensures r.Success? ==> |r.value| == |raws|
    ensures r.Success? ==> forall i :: 0 <= i < |raws| ==> r.value[i] == Summarize(raws[i], ids[i]).value
    ensures r.Failure? ==>
      exists j :: FirstFailing(raws, ids, j) && r.error == Summarize(raws[j], ids[j]).error
    decreases |raws|
  {
    if raws == [] then Success([])
    else
      var n := |raws| - 1;
      var done := MapRecords(raws[..n], ids[..n]);
      var last := Summarize(raws[n], ids[n]);
      MapRecordsSnoc(raws, ids, done, last);
      Append(done, last)
  }

  /** One more summary after those already built; the first error wins. */
  function Append(done: Result<seq<GameSummary>, Fault>, last: Result<GameSummary, Fault>)
    : Result<seq<GameSummary>, Fault>
  {
    if done.Failure? then done
    else if last.Failure? then Failure(last.error)
    else Success(done.value + [last.value])
  }

  /** What MapRecords promises of a prefix carries over to the whole list after one more record. */
  lemma MapRecordsSnoc(raws: seq<RawGame>, ids: seq<string>,
                       done: Result<seq<GameSummary>, Fault>, last: Result<GameSummary, Fault>)
    requires |ids| == |raws| > 0
    requires last == Summarize(raws[|raws| - 1], ids[|raws| - 1])
    requires var n := |raws| - 1;
      && (done.Success? <==> forall i :: 0 <= i < n ==> Summarize(raws[..n][i], ids[..n][i]).Success?)
      && (done.Success? ==> |done.value| == n)
      && (done.Success? ==> forall i :: 0 <= i < n ==> done.value[i] == Summarize(raws[..n][i], ids[..n][i]).value)
      && (done.Failure? ==> exists j :: FirstFailing(raws[..n], ids[..n], j)
                                     && done.error == Summarize(raws[..n][j], ids[..n][j]).error)
    ensures var r := Append(done, last);
      && (r.Success? <==> forall i :: 0 <= i < |raws| ==> Summarize(raws[i], ids[i]).Success?)
      && (r.Success? ==> |r.value| == |raws|)
      && (r.Success? ==> forall i :: 0 <= i < |raws| ==> r.value[i] == Summarize(raws[i], ids[i]).value)
      && (r.Failure? ==> exists j :: FirstFailing(raws, ids, j) && r.error == Summarize(raws[j], ids[j]).error)
  {
    var n := |raws| - 1;
    var front, frontIds := raws[..n], ids[..n];
    assert forall i :: 0 <= i < n ==> front[i] == raws[i] && frontIds[i] == ids[i];
    if done.Failure? {
      var j :| FirstFailing(front, frontIds, j) && done.error == Summarize(front[j], frontIds[j]).error;
      assert FirstFailing(raws, ids, j);
    } else if last.Failure? {
      assert FirstFailing(raws, ids, n);
    }
  }

  /** An entry whose platform carries the given name. */
  function NamedEntry(name: string): PlatformEntry {
    PlatformEntry(Some(PlatformInfo(Some(name))))
  }

  /** Two platform names that normalise alike collapse into a single key. */
  lemma DuplicateNamesCollapse(a: string, b: string)
    requires NormalizeName(a) == NormalizeName(b)
    ensures PlatformFlags([NamedEntry(a), NamedEntry(b)]) == Success(map[NormalizeName(a) := true])
  {
    var es, k := [NamedEntry(a), NamedEntry(b)], NormalizeName(a);
    assert es[..1] == [NamedEntry(a)] && es[..1][..0] == [];
    assert PlatformFlags(es[..1]) == Success(map[k := true]);
    assert map[k := true][k := true] == map[k := true];
  }
}
