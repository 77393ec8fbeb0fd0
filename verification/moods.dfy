/** Listing and creating mood entries (`MoodEntryServiceImpl`): the
    conjunctive filter the specification builds, the page the repository
    returns for it, the zero-based to one-based page mapping, the per-entry
    response, and `createMood`. */
module MoodQuery {
  import opened Base
  import opened Domain

  // ----------------------------------------------------------------- filter

  /** `endDate.atTime(23, 59, 59)`: the last whole second of the day. */
  const EndOfDayOffset: int := 86_399_000

  /** The query: the owner's id and the optional start date, end date (epoch
      days) and emotion. */
  datatype MoodFilter = MoodFilter(userId: int, startDate: Option<int>, endDate: Option<int>, emotion: Option<Emotion>)

  /** The unfiltered listing of one user's entries. */
  function OwnerOnly(userId: int): MoodFilter {
    MoodFilter(userId, None, None, None)
  }

  predicate OwnedBy(e: MoodEntry, userId: int) {
    e.user.Some? && e.user.value.id == Some(userId)
  }

  /** The specification's predicate: the owner always, and each bound or
      emotion only when given. A comparison with a null record time is not
      true in SQL, so such an entry fails any date bound. */
  predicate Matches(f: MoodFilter, e: MoodEntry) {
    && OwnedBy(e, f.userId)
    && (f.startDate.Some? ==> e.recordTime.Some? && StartOfDay(f.startDate.value) <= e.recordTime.value)
    && (f.endDate.Some? ==> e.recordTime.Some? && e.recordTime.value <= StartOfDay(f.endDate.value) + EndOfDayOffset)
    && (f.emotion.Some? ==> e.emotion == f.emotion)
  }

  /** The matching rows in repository order. */
  function Query(rows: seq<MoodEntry>, f: MoodFilter): (r: seq<MoodEntry>)
    ensures |r| <= |rows|
    ensures forall e :: e in r <==> e in rows && Matches(f, e)
  {
    Filter(rows, e => Matches(f, e))
  }

  /** Without dates or emotion the listing is exactly the owner's entries. */
  lemma OwnerOnlyListsOwnEntries(userId: int, e: MoodEntry)
    ensures Matches(OwnerOnly(userId), e) <==> OwnedBy(e, userId)
  {
  }

  /** Each optional part only narrows the result: dropping the start date,
      the end date or the emotion never loses an entry. */
  lemma ConstraintsOnlyNarrow(f: MoodFilter, e: MoodEntry)
    requires Matches(f, e)
    ensures Matches(f.(startDate := None), e)
    ensures Matches(f.(endDate := None), e)
    ensures Matches(f.(emotion := None), e)
    ensures Matches(OwnerOnly(f.userId), e)
  {
  }

  /** A one-day query (start and end on day `d`) takes an entry recorded on
      that day up to 23:59:59 and no entry of any other day. */
  lemma OneDayQuery(userId: int, d: int, e: MoodEntry)
    requires OwnedBy(e, userId) && e.recordTime.Some?
    ensures Matches(MoodFilter(userId, Some(d), Some(d), None), e) <==>
      StartOfDay(d) <= e.recordTime.value <= StartOfDay(d) + EndOfDayOffset
    ensures Matches(MoodFilter(userId, Some(d), Some(d), None), e) ==>
      StartOfDay(d) <= e.recordTime.value < StartOfDay(d + 1)
  {
  }

  /** The end bound is the last whole second: an entry in the final second
      of the end date (23:59:59.5) is not listed. */
  lemma FinalSecondIsNotListed(userId: int, d: int, e: MoodEntry)
    requires OwnedBy(e, userId) && e.recordTime == Some(StartOfDay(d) + EndOfDayOffset + 500)
    ensures e.recordTime.value < StartOfDay(d + 1)
    ensures !Matches(MoodFilter(userId, None, Some(d), None), e)
  {
  }

  // ------------------------------------------------------------------- page

  /** The requested page: zero-based number and size. */
  datatype PageRequest = PageRequest(number: nat, size: nat)

  /** Spring's `PageImpl`: one slice of the matches, the request and the
      number of matches overall. */
  datatype Page<T> = Page(content: seq<T>, number: nat, size: nat, totalElements: nat) {
    /** `getTotalPages`: the ceiling of total over size (1 when unpaged). */
    function TotalPages(): nat {
      if size == 0 then 1 else (totalElements + size - 1) / size
    }

    predicate HasNext() {
      number + 1 < TotalPages()
    }

    predicate HasPrevious() {
      number > 0
    }
  }

  function Min(a: int, b: int): int {
    if a <= b then a else b
  }

  /** The `size` items of `all` from position `lo` on, fewer at the end. */
  function Slice<T>(all: seq<T>, lo: nat, size: nat): (r: seq<T>)
    ensures |r| <= size
    ensures lo < |all| ==> r == all[lo..Min(lo + size, |all|)]
    ensures lo >= |all| ==> r == []
    ensures forall x :: x in r ==> x in all
  {
    if lo < |all| then
      var r := all[lo..Min(lo + size, |all|)];
      assert forall x :: x in r ==> x in all by {
        forall x | x in r ensures x in all {
          var k :| 0 <= k < |r| && r[k] == x;
          assert r[k] == all[lo + k];
        }
      }
      r
    else []
  }

  /** `findAll(spec, pageable)`: the page-th slice of the matches. A page
      request always has a positive size. */
  function FindAll(rows: seq<MoodEntry>, f: MoodFilter, req: PageRequest): (p: Page<MoodEntry>)
    requires req.size >= 1
    ensures p.number == req.number && p.size == req.size && p.totalElements == |Query(rows, f)|
    ensures |p.content| <= req.size
    ensures forall e :: e in p.content ==> e in rows && Matches(f, e)
    ensures p.content == Slice(Query(rows, f), req.number * req.size, req.size)
  {
    var all := Query(rows, f);
    Page(Slice(all, req.number * req.size, req.size), req.number, req.size, |all|)
  }

  lemma {:induction false} ProductIncreases(a: int, b: int, s: int)
    requires s > 0 && a < b
    ensures a * s < b * s
    decreases b - a
  {
    assert (a + 1) * s == a * s + s;
    if a + 1 < b {
      ProductIncreases(a + 1, b, s);
    }
  }

  /** With a positive factor, products compare as their other factors do. */
  lemma ProductOrder(a: int, b: int, s: int)
    requires s > 0
    ensures a * s < b * s <==> a < b
  {
    if a < b {
      ProductIncreases(a, b, s);
    } else if b < a {
      ProductIncreases(b, a, s);
    }
  }

  /** There is a next page exactly when some match lies beyond this one. */
  lemma HasNextIffMoreMatches(p: Page<MoodEntry>)
    requires p.size >= 1
    ensures p.HasNext() <==> (p.number + 1) * p.size < p.totalElements
  {
    var s: int := p.size;
    var t: int := p.totalElements;
    var n: int := p.number;
    var q: int := (t + s - 1) / s;
    var r := (t + s - 1) % s;
    assert t + s - 1 == q * s + r && 0 <= r < s;
    assert q * s - s < t <= q * s;
    assert (n + 2) * s == (n + 1) * s + s;
    ProductOrder(n + 1, q, s);
    ProductOrder(q, n + 2, s);
  }

  /** The page shown to the client: numbered from one; everything else is
      the page's own. */
  datatype PaginationInfo = PaginationInfo(currentPage: int, perPage: int, totalCount: int, totalPages: int, hasNext: bool, hasPrev: bool)

  function Pagination(p: Page<MoodEntry>): (info: PaginationInfo)
    ensures info.currentPage == p.number + 1 && info.currentPage >= 1
    ensures info.perPage == p.size && info.totalCount == p.totalElements && info.totalPages == p.TotalPages()
    ensures info.hasNext == p.HasNext() && info.hasPrev == p.HasPrevious()
    ensures info.hasPrev <==> info.currentPage > 1
  {
    PaginationInfo(p.number + 1, p.size, p.totalElements, p.TotalPages(), p.HasNext(), p.HasPrevious())
  }

  // --------------------------------------------------------------- response

  /** One listed entry; the emotion appears by name. */
  datatype MoodResponse = MoodResponse(
    id: Option<int>,
    userId: Option<int>,
    emotionType: string,
    description: Option<string>,
    triggers: Option<seq<string>>,
    recordTime: Option<int>,
    createdAt: Option<int>,
    updatedAt: Option<int>)

  /** `convertToResponse`; `None` when the entry has no user or no emotion
      (the getter chain dereferences null). */
  function ConvertToResponse(e: MoodEntry): (r: Option<MoodResponse>)
    ensures r.Some? <==> e.user.Some? && e.emotion.Some?
    ensures r.Some? ==> r.value.emotionType == e.emotion.value.name && r.value.userId == e.user.value.id
    ensures r.Some? ==> r.value.id == e.id && r.value.description == e.description && r.value.triggers == e.triggers
    ensures r.Some? ==> r.value.recordTime == e.recordTime && r.value.createdAt == e.createdAt && r.value.updatedAt == e.updatedAt
  {
    if e.user.None? || e.emotion.None? then None
    else Some(MoodResponse(e.id, e.user.value.id, e.emotion.value.name, e.description, e.triggers, e.recordTime, e.createdAt, e.updatedAt))
  }

  /** The mapped stream: same length and order, failing on the first entry
      that cannot be converted. */
  function ConvertAll(es: seq<MoodEntry>): (r: Option<seq<MoodResponse>>)
    ensures r.Some? <==> forall i :: 0 <= i < |es| ==> ConvertToResponse(es[i]).Some?
    ensures r.Some? ==> |r.value| == |es| && forall i :: 0 <= i < |es| ==> Some(r.value[i]) == ConvertToResponse(es[i])
    decreases |es|
  {
    if |es| == 0 then Some([])
    else match (ConvertToResponse(es[0]), ConvertAll(es[1..]))
      case (Some(x), Some(xs)) => Some([x] + xs)
      case _ => None
  }

  datatype PaginatedMoodResponse = PaginatedMoodResponse(moods: seq<MoodResponse>, pagination: PaginationInfo)

  /** What the service methods throw. */
  datatype MoodFault = NullReference | UnparsableTime(text: string)

  /** `getMoods`: the page of matches, each converted, with its pagination. */
  function GetMoods(rows: seq<MoodEntry>, f: MoodFilter, req: PageRequest): (r: Result<PaginatedMoodResponse, MoodFault>)
    requires req.size >= 1
    ensures r.Ok? <==> ConvertAll(FindAll(rows, f, req).content).Some?
    ensures r.Err? ==> r.error == NullReference
    ensures r.Ok? ==>
      && |r.value.moods| == |FindAll(rows, f, req).content|
      && r.value.pagination.currentPage == req.number + 1
      && r.value.pagination.totalCount == |Query(rows, f)|
      && (forall i :: 0 <= i < |r.value.moods| ==>
            exists e :: e in rows && Matches(f, e) && ConvertToResponse(e) == Some(r.value.moods[i]))
    ensures r.Ok? ==>
      forall i :: 0 <= i < |r.value.moods| ==> Some(r.value.moods[i]) == ConvertToResponse(FindAll(rows, f, req).content[i])
    ensures r.Ok? ==> r.value.pagination == Pagination(FindAll(rows, f, req))
  {
    var page := FindAll(rows, f, req);
    match ConvertAll(page.content)
    case None => Err(NullReference)
    case Some(moods) =>
      assert forall i :: 0 <= i < |moods| ==> page.content[i] in page.content;
      Ok(PaginatedMoodResponse(moods, Pagination(page)))
  }

  // ----------------------------------------------------------------- create

  /** The create request; `recordTime` is ISO-8601 text. */
  datatype CreateMoodRequest = CreateMoodRequest(
    moodType: Option<Emotion>,
    description: Option<string>,
    triggers: Option<seq<string>>,
    shareToPublic: bool,
    recordTime: Option<string>,
    anonymous: bool)

  /** The saved entries and the next identity value. */
  datatype MoodStore = MoodStore(rows: seq<MoodEntry>, nextId: int)

  /** `createMood`: the request's fields on a new entry of `user`, recorded
      at the parsed request time or else at `now`, saved with the next id.
      Text that does not parse throws. */
  function CreateMood(req: CreateMoodRequest, user: UserRef, now: int, parseTime: string -> Option<int>,
                      store: MoodStore): (r: Result<(MoodEntry, MoodStore), MoodFault>)
    ensures r.Err? <==> req.recordTime.Some? && parseTime(req.recordTime.value).None?
    ensures r.Err? ==> r.error == UnparsableTime(req.recordTime.value)
    ensures r.Ok? ==>
      var e := r.value.0;
      && e.id == Some(store.nextId) && e.user == Some(user)
      && e.emotion == req.moodType && e.description == req.description && e.triggers == req.triggers
      && e.shareToPublic == req.shareToPublic && e.anonymous == req.anonymous
      && e.recordTime == Some(if req.recordTime.Some? then parseTime(req.recordTime.value).value else now)
      && r.value.1 == MoodStore(store.rows + [e], store.nextId + 1)
  {
    var time :=
      if req.recordTime.None? then Some(now) else parseTime(req.recordTime.value);
    match time
    case None => Err(UnparsableTime(req.recordTime.value))
    case Some(t) =>
      var e := MoodEntry(Some(store.nextId), Some(user), req.moodType, req.description, None, None,
                         req.triggers, req.shareToPublic, req.anonymous, Some(t), None, None);
      Ok((e, MoodStore(store.rows + [e], store.nextId + 1)))
  }

  /** A created entry shows up in its owner's unfiltered listing, and in
      the one-day listing of the day it was recorded on. */
  lemma CreatedEntryIsListed(req: CreateMoodRequest, userId: int, now: int, parseTime: string -> Option<int>,
                             store: MoodStore, d: int)
    requires CreateMood(req, UserRef(Some(userId)), now, parseTime, store).Ok?
    ensures var (e, st) := CreateMood(req, UserRef(Some(userId)), now, parseTime, store).value;
      && e in Query(st.rows, OwnerOnly(userId))
      && (StartOfDay(d) <= e.recordTime.value <= StartOfDay(d) + EndOfDayOffset ==>
            e in Query(st.rows, MoodFilter(userId, Some(d), Some(d), None)))
  {
    var (e, st) := CreateMood(req, UserRef(Some(userId)), now, parseTime, store).value;
    assert e in st.rows;
  }
}
