/** The `queue` command of rezz/bot.py: the upcoming tracks, ten to a page. */
module Pagination {
  import opened Session

  const MaxTracksPerPage: nat := 10

  /** A shown track with the number displayed beside it. */
  datatype Entry = Entry(number: nat, track: Track)

  datatype QueueView =
    | QueueEmpty
    | PageOutOfBounds(pages: nat)
    | Page(entries: seq<Entry>, page: nat, pages: nat)

  /** `int(math.ceil(n / 10))`: the number of pages `n` tracks fill. */
  function PageCount(n: nat): (pages: nat)
    ensures n == 0 <==> pages == 0
    ensures (pages - 1) * MaxTracksPerPage < n <= pages * MaxTracksPerPage || n == 0
  {
    (n + MaxTracksPerPage - 1) / MaxTracksPerPage
  }

  /** `queue.index(x)`: the position of the first occurrence of `x`. */
  function FirstIndex(queue: seq<Track>, x: Track): (i: nat)
    requires x in queue
    ensures i < |queue| && queue[i] == x
    ensures forall j :: 0 <= j < i ==> queue[j] != x
  {
    if queue[0] == x then 0 else 1 + FirstIndex(queue[1..], x)
  }

  /** The displayed entries for `queue[lo..hi]`, each numbered `queue.index(track) + 1`. */
  function Numbered(queue: seq<Track>, lo: nat, hi: nat): (entries: seq<Entry>)
    requires lo <= hi <= |queue|
    ensures |entries| == hi - lo
    ensures forall k :: 0 <= k < |entries| ==> entries[k].track == queue[lo + k]
    ensures forall k :: 0 <= k < |entries| ==>
      && 1 <= entries[k].number <= lo + k + 1
      && queue[entries[k].number - 1] == entries[k].track
    ensures forall k, j :: 0 <= k < |entries| && 0 <= j < entries[k].number - 1 ==> queue[j] != entries[k].track
    decreases hi - lo
  {
    if lo == hi then []
    else [Entry(FirstIndex(queue, queue[lo]) + 1, queue[lo])] + Numbered(queue, lo + 1, hi)
  }

  /**
    `queue(page)`. An empty queue is reported before the page is looked at; a
    page outside `1..pages` is refused; otherwise the page's slice is shown.
  */
  function QueuePage(queue: seq<Track>, page: int): (v: QueueView)
    ensures v == QueueEmpty <==> |queue| == 0
    ensures v.PageOutOfBounds? <==> |queue| > 0 && !(1 <= page <= PageCount(|queue|))
    ensures v.PageOutOfBounds? ==> v.pages == PageCount(|queue|)
    ensures v.Page? ==> v.page == page && v.pages == PageCount(|queue|)
    ensures v.Page? ==>
      var begin := (page - 1) * MaxTracksPerPage;
      && 0 <= begin < |queue|
      && |v.entries| == Min(MaxTracksPerPage, |queue| - begin)
      && forall k :: 0 <= k < |v.entries| ==> v.entries[k].track == queue[begin + k]
    ensures v.Page? ==> forall k :: 0 <= k < |v.entries| ==>
      && 1 <= v.entries[k].number <= |queue|
      && queue[v.entries[k].number - 1] == v.entries[k].track
      && forall j :: 0 <= j < v.entries[k].number - 1 ==> queue[j] != v.entries[k].track
  {
    var pages := PageCount(|queue|);
    if |queue| <= 0 then QueueEmpty
    else if page <= 0 || page > pages then PageOutOfBounds(pages)
    else if |queue| > MaxTracksPerPage then
      var begin := (page - 1) * MaxTracksPerPage;
      var end := begin + MaxTracksPerPage;
      Page(if end < |queue| then Numbered(queue, begin, end) else Numbered(queue, begin, |queue|), page, pages)
    else
      Page(Numbered(queue, 0, |queue|), page, pages)
  }

  function Min(a: int, b: int): int {
    if a <= b then a else b
  }

  /** A queue of at most ten tracks is shown whole, on its single page. */
  lemma ShortQueueShownWhole(queue: seq<Track>, page: int)
    requires 0 < |queue| <= MaxTracksPerPage
    ensures QueuePage(queue, page).Page? <==> page == 1
    ensures page == 1 ==>
      && |QueuePage(queue, page).entries| == |queue|
      && forall k :: 0 <= k < |queue| ==> QueuePage(queue, page).entries[k].track == queue[k]
  {
  }

  /**
    The pages partition the queue: every position of a non-empty queue is shown
    on exactly one accepted page, at one place.
  */
  lemma EveryTrackOnOnePage(queue: seq<Track>, i: nat)
    requires i < |queue|
    ensures
      var page := i / MaxTracksPerPage + 1;
      && QueuePage(queue, page).Page?
      && |QueuePage(queue, page).entries| > i % MaxTracksPerPage
      && QueuePage(queue, page).entries[i % MaxTracksPerPage].track == queue[i]
    ensures forall p: int :: QueuePage(queue, p).Page? && p != i / MaxTracksPerPage + 1 ==>
      !((p - 1) * MaxTracksPerPage <= i < p * MaxTracksPerPage)
  {
    var page := i / MaxTracksPerPage + 1;
    assert i == (page - 1) * MaxTracksPerPage + i % MaxTracksPerPage;
    assert page <= PageCount(|queue|);
  }

  /**
    When no track is queued twice, the number shown beside a track is its
    position in the queue, counted from 1.
  */
  lemma DistinctQueueNumbering(queue: seq<Track>, page: int, k: nat)
    requires forall i, j :: 0 <= i < j < |queue| ==> queue[i] != queue[j]
    requires QueuePage(queue, page).Page? && k < |QueuePage(queue, page).entries|
    ensures QueuePage(queue, page).entries[k].number == (page - 1) * MaxTracksPerPage + k + 1
  {
  }

  /**
    With duplicates, every copy of a track after the first is numbered by the
    first copy's position.
  */
  lemma DuplicateNumberedByFirst(queue: seq<Track>, page: int, k: nat, i: nat)
    requires QueuePage(queue, page).Page? && k < |QueuePage(queue, page).entries|
    requires i < (page - 1) * MaxTracksPerPage + k && queue[i] == queue[(page - 1) * MaxTracksPerPage + k]
    ensures QueuePage(queue, page).entries[k].number <= i + 1
  {
  }

  /** Twenty-three queued tracks fill three pages, the last holding three. */
  lemma TwentyThreeTracks(queue: seq<Track>)
    requires |queue| == 23
    ensures PageCount(|queue|) == 3
    ensures QueuePage(queue, 4) == PageOutOfBounds(3)
    ensures QueuePage(queue, 0) == PageOutOfBounds(3)
    ensures QueuePage(queue, 3).Page? && |QueuePage(queue, 3).entries| == 3
  {
  }
}
