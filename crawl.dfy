/**
 * The entities of the crawler and the specification of one crawl pass as
 * functions: what fetchPage queues and returns for one page, what the page
 * loop of fetchMessages accumulates, and the state a whole fetchMessages
 * call leaves behind. The class in module XfBot runs these steps one at a
 * time and is proved to agree with them.
 */
module Crawl {
  import opened Wrappers
  import opened Strconv
  import opened Links

  /** A post author. */
  datatype User = User(id: int, name: string)

  /** A post as it waits in the queue to be sent; `time` is in Unix seconds. */
  datatype Message = Message(createdBy: User, time: int, body: string, url: string, id: int)

  /** A thread's record in the `stats` collection; the thread id is the map key. */
  datatype Stat = Stat(page: int, postId: int)

  /**
   * One `article.message` element as fetchPage's selectors read it: the
   * `data-content` attribute, the author's `data-user-id` and name, the body
   * text, the `data-time` attribute and the permalink. A missing attribute
   * reads as "".
   */
  datatype Article = Article(dataContent: string, userId: string, userName: string,
                             body: string, time: string, permalink: string)

  /**
   * A fetched page: its articles in document order, and the text of the
   * last page link inside `.pageNav-main` ("" when the thread has no
   * page navigation).
   */
  datatype Document = Document(articles: seq<Article>, pageNav: string)

  /**
   * The forum as getDocument sees it: the document served at each address.
   * An address outside the map is a request that failed (a nil document).
   */
  type Web = map<string, Document>

  /** Slicing `data-content` from offset 5 panics on a shorter value. */
  predicate HasPostId(a: Article) {
    |a.dataContent| >= 5
  }

  /** The first n articles all have a post id. */
  predicate HaveIds(arts: seq<Article>, n: nat)
    requires n <= |arts|
  {
    forall j :: 0 <= j < n ==> HasPostId(arts[j])
  }

  function IdOf(a: Article): int
    requires HasPostId(a)
  {
    PostIdOf(a.dataContent)
  }

  /** The queued message for an article; ids, user id and time are read with ParseInt(…, 0, 64). */
  function ToMessage(a: Article): (m: Message)
    requires HasPostId(a)
    ensures m.id == IdOf(a) && m.body == a.body && m.url == a.permalink && m.createdBy.name == a.userName
    ensures IsInt64(m.time) && IsInt64(m.createdBy.id)
  {
    Message(User(ParseInt(a.userId, 0), a.userName), ParseInt(a.time, 0), a.body, a.permalink, IdOf(a))
  }

  /** The first index from i on whose article has no post id, or |arts|. */
  function FirstShort(arts: seq<Article>, i: nat): (k: nat)
    requires i <= |arts|
    ensures i <= k <= |arts|
    decreases |arts| - i
  {
    if i == |arts| || !HasPostId(arts[i]) then i else FirstShort(arts, i + 1)
  }

  /** How many articles fetchPage handles before one whose id slice panics. */
  function Intact(arts: seq<Article>): (k: nat)
    ensures k <= |arts|
  {
    FirstShort(arts, 0)
  }

  /** FirstShort(arts, i) is k exactly when the articles i..k-1 have ids and article k (if any) has none. */
  lemma {:induction false} FirstShortIs(arts: seq<Article>, i: nat, k: nat)
    requires i <= k <= |arts|
    requires forall j :: i <= j < k ==> HasPostId(arts[j])
    requires k < |arts| ==> !HasPostId(arts[k])
    ensures FirstShort(arts, i) == k
    decreases k - i
  {
    if i < k {
      FirstShortIs(arts, i + 1, k);
    }
  }

  lemma {:induction false} FirstShortSound(arts: seq<Article>, i: nat)
    requires i <= |arts|
    ensures forall j :: i <= j < FirstShort(arts, i) ==> HasPostId(arts[j])
    ensures FirstShort(arts, i) < |arts| ==> !HasPostId(arts[FirstShort(arts, i)])
    decreases |arts| - i
  {
    if i < |arts| && HasPostId(arts[i]) {
      FirstShortSound(arts, i + 1);
    }
  }

  /** Every article before Intact(arts) has a post id, and the one at Intact(arts), if any, has none. */
  lemma IntactSpec(arts: seq<Article>)
    ensures HaveIds(arts, Intact(arts))
    ensures Intact(arts) < |arts| ==> !HasPostId(arts[Intact(arts)])
  {
    FirstShortSound(arts, 0);
  }

  /** Conversely, the first article without a post id is where fetchPage panics. */
  lemma IntactStopsAt(arts: seq<Article>, i: nat)
    requires i <= |arts| && HaveIds(arts, i)
    requires i < |arts| ==> !HasPostId(arts[i])
    ensures Intact(arts) == i
  {
    FirstShortIs(arts, 0, i);
  }

  predicate AllNewerThan(q: seq<Message>, storedPostId: int) {
    forall i :: 0 <= i < |q| ==> q[i].id > storedPostId
  }

  /** What fetchPage appends for one article: its message when its id is above storedPostId. */
  function Entry(a: Article, storedPostId: int): seq<Message>
    requires HasPostId(a)
  {
    if IdOf(a) > storedPostId then [ToMessage(a)] else []
  }

  /** The messages fetchPage appends for the first n articles: those with an id above storedPostId, in document order. */
  function Queued(arts: seq<Article>, n: nat, storedPostId: int): (q: seq<Message>)
    requires n <= |arts| && HaveIds(arts, n)
    ensures |q| <= n
    decreases n
  {
    if n == 0 then [] else Queued(arts, n - 1, storedPostId) + Entry(arts[n - 1], storedPostId)
  }

  /** The id fetchPage holds after the first n articles: that of the last one, 0 when n is 0. */
  function LastId(arts: seq<Article>, n: nat): int
    requires n <= |arts| && HaveIds(arts, n)
  {
    if n == 0 then 0 else IdOf(arts[n - 1])
  }

  /**
   * What one fetchPage call does: the messages it appends to the queue,
   * and the id and page count it returns, or a panic after queueing the
   * articles before the offending one.
   */
  datatype PageScan = Scanned(queued: seq<Message>, lastId: int, newPage: int) | Crashed(queued: seq<Message>)

  function ScanPage(web: Web, threadLink: string, pageNo: int, storedPostId: int): (r: PageScan)
    ensures PageUrl(threadLink, pageNo) !in web ==> r == Scanned([], 0, 1)
    ensures r.Crashed? ==> PageUrl(threadLink, pageNo) in web
    ensures PageUrl(threadLink, pageNo) in web && r.Scanned? ==> r.newPage == Atoi(web[PageUrl(threadLink, pageNo)].pageNav)
  {
    var url := PageUrl(threadLink, pageNo);
    if url !in web then Scanned([], 0, 1)
    else
      var arts := web[url].articles;
      var k := Intact(arts);
      IntactSpec(arts);
      if k < |arts| then Crashed(Queued(arts, k, storedPostId))
      else Scanned(Queued(arts, k, storedPostId), LastId(arts, k), Atoi(web[url].pageNav))
  }

  /** What the page loop of fetchMessages accumulates: the queued messages and the last id returned, or a panic. */
  datatype Sweep = Swept(queued: seq<Message>, lastId: int) | SweepCrashed(queued: seq<Message>)

  /** The same sweep with q queued before it. */
  function Prepend(q: seq<Message>, s: Sweep): (r: Sweep)
    ensures r.queued == q + s.queued
    ensures r.Swept? <==> s.Swept?
  {
    match s
    case Swept(q2, id) => Swept(q + q2, id)
    case SweepCrashed(q2) => SweepCrashed(q + q2)
  }

  /** Queueing q1 and then q2 ahead of a sweep is queueing q1 + q2 ahead of it. */
  lemma PrependTwice(q1: seq<Message>, q2: seq<Message>, s: Sweep)
    ensures Prepend(q1, Prepend(q2, s)) == Prepend(q1 + q2, s)
  {
    assert forall q3: seq<Message> :: q1 + (q2 + q3) == q1 + q2 + q3;
  }

  /** Pages lo..hi fetched in increasing order, each replacing the last id; lastId is the value before the first. */
  function SweepPages(web: Web, threadLink: string, lo: int, hi: int, storedPostId: int, lastId: int): (r: Sweep)
    ensures lo > hi ==> r == Swept([], lastId)
    ensures lo <= hi && ScanPage(web, threadLink, lo, storedPostId).Crashed? ==> r == SweepCrashed(ScanPage(web, threadLink, lo, storedPostId).queued)
    decreases hi - lo
  {
    if lo > hi then Swept([], lastId)
    else
      match ScanPage(web, threadLink, lo, storedPostId)
      case Crashed(q) => SweepCrashed(q)
      case Scanned(q, id, _) => Prepend(q, SweepPages(web, threadLink, lo + 1, hi, storedPostId, id))
  }

  /** How a fetchMessages call ends. */
  datatype Outcome =
    | NoThreadId    // the thread link has no '.': indexing the split panics
    | NoRecord      // getLastInfo finds no record and calls log.Fatal
    | DuplicateKey  // initCollection adds a second record, cannot build the unique index and calls log.Fatal
    | PostIdPanic   // an article's `data-content` is shorter than five characters
    | Hangs         // the page loop does not end normally: its counter cannot pass the int64 maximum
    | Idle          // the first fetch returned id 0: nothing is written or sent
    | Published     // the watermark was written and the queue sent and cleared

  /** The package state: the `stats` collection, the global `messages` queue, and what was handed to the bot. */
  datatype State = State(store: map<int, Stat>, messages: seq<Message>, sent: seq<string>)

  /** updateInfo: sets both fields of an existing record; without a record nothing is written (no upsert). */
  function Updated(store: map<int, Stat>, threadId: int, page: int, postId: int): (r: map<int, Stat>)
    ensures r.Keys == store.Keys
    ensures threadId in store ==> r[threadId] == Stat(page, postId)
    ensures forall t :: t in store && t != threadId ==> r[t] == store[t]
  {
    if threadId in store then store[threadId := Stat(page, postId)] else store
  }

  /**
   * initCollection: adds {page 1, post 0}. None when the thread already has a
   * record: the Go code then stores a second record for it, fails to build the
   * unique index and calls log.Fatal; one record per thread cannot hold the
   * second record.
   */
  function Inserted(store: map<int, Stat>, threadId: int): (r: Option<map<int, Stat>>)
    ensures r.None? <==> threadId in store
    ensures r.Some? ==> r.value.Keys == store.Keys + {threadId} && r.value[threadId] == Stat(1, 0)
    ensures r.Some? ==> forall t :: t in store ==> r.value[t] == store[t]
  {
    if threadId in store then None else Some(store[threadId := Stat(1, 0)])
  }

  /** The texts the publishing loop hands to the bot for a queue, in queue order. */
  function Render(threadId: int, q: seq<Message>): (r: seq<string>)
    ensures |r| == |q|
    decreases |q|
  {
    if q == [] then []
    else
      var m := q[|q| - 1];
      Render(threadId, q[..|q| - 1]) + [MakeMessage(threadId, m.body, m.url, m.time, m.createdBy.name)]
  }

  /** The i-th text sent is the rendering of the i-th queued message. */
  lemma {:induction false} RenderAt(threadId: int, q: seq<Message>, i: nat)
    requires i < |q|
    ensures Render(threadId, q)[i] == MakeMessage(threadId, q[i].body, q[i].url, q[i].time, q[i].createdBy.name)
    decreases |q|
  {
    if i < |q| - 1 {
      RenderAt(threadId, q[..|q| - 1], i);
    }
  }

  /** Rendering a queue renders its parts one after the other. */
  lemma {:induction false} RenderAppend(threadId: int, a: seq<Message>, b: seq<Message>)
    ensures Render(threadId, a + b) == Render(threadId, a) + Render(threadId, b)
    decreases |b|
  {
    if b == [] {
      assert a + b == a;
    } else {
      var b' := b[..|b| - 1];
      assert (a + b)[..|a + b| - 1] == a + b';
      RenderAppend(threadId, a, b');
    }
  }

  /**
   * One fetchMessages call as written: the state it leaves and how it ends.
   * The stored page is fetched once on its own and, when the site reports
   * more pages, again as the first page of the loop; the id written back is
   * the one the last fetch returned.
   */
  function Run(st: State, web: Web, threadLink: string): (r: (State, Outcome))
    ensures r.0.store.Keys == st.store.Keys
    ensures r.1 != Published ==> r.0.store == st.store && r.0.sent == st.sent
  {
    match ThreadIdOf(threadLink)
    case None => (st, NoThreadId)
    case Some(t) =>
      if t !in st.store then (st, NoRecord)
      else
        var rec := st.store[t];
        if rec.postId == 0 then
          // The record exists, so initCollection fails (see Inserted).
          assert Inserted(st.store, t).None?;
          (st, DuplicateKey)
        else
          match ScanPage(web, threadLink, rec.page, rec.postId)
          case Crashed(q) => (st.(messages := st.messages + q), PostIdPanic)
          case Scanned(q1, id1, newest) =>
            var m1 := st.messages + q1;
            if id1 == 0 then (st.(messages := m1), Idle)
            else if rec.page < newest && newest == MaxInt64 then (st.(messages := m1), Hangs)
            else
              var sweep := if rec.page < newest
                           then SweepPages(web, threadLink, rec.page, newest, rec.postId, id1)
                           else Swept([], id1);
              match sweep
              case SweepCrashed(q) => (st.(messages := m1 + q), PostIdPanic)
              case Swept(q, id) =>
                (State(Updated(st.store, t, newest, id), [], st.sent + Render(t, m1 + q)), Published)
  }

  // ---------------------------------------------------------------------------
  // Properties of one page

  /** Every queued message has an id above the stored one. */
  lemma {:induction false} QueuedNewer(arts: seq<Article>, n: nat, storedPostId: int)
    requires n <= |arts| && HaveIds(arts, n)
    ensures AllNewerThan(Queued(arts, n, storedPostId), storedPostId)
    decreases n
  {
    if n > 0 {
      QueuedNewer(arts, n - 1, storedPostId);
    }
  }

  /** Every article among the first n with an id above storedPostId has its message queued. */
  lemma {:induction false} QueuedComplete(arts: seq<Article>, n: nat, storedPostId: int, j: nat)
    requires n <= |arts| && HaveIds(arts, n)
    requires j < n && IdOf(arts[j]) > storedPostId
    ensures ToMessage(arts[j]) in Queued(arts, n, storedPostId)
    decreases n
  {
    if j < n - 1 {
      QueuedComplete(arts, n - 1, storedPostId, j);
    }
  }

  /** Every queued message comes from one of the first n articles with an id above storedPostId. */
  lemma {:induction false} QueuedSound(arts: seq<Article>, n: nat, storedPostId: int, m: Message)
    requires n <= |arts| && HaveIds(arts, n)
    requires m in Queued(arts, n, storedPostId)
    ensures exists j :: 0 <= j < n && IdOf(arts[j]) > storedPostId && m == ToMessage(arts[j])
    decreases n
  {
    if m in Queued(arts, n - 1, storedPostId) {
      QueuedSound(arts, n - 1, storedPostId, m);
    } else {
      assert m in Entry(arts[n - 1], storedPostId);
    }
  }

  /** A message is queued exactly when one of the first n articles has an id above storedPostId and yields it. */
  lemma QueuedMembers(arts: seq<Article>, n: nat, storedPostId: int, m: Message)
    requires n <= |arts| && HaveIds(arts, n)
    ensures m in Queued(arts, n, storedPostId) <==>
      exists j :: 0 <= j < n && IdOf(arts[j]) > storedPostId && m == ToMessage(arts[j])
  {
    if m in Queued(arts, n, storedPostId) {
      QueuedSound(arts, n, storedPostId, m);
    } else if j :| 0 <= j < n && IdOf(arts[j]) > storedPostId && m == ToMessage(arts[j]) {
      QueuedComplete(arts, n, storedPostId, j);
    }
  }

  /** What the first m articles queue stays at the head of what the first n queue: later articles only append. */
  lemma {:induction false} QueuedPrefix(arts: seq<Article>, m: nat, n: nat, storedPostId: int)
    requires m <= n <= |arts| && HaveIds(arts, n)
    ensures HaveIds(arts, m) && Queued(arts, m, storedPostId) <= Queued(arts, n, storedPostId)
    decreases n - m
  {
    if m < n {
      QueuedPrefix(arts, m, n - 1, storedPostId);
      var x := Queued(arts, n - 1, storedPostId);
      assert (x + Entry(arts[n - 1], storedPostId))[..|x|] == x;
    }
  }

  /** Two new posts are queued in document order: the earlier one sits before the later one in the queue. */
  lemma QueuedInOrder(arts: seq<Article>, n: nat, storedPostId: int, i: nat, j: nat)
    requires n <= |arts| && HaveIds(arts, n)
    requires i < j < n && IdOf(arts[i]) > storedPostId && IdOf(arts[j]) > storedPostId
    ensures exists p, r :: Queued(arts, n, storedPostId) == p + [ToMessage(arts[j])] + r && ToMessage(arts[i]) in p
  {
    QueuedPrefix(arts, j + 1, n, storedPostId);
    var p := Queued(arts, j, storedPostId);
    assert ToMessage(arts[i]) in p by {
      QueuedComplete(arts, j, storedPostId, i);
    }
    var head := Queued(arts, j + 1, storedPostId);
    assert head == p + [ToMessage(arts[j])];
    var full := Queued(arts, n, storedPostId);
    PrefixSplit(head, full);
  }

  lemma PrefixSplit<T>(head: seq<T>, full: seq<T>)
    requires head <= full
    ensures full == head + full[|head|..]
  {
  }

  /**
   * fetchPage returns the id of the last article even when an earlier one
   * is larger: with `post-<hi>` followed by `post-<lo>` (any five-character
   * prefix) and a stored id between them, hi is queued and lo, below the
   * stored id, is returned.
   */
  lemma LastIdIsNotMaximum(a: Article, b: Article, prefix: string, hi: int, lo: int, storedPostId: int)
    requires |prefix| == 5 && IsInt64(hi) && IsInt64(lo)
    requires a.dataContent == prefix + Itoa(hi) && b.dataContent == prefix + Itoa(lo)
    requires lo <= storedPostId < hi
    ensures HaveIds([a, b], 2)
    ensures Queued([a, b], 2, storedPostId) == [ToMessage(a)]
    ensures LastId([a, b], 2) == lo
  {
    PostIdRoundTrip(prefix, hi);
    PostIdRoundTrip(prefix, lo);
    assert IdOf(a) == hi && IdOf(b) == lo;
  }

  // ---------------------------------------------------------------------------
  // Properties of the page loop

  /** The id the loop ends with is the one the fetch of its last page returned. */
  lemma {:induction false} SweepLastId(web: Web, threadLink: string, lo: int, hi: int, storedPostId: int, lastId: int)
    requires lo <= hi
    requires SweepPages(web, threadLink, lo, hi, storedPostId, lastId).Swept?
    ensures ScanPage(web, threadLink, hi, storedPostId).Scanned?
    ensures SweepPages(web, threadLink, lo, hi, storedPostId, lastId).lastId
         == ScanPage(web, threadLink, hi, storedPostId).lastId
    decreases hi - lo
  {
    var first := ScanPage(web, threadLink, lo, storedPostId);
    if lo < hi {
      SweepLastId(web, threadLink, lo + 1, hi, storedPostId, first.lastId);
    }
  }

  lemma NewerConcat(a: seq<Message>, b: seq<Message>, storedPostId: int)
    requires AllNewerThan(a, storedPostId) && AllNewerThan(b, storedPostId)
    ensures AllNewerThan(a + b, storedPostId)
  {
    forall i | 0 <= i < |a + b|
      ensures (a + b)[i].id > storedPostId
    {
      if i >= |a| {
        assert (a + b)[i] == b[i - |a|];
      }
    }
  }

  /** Every message one fetchPage call queues, panicking or not, has an id above the stored one. */
  lemma ScanPageQueuesOnlyNewPosts(web: Web, threadLink: string, pageNo: int, storedPostId: int)
    ensures AllNewerThan(ScanPage(web, threadLink, pageNo, storedPostId).queued, storedPostId)
  {
    var url := PageUrl(threadLink, pageNo);
    if url in web {
      var arts := web[url].articles;
      IntactSpec(arts);
      QueuedNewer(arts, Intact(arts), storedPostId);
    }
  }

  /** Every message the loop queues has an id above the stored one. */
  lemma {:induction false} SweepQueuesOnlyNewPosts(web: Web, threadLink: string, lo: int, hi: int, storedPostId: int, lastId: int)
    ensures AllNewerThan(SweepPages(web, threadLink, lo, hi, storedPostId, lastId).queued, storedPostId)
    decreases hi - lo
  {
    if lo <= hi {
      ScanPageQueuesOnlyNewPosts(web, threadLink, lo, storedPostId);
      var first := ScanPage(web, threadLink, lo, storedPostId);
      if first.Scanned? {
        SweepQueuesOnlyNewPosts(web, threadLink, lo + 1, hi, storedPostId, first.lastId);
        var rest := SweepPages(web, threadLink, lo + 1, hi, storedPostId, first.lastId);
        assert SweepPages(web, threadLink, lo, hi, storedPostId, lastId).queued == first.queued + rest.queued;
        NewerConcat(first.queued, rest.queued, storedPostId);
      }
    }
  }

  /** A page whose fetch fails ends a loop over it with id 0. */
  lemma FailedLastPageZeroesId(web: Web, threadLink: string, lo: int, hi: int, storedPostId: int, lastId: int)
    requires lo <= hi
    requires PageUrl(threadLink, hi) !in web
    requires SweepPages(web, threadLink, lo, hi, storedPostId, lastId).Swept?
    ensures SweepPages(web, threadLink, lo, hi, storedPostId, lastId).lastId == 0
  {
    SweepLastId(web, threadLink, lo, hi, storedPostId, lastId);
  }
}
